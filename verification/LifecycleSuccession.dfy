/** One generation succeeds another only as the protocol allows, in every run of the protocol. */
module LifecycleSuccession {
  import opened Options
  import opened LifecycleContract
  import opened TransitionEncoder
  import opened LifecycleOutbox
  import opened LifecyclePipeline
  import opened LifecycleProtocol

  /** Accepted by the backend before the process started: an outbox's old generations and a stored registered one. */
  ghost predicate RegisteredAtStart(start: Core, boot: Option<SourceState>, g: string) {
    || (exists e :: e in start.pending && e.event.generation == g)
    || (boot.Some? && boot.value.registered && boot.value.generation == g)
  }

  ghost predicate IsRegistered(start: Core, boot: Option<SourceState>, log: seq<Action>, g: string) {
    RegisteredAtStart(start, boot, g) || Registered(g) in log
  }

  /** The generation opened last; before any, the one that was stored. */
  function LatestGeneration(boot: Option<SourceState>, log: seq<Action>): Option<string> {
    if log == [] then (if boot.Some? then Some(boot.value.generation) else None)
    else if log[|log| - 1].Opened? then Some(log[|log| - 1].generation)
    else LatestGeneration(boot, log[..|log| - 1])
  }

  /** The listing after one logged action: a stored event is filed in name order, one that leaves is taken out. */
  function Relisted(pending: seq<Entry>, a: Action): seq<Entry> {
    match a
    case Stored(e) => Insert(pending, e)
    case Removed(e) => RemoveName(pending, e.fileName)
    case Quarantined(e) => RemoveName(pending, e.fileName)
    case _ => pending
  }

  /** The listing the process found, brought up to date by what the log says. */
  function ListedAfter(leftover: seq<Entry>, log: seq<Action>): seq<Entry> {
    if log == [] then leftover else Relisted(ListedAfter(leftover, log[..|log| - 1]), log[|log| - 1])
  }

  predicate Heads(pending: seq<Entry>, e: Entry) {
    pending != [] && pending[0] == e
  }

  /**
   What must have happened before an action. A submission is of the entry that heads the listing, and its generation was
   registered; only the head leaves; a drain reports what is left, and a gap only when the backend just did.
   */
  ghost predicate Justified(start: Core, boot: Option<SourceState>, before: seq<Action>, a: Action) {
    match a
    case Submitted(e, _) => IsRegistered(start, boot, before, e.event.generation) && Heads(ListedAfter(start.pending, before), e)
    case Removed(e) => Heads(ListedAfter(start.pending, before), e)
    case Quarantined(e) => Heads(ListedAfter(start.pending, before), e)
    case DrainEnded(pending, gap) => pending == |ListedAfter(start.pending, before)| && (gap ==> GapJustReported(before))
    case Opened(_, Some(previous)) =>
      && before != []
      && ReplaceableAfter(before[|before| - 1])
      && LatestGeneration(boot, before) == Some(previous)
      && IsRegistered(start, boot, before, previous)
    case _ => true
  }

  /**
   Every submitted event's generation was registered before; every generation that was replaced was the latest one,
   was registered, and was replaced right after a drain that left nothing pending or reported a gap; and what a drain
   reports is what the log before it says.
   */
  ghost predicate LogJustified(start: Core, boot: Option<SourceState>, log: seq<Action>) {
    forall i :: 0 <= i < |log| ==> Justified(start, boot, log[..i], log[i])
  }

  ghost predicate Unregistered(c: Core, g: string) {
    c.current.Some? && !c.current.value.registered && c.current.value.generation == g
  }

  ghost predicate Succession(start: Core, boot: Option<SourceState>, c: Core) {
    && LogJustified(start, boot, c.log)
    && ListedAfter(start.pending, c.log) == c.pending
    && (forall e :: e in c.pending ==>
          IsRegistered(start, boot, c.log, e.event.generation) || Unregistered(c, e.event.generation))
    && (c.current.Some? && c.current.value.registered ==> IsRegistered(start, boot, c.log, c.current.value.generation))
    && (c.current.Some? ==> LatestGeneration(boot, c.log) == Some(c.current.value.generation))
  }

  lemma AppendJustified(start: Core, boot: Option<SourceState>, log: seq<Action>, a: Action)
    requires LogJustified(start, boot, log) && Justified(start, boot, log, a)
    ensures LogJustified(start, boot, log + [a])
    ensures LatestGeneration(boot, log + [a]) == if a.Opened? then Some(a.generation) else LatestGeneration(boot, log)
    ensures forall g :: IsRegistered(start, boot, log, g) ==> IsRegistered(start, boot, log + [a], g)
    ensures ListedAfter(start.pending, log + [a]) == Relisted(ListedAfter(start.pending, log), a)
  {
    hide Justified, RegisteredAtStart, Relisted;
    var after := log + [a];
    assert after[..|after| - 1] == log;
    forall i | 0 <= i < |after| ensures Justified(start, boot, after[..i], after[i]) {
      if i < |log| {
        assert after[..i] == log[..i];
      }
    }
  }

  lemma SuccessionKept(start: Core, env: Env, boot: Option<SourceState>, c: Core, m: Move)
    requires Injective(env.digest) && ProperOutbox(env, c.pending)
    requires Succession(start, boot, c) && Enabled(c, env, boot, m)
    ensures Succession(start, boot, Move1(c, env, m))
  {
    hide Insert, RemoveName, FileName, EventId, Injective, SameIdentity, Ascending, LogJustified, LatestGeneration, RegisteredAtStart,
         LastSequence, ListedAfter, ProperEntry, GapJustReported;
    var log := c.log;
    match m
    case Store(_, event) =>
      OutboxStaysProper(c, env, boot, m);
      var e := MakeEntry(env.digest, c.clock, event);
      InsertFacts(c.pending, e);
      AppendJustified(start, boot, log, Stored(e));
    case SubmitFirst(a) =>
      assert c.pending[0] in c.pending;
      AppendJustified(start, boot, log, Submitted(c.pending[0], a));
    case RemoveFirstEntry =>
      FirstGoes(env, c.pending);
      AppendJustified(start, boot, log, Removed(c.pending[0]));
    case QuarantineFirst =>
      FirstGoes(env, c.pending);
      AppendJustified(start, boot, log, Action.Quarantined(c.pending[0]));
    case FinishDrain(gap) => AppendJustified(start, boot, log, DrainEnded(|c.pending|, gap));
    case AcceptRegistration(_) => AppendJustified(start, boot, log, Registered(c.current.value.generation));
    case Open(_) => AppendJustified(start, boot, log, Opened(env.ids(c.drawn), Some(c.current.value.generation)));
    case Bootstrap(_, _) =>
      AppendJustified(start, boot, log, Opened(env.ids(c.drawn), None));
      AppendJustified(start, boot, log + [Opened(env.ids(c.drawn), None)], Registered(env.ids(c.drawn)));
    case LoadState(s) => LoadIsLatest(start, boot, c, s);
    case _ =>
  }

  lemma FirstGoes(env: Env, pending: seq<Entry>)
    requires ProperOutbox(env, pending) && pending != []
    ensures RemoveName(pending, pending[0].fileName) == pending[1..]
  {
    hide Ascending, ProperEntry, SameIdentity, RemoveName;
    RemoveFirst(pending);
  }

  lemma LoadIsLatest(start: Core, boot: Option<SourceState>, c: Core, s: SourceState)
    requires Succession(start, boot, c) && c.log == [] && boot == Some(s)
    ensures Succession(start, boot, c.(current := Some(s)))
  {
  }

  lemma {:induction false} SuccessionInEveryRun(start: Core, env: Env, boot: Option<SourceState>, ms: seq<Move>)
    requires ProperStart(start, env, boot) && Possible(start, env, boot, ms)
    ensures ProperOutbox(env, Moves(start, env, ms).pending) && Succession(start, boot, Moves(start, env, ms))
  {
    hide Move1, Enabled, ProperOutbox, Injective;
    if ms == [] {
      assert forall e :: e in start.pending ==> RegisteredAtStart(start, boot, e.event.generation);
    } else {
      var n := |ms| - 1;
      SuccessionInEveryRun(start, env, boot, ms[..n]);
      OutboxStaysProper(Moves(start, env, ms[..n]), env, boot, ms[n]);
      SuccessionKept(start, env, boot, Moves(start, env, ms[..n]), ms[n]);
    }
  }
}
