/** No stored event is lost or counted twice, in every run of the protocol. */
module LifecycleConservation {
  import opened Options
  import opened LifecycleContract
  import opened TransitionEncoder
  import opened LifecycleOutbox
  import opened LifecyclePipeline
  import opened LifecycleProtocol
  import opened LifecycleOrder

  function StoredIn(log: seq<Action>): multiset<Entry> {
    if log == [] then multiset{} else
      var a := log[|log| - 1];
      StoredIn(log[..|log| - 1]) + if a.Stored? then multiset{a.entry} else multiset{}
  }

  function RemovedIn(log: seq<Action>): multiset<Entry> {
    if log == [] then multiset{} else
      var a := log[|log| - 1];
      RemovedIn(log[..|log| - 1]) + if a.Removed? then multiset{a.entry} else multiset{}
  }

  function QuarantinedIn(log: seq<Action>): multiset<Entry> {
    if log == [] then multiset{} else
      var a := log[|log| - 1];
      QuarantinedIn(log[..|log| - 1]) + if a.Quarantined? then multiset{a.entry} else multiset{}
  }

  /** What was pending at the start and what was stored since is pending, removed or quarantined. */
  ghost predicate Conserved(start: Core, c: Core) {
    multiset(start.pending) + StoredIn(c.log) == multiset(c.pending) + RemovedIn(c.log) + QuarantinedIn(c.log)
  }

  /** The i-th action, if an entry leaves by it, comes right after the submission that decided it. */
  ghost predicate LeavesAt(log: seq<Action>, i: nat)
    requires i < |log|
  {
    && (log[i].Removed? ==> i > 0 && log[i - 1] == Submitted(log[i].entry, Accepted))
    && (log[i].Quarantined? ==> i > 0 && log[i - 1].Submitted? && log[i - 1].entry == log[i].entry && Permanent(log[i - 1].answer))
  }

  /** An entry leaves only right after its own submission: removed when accepted, quarantined when refused for good. */
  ghost predicate LeavesWhenAnswered(log: seq<Action>) {
    forall i :: 0 <= i < |log| ==> LeavesAt(log, i)
  }

  lemma LogCounts(log: seq<Action>, a: Action)
    ensures StoredIn(log + [a]) == if a.Stored? then StoredIn(log) + multiset{a.entry} else StoredIn(log)
    ensures RemovedIn(log + [a]) == if a.Removed? then RemovedIn(log) + multiset{a.entry} else RemovedIn(log)
    ensures QuarantinedIn(log + [a]) == if a.Quarantined? then QuarantinedIn(log) + multiset{a.entry} else QuarantinedIn(log)
  {
    assert (log + [a])[..|log|] == log;
  }

  /** Whether an entry may leave by this action, right after what the log ends with. */
  ghost predicate Answered(log: seq<Action>, a: Action) {
    && (a.Removed? ==> LastIs(log, Submitted(a.entry, Accepted)))
    && (a.Quarantined? ==> log != [] && log[|log| - 1].Submitted? && log[|log| - 1].entry == a.entry && Permanent(log[|log| - 1].answer))
  }

  lemma Appended(log: seq<Action>, a: Action)
    requires LeavesWhenAnswered(log) && Answered(log, a)
    ensures LeavesWhenAnswered(log + [a])
    ensures StoredIn(log + [a]) == if a.Stored? then StoredIn(log) + multiset{a.entry} else StoredIn(log)
    ensures RemovedIn(log + [a]) == if a.Removed? then RemovedIn(log) + multiset{a.entry} else RemovedIn(log)
    ensures QuarantinedIn(log + [a]) == if a.Quarantined? then QuarantinedIn(log) + multiset{a.entry} else QuarantinedIn(log)
  {
    hide StoredIn, RemovedIn, QuarantinedIn, LeavesWhenAnswered, Answered;
    LogCounts(log, a);
    AnsweredAppend(log, a);
  }

  lemma AnsweredAppend(log: seq<Action>, a: Action)
    requires LeavesWhenAnswered(log) && Answered(log, a)
    ensures LeavesWhenAnswered(log + [a])
  {
    var longer := log + [a];
    forall i | 0 <= i < |longer| ensures LeavesAt(longer, i) {
      if i < |log| {
        assert LeavesAt(log, i);
      }
    }
  }

  lemma OneMore(s: multiset<Entry>, t: multiset<Entry>, p: multiset<Entry>, r: multiset<Entry>, q: multiset<Entry>, e: Entry)
    requires s + t == p + r + q
    ensures s + (t + multiset{e}) == (p + multiset{e}) + r + q
  {
    assert s + (t + multiset{e}) == (s + t) + multiset{e};
    assert (p + multiset{e}) + r + q == (p + r + q) + multiset{e};
  }

  lemma StoreConserves(start: Core, env: Env, boot: Option<SourceState>, c: Core, m: Move)
    requires Injective(env.digest) && ProperOutbox(env, c.pending) && Enabled(c, env, boot, m) && m.Store?
    requires Conserved(start, c) && LeavesWhenAnswered(c.log)
    ensures Conserved(start, Move1(c, env, m)) && LeavesWhenAnswered(Move1(c, env, m).log)
  {
    hide Insert, FileName, EventId, Injective, SameIdentity, LastSequence, StoredIn, RemovedIn, QuarantinedIn, LeavesWhenAnswered, Ascending;
    OutboxStaysProper(c, env, boot, m);
    var e := MakeEntry(env.digest, c.clock, m.event);
    InsertFacts(c.pending, e);
    Appended(c.log, Stored(e));
    OneMore(multiset(start.pending), StoredIn(c.log), multiset(c.pending), RemovedIn(c.log), QuarantinedIn(c.log), e);
  }

  lemma ConservationKept(start: Core, env: Env, boot: Option<SourceState>, c: Core, m: Move)
    requires Injective(env.digest) && ProperOutbox(env, c.pending) && Enabled(c, env, boot, m)
    requires Conserved(start, c) && LeavesWhenAnswered(c.log)
    ensures Conserved(start, Move1(c, env, m)) && LeavesWhenAnswered(Move1(c, env, m).log)
  {
    hide Insert, FileName, EventId, Injective, ProperOutbox, LastSequence, StoredIn, RemovedIn, QuarantinedIn, LeavesWhenAnswered, MakeEntry;
    if c.pending != [] {
      assert c.pending == [c.pending[0]] + c.pending[1..];
    }
    match m
    case Store(_, event) => StoreConserves(start, env, boot, c, m);
    case SubmitFirst(a) => Appended(c.log, Submitted(c.pending[0], a));
    case RemoveFirstEntry => Appended(c.log, Removed(c.pending[0]));
    case QuarantineFirst => Appended(c.log, Action.Quarantined(c.pending[0]));
    case FinishDrain(gap) => Appended(c.log, DrainEnded(|c.pending|, gap));
    case AcceptRegistration(_) => Appended(c.log, Registered(c.current.value.generation));
    case Open(_) => Appended(c.log, Opened(env.ids(c.drawn), Some(c.current.value.generation)));
    case Bootstrap(_, _) =>
      Appended(c.log, Opened(env.ids(c.drawn), None));
      Appended(c.log + [Opened(env.ids(c.drawn), None)], Registered(env.ids(c.drawn)));
    case _ =>
  }

  lemma {:induction false} ConservationInEveryRun(start: Core, env: Env, boot: Option<SourceState>, ms: seq<Move>)
    requires ProperStart(start, env, boot) && Possible(start, env, boot, ms)
    ensures ProperOutbox(env, Moves(start, env, ms).pending)
    ensures Conserved(start, Moves(start, env, ms)) && LeavesWhenAnswered(Moves(start, env, ms).log)
  {
    hide Move1, Enabled, ProperOutbox, Injective;
    if ms != [] {
      var n := |ms| - 1;
      ConservationInEveryRun(start, env, boot, ms[..n]);
      OutboxStaysProper(Moves(start, env, ms[..n]), env, boot, ms[n]);
      ConservationKept(start, env, boot, Moves(start, env, ms[..n]), ms[n]);
    }
  }

  // ----- exactly one place

  ghost predicate StoredOnce(start: Core, c: Core) {
    && (forall e :: e in StoredIn(c.log) ==> Stored(e) in c.log)
    && (forall e :: e in StoredIn(c.log) && Own(start.pending, e.event.generation) ==> StoredIn(c.log)[e] == 1)
  }

  lemma StoredOnceAppend(start: Core, c: Core, after: Core, a: Action)
    requires StoredOnce(start, c) && after.log == c.log + [a]
    requires a.Stored? && Own(start.pending, a.entry.event.generation) ==> a.entry !in StoredIn(c.log)
    ensures StoredOnce(start, after)
  {
    hide StoredIn, Own;
    LogCounts(c.log, a);
  }

  /** The number of a new event is larger than that of every event of its generation in the log. */
  lemma NewIsNew(start: Core, env: Env, boot: Option<SourceState>, c: Core, m: Move)
    requires Bookkept(c, env, start.pending) && Enabled(c, env, boot, m) && StoredOnce(start, c)
    requires m.Store? && Own(start.pending, m.event.generation)
    ensures MakeEntry(env.digest, c.clock, m.event) !in StoredIn(c.log)
  {
    hide FileName, EventId, SameIdentity, IdsFresh, StoredInThePast, StoredIn, LastSequence;
    var e := MakeEntry(env.digest, c.clock, m.event);
    assert Stored(e) in c.log ==> EntryOf(Stored(e)) == Some(e);
  }

  lemma StoredOnceKept(start: Core, env: Env, boot: Option<SourceState>, c: Core, m: Move)
    requires Bookkept(c, env, start.pending) && Enabled(c, env, boot, m) && StoredOnce(start, c)
    ensures StoredOnce(start, Move1(c, env, m))
  {
    hide Insert, FileName, EventId, SameIdentity, IdsFresh, StoredInThePast, StoredIn, StoredOnce, Bookkept;
    var after := Move1(c, env, m);
    match m
    case Store(_, event) =>
      if Own(start.pending, event.generation) { NewIsNew(start, env, boot, c, m); }
      StoredOnceAppend(start, c, after, Stored(MakeEntry(env.digest, c.clock, event)));
    case SubmitFirst(a) => StoredOnceAppend(start, c, after, Submitted(c.pending[0], a));
    case RemoveFirstEntry => StoredOnceAppend(start, c, after, Removed(c.pending[0]));
    case QuarantineFirst => StoredOnceAppend(start, c, after, Action.Quarantined(c.pending[0]));
    case FinishDrain(gap) => StoredOnceAppend(start, c, after, DrainEnded(|c.pending|, gap));
    case AcceptRegistration(_) => StoredOnceAppend(start, c, after, Registered(c.current.value.generation));
    case Open(_) => StoredOnceAppend(start, c, after, Opened(env.ids(c.drawn), Some(c.current.value.generation)));
    case Bootstrap(_, _) =>
      var half := c.(log := c.log + [Opened(env.ids(c.drawn), None)]);
      StoredOnceAppend(start, c, half, Opened(env.ids(c.drawn), None));
      StoredOnceAppend(start, half, after, Registered(env.ids(c.drawn)));
    case LoadState(_) => StoredOnceSame(start, c, after);
    case _ => StoredOnceSame(start, c, after);
  }

  lemma StoredOnceSame(start: Core, c: Core, after: Core)
    requires StoredOnce(start, c) && after.log == c.log
    ensures StoredOnce(start, after)
  {
  }

  lemma {:induction false} StoredOnceInEveryRun(start: Core, env: Env, boot: Option<SourceState>, ms: seq<Move>)
    requires ProperStart(start, env, boot) && Possible(start, env, boot, ms)
    ensures StoredOnce(start, Moves(start, env, ms))
  {
    hide Move1, Enabled, ProperOutbox, Injective, Bookkept, Ordered;
    if ms != [] {
      var n := |ms| - 1;
      StoredOnceInEveryRun(start, env, boot, ms[..n]);
      OrderInEveryRun(start, env, boot, ms[..n]);
      StoredOnceKept(start, env, boot, Moves(start, env, ms[..n]), ms[n]);
    }
  }

  /**
   An event stored in this process, of a generation that left nothing behind, is at every moment in exactly one place:
   pending, removed after the backend accepted it, or quarantined after the backend refused it for good.
   */
  lemma ExactlyOnePlace(start: Core, env: Env, boot: Option<SourceState>, ms: seq<Move>, e: Entry)
    requires ProperStart(start, env, boot) && Possible(start, env, boot, ms)
    requires e in StoredIn(Moves(start, env, ms).log) && Own(start.pending, e.event.generation)
    ensures
      var c := Moves(start, env, ms);
      multiset(c.pending)[e] + RemovedIn(c.log)[e] + QuarantinedIn(c.log)[e] == 1
  {
    hide Moves, Possible, ProperStart;
    var c := Moves(start, env, ms);
    ConservationInEveryRun(start, env, boot, ms);
    StoredOnceInEveryRun(start, env, boot, ms);
    assert e !in start.pending;
    assert (multiset(start.pending) + StoredIn(c.log))[e] == 1;
  }
}
