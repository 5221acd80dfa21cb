/**
 The lifecycle protocol as atomic moves on what the relay and its outbox hold, and the invariants every move keeps.
 The relay's operations are runs of these moves (module LifecycleRefinement).
 */
module LifecycleProtocol {
  import opened Options
  import opened Text
  import opened Decimal
  import opened LifecycleContract
  import opened TransitionEncoder
  import opened Reconciliation
  import opened LifecycleOutbox
  import opened LifecyclePipeline

  datatype Move =
    | Wait(elapsed: nat)
    | LoadState(state: SourceState)
    | Number(encoder: Encoder)
    | Store(encoder: Encoder, event: Event)
    | SubmitFirst(answer: SubmitAnswer)
    | RemoveFirstEntry
    | QuarantineFirst
    | FinishDrain(gap: bool)
    | AcceptRegistration(updatedAt: nat)
    | Open(updatedAt: nat)
    | Bootstrap(serverId: string, updatedAt: nat)
    | DropId
    | ResetEncoder

  function Add(c: Core, a: Action): Core {
    c.(log := c.log + [a])
  }

  function Move1(c: Core, env: Env, m: Move): Core {
    match m
    case Wait(elapsed) => c.(clock := c.clock + elapsed)
    case LoadState(s) => c.(current := Some(s))
    case Number(e) => c.(encoder := e)
    case Store(e, event) =>
      var entry := MakeEntry(env.digest, c.clock, event);
      Add(c, Stored(entry)).(encoder := e, pending := Insert(c.pending, entry))
    case SubmitFirst(a) => if c.pending == [] then c else Add(c, Submitted(c.pending[0], a))
    case RemoveFirstEntry => if c.pending == [] then c else Add(c, Removed(c.pending[0])).(pending := c.pending[1..])
    case QuarantineFirst => if c.pending == [] then c else Add(c, Action.Quarantined(c.pending[0])).(pending := c.pending[1..])
    case FinishDrain(gap) => Add(c, DrainEnded(|c.pending|, gap))
    case AcceptRegistration(updatedAt) =>
      if c.current.None? then c else
        Add(c, Registered(c.current.value.generation)).(current := Some(c.current.value.(registered := true, updatedAt := updatedAt)))
    case Open(updatedAt) =>
      if c.current.None? then c else
        var id := env.ids(c.drawn);
        Add(c, Opened(id, Some(c.current.value.generation))).(
          current := Some(SourceState(c.current.value.serverId, id, false, updatedAt)), drawn := c.drawn + 1)
    case Bootstrap(serverId, updatedAt) =>
      var id := env.ids(c.drawn);
      Add(Add(c, Opened(id, None)), Registered(id)).(current := Some(SourceState(serverId, id, true, updatedAt)), drawn := c.drawn + 1)
    case DropId => c.(drawn := c.drawn + 1)
    case ResetEncoder => c.(encoder := FRESH)
  }

  predicate LastIs(log: seq<Action>, a: Action) {
    log != [] && log[|log| - 1] == a
  }

  /** The last submission was refused for good, or for good and already moved away, or not at all; it reported a gap. */
  predicate GapJustReported(log: seq<Action>) {
    || (|log| >= 1 && log[|log| - 1].Submitted? && ReportsGap(log[|log| - 1].answer))
    || (|log| >= 2 && log[|log| - 1].Quarantined? && log[|log| - 2].Submitted? && ReportsGap(log[|log| - 2].answer))
  }

  /** Nothing was left pending, or the backend reported a gap in the sequence. */
  predicate ReplaceableAfter(a: Action) {
    a.DrainEnded? && (a.pending == 0 || a.gap)
  }

  ghost predicate OnlyNumbers(before: Encoder, after: Encoder, generation: string) {
    && (forall g :: g != generation ==> LastSequence(after, g) == LastSequence(before, g))
    && LastSequence(before, generation) <= LastSequence(after, generation)
  }

  /** When each move may happen. */
  ghost predicate Enabled(c: Core, env: Env, boot: Option<SourceState>, m: Move) {
    match m
    case Wait(_) => true
    case LoadState(s) => c.log == [] && c.current.None? && c.encoder == FRESH && boot == Some(s)
    case Number(e) => c.current.Some? && OnlyNumbers(c.encoder, e, c.current.value.generation)
    case Store(e, event) =>
      && c.current.Some?
      && OnlyNumbers(c.encoder, e, c.current.value.generation)
      && event.generation == c.current.value.generation
      && LastSequence(c.encoder, event.generation) < event.sequence == LastSequence(e, event.generation) <= MAX_SAFE_INTEGER
      && event.eventId == EventId(event.generation, event.sequence)
      && |c.pending| < env.maxPending
      && (forall p :: p in c.pending ==> !SameIdentity(p.event, event))
    case SubmitFirst(_) => c.pending != [] && (c.current.Some? ==> c.current.value.registered)
    case RemoveFirstEntry => c.pending != [] && LastIs(c.log, Submitted(c.pending[0], Accepted))
    case QuarantineFirst => c.pending != [] && exists a :: Permanent(a) && LastIs(c.log, Submitted(c.pending[0], a))
    case FinishDrain(gap) => gap ==> GapJustReported(c.log)
    case AcceptRegistration(_) => c.current.Some? && !c.current.value.registered
    case Open(_) => c.current.Some? && c.current.value.registered && c.log != [] && ReplaceableAfter(c.log[|c.log| - 1])
    case Bootstrap(_, _) => c.current.None?
    case DropId => true
    case ResetEncoder => c.current.Some? && LastSequence(c.encoder, c.current.value.generation) == 0
  }

  function Moves(c: Core, env: Env, ms: seq<Move>): Core {
    if ms == [] then c else Move1(Moves(c, env, ms[..|ms| - 1]), env, ms[|ms| - 1])
  }

  /** Every move is enabled where it happens. */
  ghost predicate Possible(c: Core, env: Env, boot: Option<SourceState>, ms: seq<Move>) {
    ms != [] ==> Possible(c, env, boot, ms[..|ms| - 1]) && Enabled(Moves(c, env, ms[..|ms| - 1]), env, boot, ms[|ms| - 1])
  }

  lemma {:induction false} MovesAppend(c: Core, env: Env, boot: Option<SourceState>, ms: seq<Move>, ns: seq<Move>)
    requires Possible(c, env, boot, ms) && Possible(Moves(c, env, ms), env, boot, ns)
    ensures Possible(c, env, boot, ms + ns) && Moves(c, env, ms + ns) == Moves(Moves(c, env, ms), env, ns)
  {
    hide Move1, Enabled;
    if ns == [] {
      assert ms + ns == ms;
    } else {
      var n := |ns| - 1;
      MovesAppend(c, env, boot, ms, ns[..n]);
      assert (ms + ns)[..|ms + ns| - 1] == ms + ns[..n];
    }
  }

  // ----- what holds at the start

  const TIME_LIMIT: nat := 10_000_000_000_000

  ghost predicate ProperEntry(env: Env, e: Entry) {
    && e.fileName == FileName(env.digest, e.enqueuedAt, e.event)
    && e.event.sequence <= MAX_SAFE_INTEGER
  }

  ghost predicate ProperOutbox(env: Env, pending: seq<Entry>) {
    && Ascending(pending)
    && |pending| <= env.maxPending
    && (forall e :: e in pending ==> ProperEntry(env, e))
    && (forall i, j :: 0 <= i < j < |pending| ==> !SameIdentity(pending[i].event, pending[j].event))
  }

  /**
   Ids carry no white space around them and are never drawn twice, and none is the stored generation or one that left
   events behind. How long they are does not matter: the event schema refuses the events of one that is too long.
   */
  ghost predicate ProperIds(env: Env, boot: Option<SourceState>, leftover: seq<Entry>) {
    && (forall k :: Trimmed(env.ids(k)))
    && (forall j, k :: env.ids(j) == env.ids(k) ==> j == k)
    && (boot.Some? ==> Trimmed(boot.value.generation))
    && (forall k :: boot.Some? ==> env.ids(k) != boot.value.generation)
    && (forall k, e :: e in leftover ==> env.ids(k) != e.event.generation)
  }

  ghost predicate ProperStart(c: Core, env: Env, boot: Option<SourceState>) {
    && Injective(env.digest)
    && ProperOutbox(env, c.pending)
    && ProperIds(env, boot, c.pending)
    && c.log == []
    && c.current.None?
    && c.encoder == FRESH
    && c.drawn == 0
  }

  // ----- the outbox stays proper

  /** A new event of another identity, put in at its place, repeats no identity. */
  lemma IdentitiesStayDistinct(pending: seq<Entry>, e: Entry, k: nat)
    requires k <= |pending|
    requires forall i, j :: 0 <= i < j < |pending| ==> !SameIdentity(pending[i].event, pending[j].event)
    requires forall p :: p in pending ==> !SameIdentity(p.event, e.event)
    ensures var after := pending[..k] + [e] + pending[k..];
            forall i, j :: 0 <= i < j < |after| ==> !SameIdentity(after[i].event, after[j].event)
  {
    var after := pending[..k] + [e] + pending[k..];
    forall i, j | 0 <= i < j < |after| ensures !SameIdentity(after[i].event, after[j].event) {
      if i == k {
        assert after[j] == pending[j - 1];
        assert pending[j - 1] in pending;
      } else if j == k {
        assert after[i] == pending[i];
        assert pending[i] in pending;
      } else {
        assert after[i] == pending[if i < k then i else i - 1];
        assert after[j] == pending[if j < k then j else j - 1];
      }
    }
  }

  lemma NewNameIsFresh(env: Env, pending: seq<Entry>, clock: nat, event: Event)
    requires Injective(env.digest) && ProperOutbox(env, pending) && event.sequence <= MAX_SAFE_INTEGER
    requires forall p :: p in pending ==> !SameIdentity(p.event, event)
    ensures Fresh(pending, MakeEntry(env.digest, clock, event).fileName)
  {
    hide FileName, EventId, Before;
    var e := MakeEntry(env.digest, clock, event);
    forall p | p in pending ensures p.fileName != e.fileName {
      if p.fileName == e.fileName {
        FileNameInjective(env.digest, p.enqueuedAt, p.event, clock, event);
        assert false;
      }
    }
  }

  lemma RestIsProper(env: Env, pending: seq<Entry>)
    requires ProperOutbox(env, pending) && pending != []
    ensures ProperOutbox(env, pending[1..])
  {
    hide Before, ProperEntry, SameIdentity;
    assert forall i :: 0 <= i < |pending| - 1 ==> pending[1..][i] == pending[i + 1];
  }

  lemma OutboxStaysProper(c: Core, env: Env, boot: Option<SourceState>, m: Move)
    requires Injective(env.digest) && ProperOutbox(env, c.pending) && Enabled(c, env, boot, m)
    ensures ProperOutbox(env, Move1(c, env, m).pending)
    ensures m.Store? ==> Fresh(c.pending, MakeEntry(env.digest, c.clock, m.event).fileName)
  {
    hide Insert, FileName, EventId, Before, SameIdentity, Injective, Ascending;
    if m.Store? {
      var e := MakeEntry(env.digest, c.clock, m.event);
      NewNameIsFresh(env, c.pending, c.clock, m.event);
      InsertFacts(c.pending, e);
      var k := InsertSplits(c.pending, e);
      IdentitiesStayDistinct(c.pending, e, k);
    } else if m.RemoveFirstEntry? || m.QuarantineFirst? {
      RestIsProper(env, c.pending);
    }
  }
}
