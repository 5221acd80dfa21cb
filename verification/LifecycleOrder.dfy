/** Submissions happen in sequence order, in every run of the protocol. */
module LifecycleOrder {
  import opened Options
  import opened Text
  import opened Decimal
  import opened LifecycleContract
  import opened TransitionEncoder
  import opened Reconciliation
  import opened LifecycleOutbox
  import opened LifecyclePipeline
  import opened LifecycleProtocol

  function EntryOf(a: Action): Option<Entry> {
    match a
    case Stored(e) => Some(e)
    case Submitted(e, _) => Some(e)
    case Removed(e) => Some(e)
    case Quarantined(e) => Some(e)
    case _ => None
  }

  /** The generation left no events behind when the process started. */
  ghost predicate Own(leftover: seq<Entry>, g: string) {
    forall e :: e in leftover ==> e.event.generation != g
  }

  predicate SameGeneration(e: Entry, f: Entry) {
    e.event.generation == f.event.generation
  }

  ghost predicate NeverSeen(c: Core, g: string) {
    && (c.current.Some? ==> c.current.value.generation != g)
    && LastSequence(c.encoder, g) == 0
    && (forall e :: e in c.pending ==> e.event.generation != g)
    && (forall a :: a in c.log && EntryOf(a).Some? ==> EntryOf(a).value.event.generation != g)
  }

  /** Ids that are still to be drawn have been used nowhere. */
  ghost predicate IdsFresh(c: Core, env: Env) {
    forall k :: c.drawn <= k ==> NeverSeen(c, env.ids(k))
  }

  /** The current generation's number is at least that of each of its events. */
  ghost predicate NumbersBound(c: Core, leftover: seq<Entry>) {
    c.current.Some? && Own(leftover, c.current.value.generation) ==>
      && (forall e :: e in c.pending && e.event.generation == c.current.value.generation ==>
            e.event.sequence <= LastSequence(c.encoder, c.current.value.generation))
      && (forall a :: a in c.log && EntryOf(a).Some? && EntryOf(a).value.event.generation == c.current.value.generation ==>
            EntryOf(a).value.event.sequence <= LastSequence(c.encoder, c.current.value.generation))
  }

  ghost predicate StoredInThePast(c: Core, leftover: seq<Entry>) {
    forall e :: e in c.pending && Own(leftover, e.event.generation) ==> e.enqueuedAt <= c.clock
  }

  ghost predicate Untouched(c: Core, leftover: seq<Entry>) {
    c.log == [] ==> c.pending == leftover
  }

  /** What the order argument needs at every moment, and every move keeps. */
  ghost predicate Bookkept(c: Core, env: Env, leftover: seq<Entry>) {
    && IdsFresh(c, env)
    && NumbersBound(c, leftover)
    && StoredInThePast(c, leftover)
    && Untouched(c, leftover)
  }

  lemma IdsStayFresh(c: Core, env: Env, boot: Option<SourceState>, leftover: seq<Entry>, m: Move)
    requires ProperIds(env, boot, leftover) && Injective(env.digest) && ProperOutbox(env, c.pending)
    requires IdsFresh(c, env) && Enabled(c, env, boot, m)
    ensures IdsFresh(Move1(c, env, m), env)
  {
    hide Insert, FileName, EventId, Before, Trimmed, Injective, Ascending;
    var after := Move1(c, env, m);
    if m.Store? {
      OutboxStaysProper(c, env, boot, m);
      InsertFacts(c.pending, MakeEntry(env.digest, c.clock, m.event));
    }
    forall k | after.drawn <= k ensures NeverSeen(after, env.ids(k)) {
      assert NeverSeen(c, env.ids(k));
      assert env.ids(k) == env.ids(c.drawn) ==> k == c.drawn;
    }
  }

  lemma NumbersStayBound(c: Core, env: Env, boot: Option<SourceState>, leftover: seq<Entry>, m: Move)
    requires ProperIds(env, boot, leftover) && Injective(env.digest) && ProperOutbox(env, c.pending)
    requires Bookkept(c, env, leftover) && Enabled(c, env, boot, m)
    ensures NumbersBound(Move1(c, env, m), leftover)
  {
    hide Insert, FileName, EventId, Before, Trimmed, Injective, Ascending, SameIdentity;
    if m.Store? {
      OutboxStaysProper(c, env, boot, m);
      InsertFacts(c.pending, MakeEntry(env.digest, c.clock, m.event));
    } else if m.Open? || m.Bootstrap? {
      assert NeverSeen(c, env.ids(c.drawn));
    }
  }

  lemma BookkeepingKept(c: Core, env: Env, boot: Option<SourceState>, leftover: seq<Entry>, m: Move)
    requires ProperIds(env, boot, leftover) && Injective(env.digest) && ProperOutbox(env, c.pending)
    requires Bookkept(c, env, leftover) && Enabled(c, env, boot, m)
    ensures Bookkept(Move1(c, env, m), env, leftover)
  {
    hide Insert, FileName, EventId, Before, Trimmed, Injective, Ascending, SameIdentity, ProperIds, NeverSeen;
    IdsStayFresh(c, env, boot, leftover, m);
    NumbersStayBound(c, env, boot, leftover, m);
    if m.Store? {
      OutboxStaysProper(c, env, boot, m);
      InsertFacts(c.pending, MakeEntry(env.digest, c.clock, m.event));
    }
  }

  // ----- order

  ghost predicate PendingOrdered(pending: seq<Entry>, leftover: seq<Entry>) {
    forall i, j :: 0 <= i < j < |pending| && SameGeneration(pending[i], pending[j]) && Own(leftover, pending[i].event.generation) ==>
      pending[i].event.sequence < pending[j].event.sequence
  }

  /** e may be submitted after a has happened to another event of its generation. */
  predicate MaySubmitAfter(a: Action, e: Entry) {
    match a
    case Submitted(f, _) => SameGeneration(f, e) ==> f == e || f.event.sequence < e.event.sequence
    case Removed(f) => SameGeneration(f, e) ==> f.event.sequence < e.event.sequence
    case Quarantined(f) => SameGeneration(f, e) ==> f.event.sequence < e.event.sequence
    case _ => true
  }

  ghost predicate PendingBehind(log: seq<Action>, pending: seq<Entry>, leftover: seq<Entry>) {
    forall a, e :: a in log && e in pending && Own(leftover, e.event.generation) ==> MaySubmitAfter(a, e)
  }

  /**
   In the log, every submission of a generation that left nothing behind has a larger sequence number than each
   event of that generation submitted earlier, unless it submits that same event again; and an event that was removed
   or quarantined is never submitted again, nor is any event numbered below it.
   */
  ghost predicate SubmissionsOrdered(log: seq<Action>, leftover: seq<Entry>) {
    forall i, j :: 0 <= i < j < |log| && log[j].Submitted? && Own(leftover, log[j].entry.event.generation) ==>
      MaySubmitAfter(log[i], log[j].entry)
  }

  ghost predicate Ordered(c: Core, leftover: seq<Entry>) {
    c.clock < TIME_LIMIT ==>
      && PendingOrdered(c.pending, leftover)
      && PendingBehind(c.log, c.pending, leftover)
      && SubmissionsOrdered(c.log, leftover)
  }

  /** Where a new event goes in the listing: after every pending event of its own generation. */
  lemma StoreGoesBehind(c: Core, env: Env, boot: Option<SourceState>, leftover: seq<Entry>, m: Move)
    requires Injective(env.digest) && ProperOutbox(env, c.pending)
    requires Bookkept(c, env, leftover) && Enabled(c, env, boot, m) && m.Store? && c.clock < TIME_LIMIT
    requires PendingOrdered(c.pending, leftover)
    ensures PendingOrdered(Move1(c, env, m).pending, leftover)
  {
    hide Insert, FileName, EventId, Before, Injective, SameIdentity, IdsFresh;
    var e := MakeEntry(env.digest, c.clock, m.event);
    OutboxStaysProper(c, env, boot, m);
    var k := InsertSplits(c.pending, e);
    var after := Insert(c.pending, e);
    if Own(leftover, m.event.generation) {
      forall i | 0 <= i < |c.pending| && SameGeneration(c.pending[i], e) ensures i < k {
        var p := c.pending[i];
        assert p in c.pending;
        FileNameOrder(env.digest, p.enqueuedAt, p.event, c.clock, m.event);
        BeforeTotal(p.fileName, e.fileName);
      }
    }
    forall i, j | 0 <= i < j < |after| && SameGeneration(after[i], after[j]) && Own(leftover, after[i].event.generation)
      ensures after[i].event.sequence < after[j].event.sequence
    {
      if j == k {
        assert after[i] == c.pending[i] && c.pending[i] in c.pending;
      } else if i != k {
        var left := if i < k then i else i - 1;
        var right := if j < k then j else j - 1;
        assert after[i] == c.pending[left] && after[j] == c.pending[right];
      }
    }
  }

  lemma StoreKeepsOrder(c: Core, env: Env, boot: Option<SourceState>, leftover: seq<Entry>, m: Move)
    requires Injective(env.digest) && ProperOutbox(env, c.pending)
    requires Bookkept(c, env, leftover) && Enabled(c, env, boot, m) && m.Store? && Ordered(c, leftover)
    ensures Ordered(Move1(c, env, m), leftover)
  {
    hide Insert, FileName, EventId, Before, Injective, SameIdentity, IdsFresh, Ascending, PendingOrdered;
    if c.clock < TIME_LIMIT {
      var after := Move1(c, env, m);
      var e := MakeEntry(env.digest, c.clock, m.event);
      StoreGoesBehind(c, env, boot, leftover, m);
      OutboxStaysProper(c, env, boot, m);
      InsertFacts(c.pending, e);
      forall a, p | a in after.log && p in after.pending && Own(leftover, p.event.generation) ensures MaySubmitAfter(a, p) {
        if p in c.pending {
          assert a in c.log || a == Stored(e);
        }
      }
    }
  }

  /** Every later entry of the first entry's generation has a larger number. */
  lemma FirstIsLowest(pending: seq<Entry>, leftover: seq<Entry>, e: Entry)
    requires PendingOrdered(pending, leftover) && pending != [] && e in pending
    requires SameGeneration(pending[0], e) && Own(leftover, e.event.generation)
    ensures e == pending[0] || pending[0].event.sequence < e.event.sequence
    ensures e in pending[1..] ==> pending[0].event.sequence < e.event.sequence
  {
    forall j | 0 < j < |pending| && pending[j] == e ensures pending[0].event.sequence < e.event.sequence {
    }
  }

  lemma SubmitKeepsOrder(log: seq<Action>, pending: seq<Entry>, leftover: seq<Entry>, a: SubmitAnswer)
    requires pending != [] && PendingOrdered(pending, leftover)
    requires PendingBehind(log, pending, leftover) && SubmissionsOrdered(log, leftover)
    ensures PendingBehind(log + [Submitted(pending[0], a)], pending, leftover)
    ensures SubmissionsOrdered(log + [Submitted(pending[0], a)], leftover)
  {
    hide PendingOrdered, Own;
    var after := log + [Submitted(pending[0], a)];
    forall x, e | x in after && e in pending && Own(leftover, e.event.generation) ensures MaySubmitAfter(x, e) {
      if x !in log && SameGeneration(pending[0], e) {
        FirstIsLowest(pending, leftover, e);
      }
    }
    forall i, j | 0 <= i < j < |after| && after[j].Submitted? && Own(leftover, after[j].entry.event.generation)
      ensures MaySubmitAfter(after[i], after[j].entry)
    {
      if j == |log| {
        assert after[i] in log && pending[0] in pending;
      }
    }
  }

  lemma LeaveKeepsOrder(log: seq<Action>, pending: seq<Entry>, leftover: seq<Entry>, x: Action)
    requires pending != [] && PendingOrdered(pending, leftover)
    requires PendingBehind(log, pending, leftover) && SubmissionsOrdered(log, leftover)
    requires x == Removed(pending[0]) || x == Action.Quarantined(pending[0])
    ensures PendingOrdered(pending[1..], leftover)
    ensures PendingBehind(log + [x], pending[1..], leftover)
    ensures SubmissionsOrdered(log + [x], leftover)
  {
    hide Own;
    assert forall i :: 0 <= i < |pending| - 1 ==> pending[1..][i] == pending[i + 1];
    forall y, e | y in log + [x] && e in pending[1..] && Own(leftover, e.event.generation) ensures MaySubmitAfter(y, e) {
      if SameGeneration(pending[0], e) {
        FirstIsLowest(pending, leftover, e);
      }
    }
  }

  lemma OtherKeepsOrder(log: seq<Action>, pending: seq<Entry>, leftover: seq<Entry>, x: Action)
    requires PendingBehind(log, pending, leftover) && SubmissionsOrdered(log, leftover)
    requires x.Registered? || x.Opened? || x.DrainEnded?
    ensures PendingBehind(log + [x], pending, leftover) && SubmissionsOrdered(log + [x], leftover)
  {
    hide Own;
  }

  lemma OrderKept(c: Core, env: Env, boot: Option<SourceState>, leftover: seq<Entry>, m: Move)
    requires Injective(env.digest) && ProperOutbox(env, c.pending)
    requires Bookkept(c, env, leftover) && Enabled(c, env, boot, m) && Ordered(c, leftover)
    ensures Ordered(Move1(c, env, m), leftover)
  {
    hide Insert, FileName, EventId, Before, Injective, SameIdentity, Bookkept, Ascending, PendingOrdered, PendingBehind, SubmissionsOrdered;
    var log, pending := c.log, c.pending;
    if c.clock < TIME_LIMIT {
      match m
      case Store(_, _) => StoreKeepsOrder(c, env, boot, leftover, m);
      case SubmitFirst(a) => SubmitKeepsOrder(log, pending, leftover, a);
      case RemoveFirstEntry => LeaveKeepsOrder(log, pending, leftover, Removed(pending[0]));
      case QuarantineFirst => LeaveKeepsOrder(log, pending, leftover, Action.Quarantined(pending[0]));
      case FinishDrain(gap) => OtherKeepsOrder(log, pending, leftover, DrainEnded(|pending|, gap));
      case AcceptRegistration(_) => OtherKeepsOrder(log, pending, leftover, Registered(c.current.value.generation));
      case Open(_) => OtherKeepsOrder(log, pending, leftover, Opened(env.ids(c.drawn), Some(c.current.value.generation)));
      case Bootstrap(_, _) =>
        OtherKeepsOrder(log, pending, leftover, Opened(env.ids(c.drawn), None));
        OtherKeepsOrder(log + [Opened(env.ids(c.drawn), None)], pending, leftover, Registered(env.ids(c.drawn)));
      case _ =>
    }
  }

  // ----- every run

  ghost predicate OrderInvariant(c: Core, env: Env, leftover: seq<Entry>) {
    ProperOutbox(env, c.pending) && Bookkept(c, env, leftover) && Ordered(c, leftover)
  }

  lemma {:induction false} OrderInEveryRun(start: Core, env: Env, boot: Option<SourceState>, ms: seq<Move>)
    requires ProperStart(start, env, boot) && Possible(start, env, boot, ms)
    ensures OrderInvariant(Moves(start, env, ms), env, start.pending)
  {
    hide Move1, Enabled, Ordered, ProperOutbox, Injective, Trimmed, NeverSeen, NumbersBound, StoredInThePast;
    if ms == [] {
      StartIsOrdered(start, env, boot);
    } else {
      var n := |ms| - 1;
      var c := Moves(start, env, ms[..n]);
      OrderInEveryRun(start, env, boot, ms[..n]);
      OutboxStaysProper(c, env, boot, ms[n]);
      BookkeepingKept(c, env, boot, start.pending, ms[n]);
      OrderKept(c, env, boot, start.pending, ms[n]);
    }
  }

  lemma StartIsOrdered(start: Core, env: Env, boot: Option<SourceState>)
    requires ProperStart(start, env, boot)
    ensures OrderInvariant(start, env, start.pending)
  {
    hide Injective, Trimmed, FileName, SameIdentity, Before;
    forall k | start.drawn <= k ensures NeverSeen(start, env.ids(k)) {
    }
    forall e | e in start.pending && Own(start.pending, e.event.generation) ensures false {
    }
  }
}
