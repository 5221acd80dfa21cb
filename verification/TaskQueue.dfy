/**
 The in-memory task queue: bounded, with a bounded number of tasks in flight, and processors that may enqueue more
 tasks while they are being started. Every accepted task is known by its ticket, its place in the order of acceptance.
 */
module TaskQueue {

  /** What is queued: some kind of value, of which nothing is assumed. */
  type Task(!new)

  datatype EnqueueResult = Queued | QueueClosed | QueueFull

  /** What the queue holds, and the history of what it accepted, started and removed. */
  datatype State = State(
    queue: seq<nat>,
    inFlight: nat,
    accepting: bool,
    accepted: seq<Task>,
    started: seq<nat>,
    removed: seq<nat>)

  /** The limits, and the tasks each processor enqueues before it first waits. */
  datatype Settings = Settings(concurrency: nat, maxQueue: nat, calls: Task -> seq<Task>)

  predicate Ascending(ts: seq<nat>) {
    forall i, j :: 0 <= i < j < |ts| ==> ts[i] < ts[j]
  }

  /** How often a ticket occurs among the queued, started and removed ones. */
  function Places(s: State): multiset<nat> {
    multiset(s.queue) + multiset(s.started) + multiset(s.removed)
  }

  ghost predicate Inv(s: State, o: Settings) {
    && s.inFlight <= o.concurrency
    && |s.queue| <= o.maxQueue
    && Ascending(s.queue)
    && Ascending(s.started)
    && (forall a, b :: a in s.started && b in s.queue ==> a < b)
    && (forall t :: t in Places(s) ==> t < |s.accepted|)
    && (forall t: nat :: t < |s.accepted| ==> Places(s)[t] == 1)
  }

  predicate Idle(s: State, o: Settings) {
    s.queue == [] || s.inFlight == o.concurrency
  }

  function Accept(s: State, item: Task): State {
    s.(queue := s.queue + [|s.accepted|], accepted := s.accepted + [item])
  }

  function StartFirst(s: State): State
    requires s.queue != []
  {
    s.(queue := s.queue[1..], inFlight := s.inFlight + 1, started := s.started + [s.queue[0]])
  }

  lemma AcceptKeeps(s: State, o: Settings, item: Task)
    requires Inv(s, o) && |s.queue| < o.maxQueue
    ensures Inv(Accept(s, item), o)
  {
    var n, after := |s.accepted|, Accept(s, item);
    assert n !in Places(s);
    assert Places(after) == Places(s) + multiset{n};
    forall b | b in s.queue ensures b < n {
      assert b in Places(s);
    }
    forall a | a in s.started ensures a < n {
      assert a in Places(s);
    }
    assert forall i :: 0 <= i < |s.queue| ==> s.queue[i] in s.queue;
  }

  /** Moving the first of an ascending queue to the end of what has been started keeps both ascending. */
  lemma FirstMoves(queue: seq<nat>, started: seq<nat>)
    requires queue != [] && Ascending(queue) && Ascending(started)
    requires forall a, b :: a in started && b in queue ==> a < b
    ensures Ascending(queue[1..]) && Ascending(started + [queue[0]])
    ensures forall a, b :: a in started + [queue[0]] && b in queue[1..] ==> a < b
  {
    assert queue[0] in queue;
    assert forall i :: 0 <= i < |queue| - 1 ==> queue[1..][i] == queue[i + 1];
    forall a, b | a in started + [queue[0]] && b in queue[1..] ensures a < b {
      assert b in queue;
      var j :| 0 < j < |queue| && queue[j] == b;
    }
    forall i | 0 <= i < |started| ensures started[i] < queue[0] {
      assert started[i] in started;
    }
  }

  lemma StartKeeps(s: State, o: Settings)
    requires Inv(s, o) && s.queue != [] && s.inFlight < o.concurrency
    ensures Inv(StartFirst(s), o)
  {
    hide Ascending;
    FirstMoves(s.queue, s.started);
    assert s.queue == [s.queue[0]] + s.queue[1..];
    assert Places(StartFirst(s)) == Places(s);
  }

  /** Starts queued tasks while a slot is free; each processor may enqueue before the next one starts. */
  function Pumped(s: State, o: Settings): (r: State)
    requires Inv(s, o)
    ensures Inv(r, o) && s.inFlight <= r.inFlight && Idle(r, o) && r.accepting == s.accepting && r.removed == s.removed
    ensures s.accepted <= r.accepted && s.started <= r.started
    decreases o.concurrency - s.inFlight, 0
  {
    if s.inFlight < o.concurrency && s.queue != [] then
      StartKeeps(s, o);
      assert s.queue[0] in Places(s);
      var next := s.accepted[s.queue[0]];
      Pumped(AfterEnqueueAll(StartFirst(s), o, o.calls(next)), o)
    else s
  }

  function AfterEnqueue(s: State, o: Settings, item: Task): (r: (State, EnqueueResult))
    requires Inv(s, o)
    ensures Inv(r.0, o) && s.inFlight <= r.0.inFlight && r.0.accepting == s.accepting && r.0.removed == s.removed
    ensures s.accepted <= r.0.accepted && s.started <= r.0.started
    ensures r.1.Queued? ==> Idle(r.0, o)
    decreases o.concurrency - s.inFlight, 1
  {
    if !s.accepting then (s, QueueClosed)
    else if |s.queue| >= o.maxQueue then (s, QueueFull)
    else
      AcceptKeeps(s, o, item);
      (Pumped(Accept(s, item), o), Queued)
  }

  function AfterEnqueueAll(s: State, o: Settings, items: seq<Task>): (r: State)
    requires Inv(s, o)
    ensures Inv(r, o) && s.inFlight <= r.inFlight && r.accepting == s.accepting && r.removed == s.removed
    ensures s.accepted <= r.accepted && s.started <= r.started
    decreases o.concurrency - s.inFlight, 2 + |items|
  {
    if items == [] then s else AfterEnqueueAll(AfterEnqueue(s, o, items[0]).0, o, items[1..])
  }

  // ----- removing queued tasks

  predicate Issued(queue: seq<nat>, n: nat) {
    forall i :: 0 <= i < |queue| ==> queue[i] < n
  }

  lemma QueueIssued(s: State, o: Settings)
    requires Inv(s, o)
    ensures Issued(s.queue, |s.accepted|)
  {
    forall i | 0 <= i < |s.queue| ensures s.queue[i] < |s.accepted| {
      assert s.queue[i] in Places(s);
    }
  }

  /** The tickets whose task satisfies the predicate, in order. */
  function Keep(queue: seq<nat>, accepted: seq<Task>, p: Task -> bool): (r: seq<nat>)
    requires Issued(queue, |accepted|)
    ensures forall t :: t in r ==> t in queue
  {
    if queue == [] then [] else
      var last := queue[|queue| - 1];
      assert queue == queue[..|queue| - 1] + [last];
      Keep(queue[..|queue| - 1], accepted, p) + if p(accepted[last]) then [last] else []
  }

  function Not(p: Task -> bool): Task -> bool {
    x => !p(x)
  }

  function AfterRemoval(s: State, o: Settings, p: Task -> bool): State
    requires Inv(s, o)
  {
    QueueIssued(s, o);
    s.(queue := Keep(s.queue, s.accepted, Not(p)), removed := s.removed + Keep(s.queue, s.accepted, p))
  }

  /** Keeping and dropping split a queue in two. */
  lemma {:induction false} KeepSplits(queue: seq<nat>, accepted: seq<Task>, p: Task -> bool)
    requires Issued(queue, |accepted|)
    ensures multiset(queue) == multiset(Keep(queue, accepted, p)) + multiset(Keep(queue, accepted, Not(p)))
    ensures |Keep(queue, accepted, p)| <= |queue|
  {
    if queue != [] {
      var n := |queue| - 1;
      assert queue == queue[..n] + [queue[n]];
      KeepSplits(queue[..n], accepted, p);
      assert Not(p)(accepted[queue[n]]) == !p(accepted[queue[n]]);
    }
  }

  /** What is kept stays in its old order. */
  lemma {:induction false} KeepAscends(queue: seq<nat>, accepted: seq<Task>, p: Task -> bool)
    requires Issued(queue, |accepted|) && Ascending(queue)
    ensures Ascending(Keep(queue, accepted, p))
  {
    if queue != [] {
      var n := |queue| - 1;
      KeepAscends(queue[..n], accepted, p);
      var kept := Keep(queue[..n], accepted, p);
      forall i | 0 <= i < |kept| ensures kept[i] < queue[n] {
        assert kept[i] in queue[..n];
        var j :| 0 <= j < n && queue[..n][j] == kept[i];
      }
    }
  }

  lemma RemoveKeeps(s: State, o: Settings, p: Task -> bool)
    requires Inv(s, o)
    ensures Inv(AfterRemoval(s, o, p), o) && (Idle(s, o) ==> Idle(AfterRemoval(s, o, p), o))
  {
    hide Keep;
    QueueIssued(s, o);
    KeepSplits(s.queue, s.accepted, p);
    KeepSplits(s.queue, s.accepted, Not(p));
    KeepAscends(s.queue, s.accepted, Not(p));
    var after := AfterRemoval(s, o, p);
    assert Places(after) == Places(s);
  }

  // ----- every run

  datatype Op = Submit(item: Task) | Remove(p: Task -> bool) | Stop | Finish

  /** A task that has finished frees its slot, and the queue moves on. */
  function AfterFinish(s: State, o: Settings): State
    requires Inv(s, o)
  {
    var freed := s.(inFlight := if s.inFlight > 0 then s.inFlight - 1 else 0);
    assert Places(freed) == Places(s);
    Pumped(freed, o)
  }

  function Apply(s: State, o: Settings, op: Op): State
    requires Inv(s, o)
  {
    match op
    case Submit(item) => AfterEnqueue(s, o, item).0
    case Remove(p) => AfterRemoval(s, o, p)
    case Stop => s.(accepting := false)
    case Finish => AfterFinish(s, o)
  }

  function Start(): State {
    State([], 0, true, [], [], [])
  }

  /** One operation keeps the invariant, leaves the queue idle, and only adds to the history. */
  lemma ApplyKeeps(s: State, o: Settings, op: Op)
    requires Inv(s, o) && Idle(s, o)
    ensures
      var r := Apply(s, o, op);
      Inv(r, o) && Idle(r, o) && s.accepted <= r.accepted && s.started <= r.started && s.removed <= r.removed
  {
    hide Pumped, Keep;
    match op
    case Remove(p) => RemoveKeeps(s, o, p);
    case Stop => assert Places(s.(accepting := false)) == Places(s);
    case _ =>
  }

  lemma StartHolds(o: Settings)
    ensures Inv(Start(), o) && Idle(Start(), o)
  {
  }

  function Run(o: Settings, ops: seq<Op>): (r: State)
    ensures Inv(r, o) && Idle(r, o)
  {
    if ops == [] then StartHolds(o); Start() else
      ApplyKeeps(Run(o, ops[..|ops| - 1]), o, ops[|ops| - 1]);
      Apply(Run(o, ops[..|ops| - 1]), o, ops[|ops| - 1])
  }

  /** Tickets below n, each exactly once, are n tickets. */
  lemma {:induction false} CountTickets(m: multiset<nat>, n: nat)
    requires forall t :: t in m ==> t < n
    requires forall t: nat :: t < n ==> m[t] == 1
    ensures |m| == n
  {
    if n == 0 {
      assert m == multiset{};
    } else {
      var rest := m - multiset{n - 1};
      assert rest[n - 1] == 0;
      CountTickets(rest, n - 1);
      assert m == rest + multiset{n - 1};
    }
  }

  /**
   After any sequence of operations, with processors that enqueue more tasks while they are started: the limits hold,
   tasks start in the order they were accepted and before every task still queued, every accepted task is in exactly one
   of queued, started and removed, and either nothing is queued or every slot is busy.
   */
  lemma QueueGuarantees(o: Settings, ops: seq<Op>)
    ensures
      var s := Run(o, ops);
      && s.inFlight <= o.concurrency && |s.queue| <= o.maxQueue
      && Ascending(s.started + s.queue)
      && (forall t: nat :: t < |s.accepted| ==> Places(s)[t] == 1)
      && |s.accepted| == |s.queue| + |s.started| + |s.removed|
      && (s.queue == [] || s.inFlight == o.concurrency)
  {
    hide Run;
    var s := Run(o, ops);
    CountTickets(Places(s), |s.accepted|);
    var all := s.started + s.queue;
    forall i, j | 0 <= i < j < |all| ensures all[i] < all[j] {
      if i < |s.started| <= j {
        assert all[i] in s.started && all[j] in s.queue;
      }
    }
  }

  // ----- what is answered

  predicate Stopped(ops: seq<Op>) {
    exists i :: 0 <= i < |ops| && ops[i].Stop?
  }

  /** Every task accepted between s and r was one of these, or was enqueued by the processor of a task started in between. */
  ghost predicate EnqueuedBetween(s: State, r: State, o: Settings, items: seq<Task>) {
    forall k :: |s.accepted| <= k < |r.accepted| ==> r.accepted[k] in items || FromInside(s, r, o, r.accepted[k])
  }

  ghost predicate FromInside(s: State, r: State, o: Settings, item: Task) {
    exists i :: |s.started| <= i < |r.started| && r.started[i] < |r.accepted| && item in o.calls(r.accepted[r.started[i]])
  }

  /** A task from inside is from inside of anything longer as well. */
  lemma InsideLater(s: State, m: State, r: State, o: Settings, item: Task)
    requires s.accepted <= m.accepted <= r.accepted && s.started <= m.started <= r.started
    ensures FromInside(s, m, o, item) || FromInside(m, r, o, item) ==> FromInside(s, r, o, item)
  {
    if FromInside(s, m, o, item) {
      var i :| |s.started| <= i < |m.started| && m.started[i] < |m.accepted| && item in o.calls(m.accepted[m.started[i]]);
      assert r.started[i] == m.started[i] && r.accepted[r.started[i]] == m.accepted[m.started[i]];
    }
  }

  lemma Between(s: State, m: State, r: State, o: Settings, first: seq<Task>, more: seq<Task>)
    requires s.accepted <= m.accepted <= r.accepted && s.started <= m.started <= r.started
    requires EnqueuedBetween(s, m, o, first) && EnqueuedBetween(m, r, o, more)
    ensures EnqueuedBetween(s, r, o, first + more)
  {
    hide FromInside;
    forall k | |s.accepted| <= k < |r.accepted| ensures r.accepted[k] in first + more || FromInside(s, r, o, r.accepted[k]) {
      InsideLater(s, m, r, o, r.accepted[k]);
      if k < |m.accepted| {
        assert r.accepted[k] == m.accepted[k];
      }
    }
  }

  lemma {:induction false} PumpedBetween(s: State, o: Settings)
    requires Inv(s, o)
    ensures EnqueuedBetween(s, Pumped(s, o), o, [])
    decreases o.concurrency - s.inFlight, 0
  {
    hide EnqueuedBetween, Pumped, Places;
    PumpedOnce(s, o);
    if s.inFlight < o.concurrency && s.queue != [] {
      StartKeeps(s, o);
      FirstIsAccepted(s, o);
      var first := s.queue[0];
      var started := StartFirst(s);
      var calls := o.calls(s.accepted[first]);
      var m := AfterEnqueueAll(started, o, calls);
      AllBetween(started, o, calls);
      PumpedBetween(m, o);
      Between(started, m, Pumped(m, o), o, calls, []);
      assert calls + [] == calls;
      CallsAreInside(s, started, Pumped(m, o), o, first);
    } else {
      NothingBetween(s, o);
    }
  }

  lemma NothingBetween(s: State, o: Settings)
    ensures EnqueuedBetween(s, s, o, [])
  {
  }

  lemma FirstIsAccepted(s: State, o: Settings)
    requires Inv(s, o) && s.queue != []
    ensures s.queue[0] < |s.accepted|
  {
    assert s.queue[0] in Places(s);
  }

  lemma PumpedOnce(s: State, o: Settings)
    requires Inv(s, o)
    ensures Pumped(s, o) ==
              if s.inFlight < o.concurrency && s.queue != [] then
                StartKeeps(s, o);
                FirstIsAccepted(s, o);
                Pumped(AfterEnqueueAll(StartFirst(s), o, o.calls(s.accepted[s.queue[0]])), o)
              else s
  {
    hide Inv, Places, AfterEnqueueAll;
  }

  /** What the processor of the task started first enqueues is from inside. */
  lemma CallsAreInside(s: State, started: State, r: State, o: Settings, first: nat)
    requires first < |s.accepted| && started.accepted == s.accepted && started.started == s.started + [first]
    requires started.accepted <= r.accepted && started.started <= r.started
    requires EnqueuedBetween(started, r, o, o.calls(s.accepted[first]))
    ensures EnqueuedBetween(s, r, o, [])
  {
    var i := |s.started|;
    assert r.started[i] == first && r.accepted[first] == s.accepted[first];
    forall k | |s.accepted| <= k < |r.accepted| ensures FromInside(s, r, o, r.accepted[k]) {
      InsideLater(s, started, r, o, r.accepted[k]);
    }
  }

  lemma {:induction false} OneBetween(s: State, o: Settings, item: Task)
    requires Inv(s, o)
    ensures EnqueuedBetween(s, AfterEnqueue(s, o, item).0, o, [item])
    decreases o.concurrency - s.inFlight, 1
  {
    hide EnqueuedBetween, Pumped, Places, Inv;
    if s.accepting && |s.queue| < o.maxQueue {
      AcceptKeeps(s, o, item);
      var m := Accept(s, item);
      PumpedBetween(m, o);
      assert EnqueuedBetween(s, m, o, [item]) by { AcceptedIsOne(s, o, item); }
      Between(s, m, Pumped(m, o), o, [item], []);
      assert [item] + [] == [item];
    } else {
      RefusedIsNone(s, o, item);
    }
  }

  lemma AcceptedIsOne(s: State, o: Settings, item: Task)
    ensures EnqueuedBetween(s, Accept(s, item), o, [item])
  {
  }

  lemma RefusedIsNone(s: State, o: Settings, item: Task)
    ensures EnqueuedBetween(s, s, o, [item])
  {
  }

  lemma SlotsBounded(s: State, o: Settings)
    requires Inv(s, o)
    ensures s.inFlight <= o.concurrency
  {
  }

  lemma {:induction false} AllBetween(s: State, o: Settings, items: seq<Task>)
    requires Inv(s, o)
    ensures EnqueuedBetween(s, AfterEnqueueAll(s, o, items), o, items)
    decreases o.concurrency - s.inFlight, 2 + |items|
  {
    hide EnqueuedBetween, AfterEnqueue, Inv;
    if items == [] {
      NothingBetween(s, o);
    } else {
      var m := AfterEnqueue(s, o, items[0]).0;
      OneBetween(s, o, items[0]);
      SlotsBounded(m, o);
      AllBetween(m, o, items[1..]);
      Between(s, m, AfterEnqueueAll(s, o, items), o, [items[0]], items[1..]);
      assert [items[0]] + items[1..] == items;
    }
  }

  lemma {:induction false} AcceptsUntilStopped(o: Settings, ops: seq<Op>)
    ensures Run(o, ops).accepting <==> !Stopped(ops)
  {
    hide Inv, Pumped, Keep;
    if ops != [] {
      var n := |ops| - 1;
      AcceptsUntilStopped(o, ops[..n]);
      assert Stopped(ops) <==> Stopped(ops[..n]) || ops[n].Stop? by {
        assert forall i :: 0 <= i < n ==> ops[..n][i] == ops[i];
      }
    }
  }

  /**
   What a task is answered, after any operations. It is refused as closed if and only if the queue has been stopped, as
   full if and only if it has not and holds as many as it may; then nothing changes. Otherwise it is the next task accepted,
   and what is accepted after it in the same call was enqueued by the processors started in the call.
   */
  lemma SubmitAnswers(o: Settings, ops: seq<Op>, item: Task)
    ensures
      var s := Run(o, ops);
      var (r, answer) := AfterEnqueue(s, o, item);
      && (answer == QueueClosed <==> Stopped(ops))
      && (answer == QueueFull <==> !Stopped(ops) && |s.queue| == o.maxQueue)
      && (answer != Queued ==> r == s)
      && (answer == Queued ==>
            && s.accepted + [item] <= r.accepted
            && EnqueuedBetween(Accept(s, item), r, o, []))
  {
    hide Run, Pumped, Places, EnqueuedBetween;
    var s := Run(o, ops);
    AcceptsUntilStopped(o, ops);
    if s.accepting && |s.queue| < o.maxQueue {
      AcceptKeeps(s, o, item);
      PumpedBetween(Accept(s, item), o);
    }
  }

  // ----- slots

  /** What an operation frees: a finished task's slot. */
  function Freed(s: State, op: Op): nat {
    if op.Finish? && s.inFlight > 0 then 1 else 0
  }

  lemma {:induction false} PumpTakesSlots(s: State, o: Settings)
    requires Inv(s, o)
    ensures var r := Pumped(s, o); r.inFlight - s.inFlight == |r.started| - |s.started|
    decreases o.concurrency - s.inFlight, 0
  {
    hide Pumped, Places;
    PumpedOnce(s, o);
    if s.inFlight < o.concurrency && s.queue != [] {
      StartKeeps(s, o);
      FirstIsAccepted(s, o);
      var m := AfterEnqueueAll(StartFirst(s), o, o.calls(s.accepted[s.queue[0]]));
      AllTakeSlots(StartFirst(s), o, o.calls(s.accepted[s.queue[0]]));
      PumpTakesSlots(m, o);
    }
  }

  lemma {:induction false} OneTakesSlots(s: State, o: Settings, item: Task)
    requires Inv(s, o)
    ensures var r := AfterEnqueue(s, o, item).0; r.inFlight - s.inFlight == |r.started| - |s.started|
    decreases o.concurrency - s.inFlight, 1
  {
    hide Pumped, Places, Inv;
    if s.accepting && |s.queue| < o.maxQueue {
      AcceptKeeps(s, o, item);
      PumpTakesSlots(Accept(s, item), o);
    }
  }

  lemma {:induction false} AllTakeSlots(s: State, o: Settings, items: seq<Task>)
    requires Inv(s, o)
    ensures var r := AfterEnqueueAll(s, o, items); r.inFlight - s.inFlight == |r.started| - |s.started|
    decreases o.concurrency - s.inFlight, 2 + |items|
  {
    hide AfterEnqueue, Inv;
    if items != [] {
      OneTakesSlots(s, o, items[0]);
      SlotsBounded(AfterEnqueue(s, o, items[0]).0, o);
      AllTakeSlots(AfterEnqueue(s, o, items[0]).0, o, items[1..]);
    }
  }

  function FreedIn(o: Settings, ops: seq<Op>): nat {
    if ops == [] then 0 else FreedIn(o, ops[..|ops| - 1]) + Freed(Run(o, ops[..|ops| - 1]), ops[|ops| - 1])
  }

  /** After any operations the tasks in flight are those started less those that have finished. */
  lemma {:induction false} SlotsAreCounted(o: Settings, ops: seq<Op>)
    ensures var s := Run(o, ops); s.inFlight + FreedIn(o, ops) == |s.started|
  {
    hide Inv, Pumped, Keep, Places, AfterEnqueue;
    if ops != [] {
      var n := |ops| - 1;
      var s, op := Run(o, ops[..n]), ops[n];
      SlotsAreCounted(o, ops[..n]);
      match op
      case Submit(item) => OneTakesSlots(s, o, item);
      case Finish =>
        var freed := s.(inFlight := if s.inFlight > 0 then s.inFlight - 1 else 0);
        FreedKeeps(s, freed, o);
        PumpTakesSlots(freed, o);
      case _ =>
    }
  }

  lemma FreedKeeps(s: State, freed: State, o: Settings)
    requires Inv(s, o) && freed == s.(inFlight := freed.inFlight) && freed.inFlight <= s.inFlight
    ensures Inv(freed, o)
  {
    assert Places(freed) == Places(s);
  }

  // ----- removal

  lemma {:induction false} KeepIs(queue: seq<nat>, accepted: seq<Task>, p: Task -> bool)
    requires Issued(queue, |accepted|)
    ensures forall t :: t in Keep(queue, accepted, p) <==> t in queue && t < |accepted| && p(accepted[t])
  {
    if queue != [] {
      var n := |queue| - 1;
      KeepIs(queue[..n], accepted, p);
      assert queue == queue[..n] + [queue[n]];
    }
  }

  /** Removing takes exactly the queued tasks that the predicate selects, in queue order, and leaves the others in theirs. */
  lemma RemovalSelects(o: Settings, ops: seq<Op>, p: Task -> bool)
    ensures
      var s := Run(o, ops);
      var r := AfterRemoval(s, o, p);
      && r == s.(queue := r.queue, removed := r.removed)
      && s.removed <= r.removed && Ascending(r.queue) && Ascending(r.removed[|s.removed|..])
      && (forall t :: t in r.queue <==> t in s.queue && t < |s.accepted| && !p(s.accepted[t]))
      && (forall t :: t in r.removed[|s.removed|..] <==> t in s.queue && t < |s.accepted| && p(s.accepted[t]))
  {
    hide Run, Keep;
    var s := Run(o, ops);
    QueueIssued(s, o);
    KeepIs(s.queue, s.accepted, p);
    KeepIs(s.queue, s.accepted, Not(p));
    KeepAscends(s.queue, s.accepted, p);
    KeepAscends(s.queue, s.accepted, Not(p));
    assert AfterRemoval(s, o, p).removed[|s.removed|..] == Keep(s.queue, s.accepted, p);
  }

  // ----- the queue object

  /** The tasks behind tickets. */
  function TasksOf(tickets: seq<nat>, accepted: seq<Task>): seq<Task>
    requires Issued(tickets, |accepted|)
  {
    seq(|tickets|, i requires 0 <= i < |tickets| => accepted[tickets[i]])
  }

  lemma AcceptedTasks(tickets: seq<nat>, accepted: seq<Task>, item: Task)
    requires Issued(tickets, |accepted|)
    ensures Issued(tickets + [|accepted|], |accepted + [item]|)
    ensures TasksOf(tickets + [|accepted|], accepted + [item]) == TasksOf(tickets, accepted) + [item]
    ensures |TasksOf(tickets, accepted)| == |tickets|
  {
  }

  lemma StartedTasks(tickets: seq<nat>, accepted: seq<Task>)
    requires Issued(tickets, |accepted|)
    ensures |TasksOf(tickets, accepted)| == |tickets|
    ensures tickets != [] ==>
              && Issued(tickets[1..], |accepted|)
              && tickets[0] < |accepted|
              && TasksOf(tickets, accepted)[0] == accepted[tickets[0]]
              && TasksOf(tickets[1..], accepted) == TasksOf(tickets, accepted)[1..]
  {
  }

  function Reversed(s: seq<Task>): seq<Task> {
    seq(|s|, i requires 0 <= i < |s| => s[|s| - 1 - i])
  }

  class InMemoryTaskQueue {
    const settings: Settings
    var queue: seq<Task>
    var inFlight: nat
    var accepting: bool
    ghost var tickets: seq<nat>
    ghost var accepted: seq<Task>
    ghost var started: seq<nat>
    ghost var removed: seq<nat>

    ghost function Seen(): State
      reads this
    {
      State(tickets, inFlight, accepting, accepted, started, removed)
    }

    ghost predicate Valid()
      reads this
    {
      Inv(Seen(), settings) && Issued(tickets, |accepted|) && queue == TasksOf(tickets, accepted)
    }

    constructor (concurrency: nat, maxQueue: nat, calls: Task -> seq<Task>)
      ensures Valid() && Seen() == Start()
      ensures settings == Settings(if concurrency < 1 then 1 else concurrency, if maxQueue < 1 then 1 else maxQueue, calls)
    {
      settings := Settings(if concurrency < 1 then 1 else concurrency, if maxQueue < 1 then 1 else maxQueue, calls);
      queue, inFlight, accepting := [], 0, true;
      tickets, accepted, started, removed := [], [], [], [];
    }

    method Enqueue(item: Task) returns (result: EnqueueResult)
      requires Valid()
      modifies this
      ensures Valid() && (Seen(), result) == AfterEnqueue(old(Seen()), settings, item)
      decreases settings.concurrency - inFlight, 1
    {
      hide Inv, TasksOf, Issued;
      StartedTasks(tickets, accepted);
      if !accepting {
        return QueueClosed;
      }
      if |queue| >= settings.maxQueue {
        return QueueFull;
      }
      AcceptKeeps(Seen(), settings, item);
      AcceptedTasks(tickets, accepted, item);
      queue := queue + [item];
      tickets, accepted := tickets + [|accepted|], accepted + [item];
      Pump();
      return Queued;
    }

    method Pump()
      requires Valid()
      modifies this
      ensures Valid() && Seen() == Pumped(old(Seen()), settings)
      decreases settings.concurrency - inFlight, 0
    {
      hide Inv, TasksOf, Issued, AfterEnqueueAll;
      StartedTasks(tickets, accepted);
      ghost var before := Seen();
      while inFlight < settings.concurrency && queue != []
        invariant Valid() && old(inFlight) <= inFlight && |queue| == |tickets|
        invariant Pumped(Seen(), settings) == Pumped(before, settings)
        decreases settings.concurrency - inFlight
      {
        StartKeeps(Seen(), settings);
        StartedTasks(tickets, accepted);
        var next := queue[0];
        ghost var now := Seen();
        queue := queue[1..];
        inFlight := inFlight + 1;
        started, tickets := started + [tickets[0]], tickets[1..];
        assert Seen() == StartFirst(now);
        EnqueueEach(settings.calls(next));
        StartedTasks(tickets, accepted);
      }
    }

    /** What a processor does before it first waits: it enqueues tasks, and goes on when one is refused. */
    method EnqueueEach(items: seq<Task>)
      requires Valid()
      modifies this
      ensures Valid() && Seen() == AfterEnqueueAll(old(Seen()), settings, items)
      decreases settings.concurrency - inFlight, 2 + |items|
    {
      if items != [] {
        var result := Enqueue(items[0]);
        EnqueueEach(items[1..]);
      }
    }

    /** A task has finished. */
    method OnFinished()
      requires Valid()
      modifies this
      ensures Valid() && Seen() == AfterFinish(old(Seen()), settings)
    {
      ghost var before := Seen();
      inFlight := if inFlight > 0 then inFlight - 1 else 0;
      assert Places(Seen()) == Places(before);
      Pump();
    }

    method StopAccepting()
      requires Valid()
      modifies this`accepting
      ensures Valid() && Seen() == Apply(old(Seen()), settings, Stop)
    {
      ghost var before := Seen();
      accepting := false;
      assert Places(Seen()) == Places(before);
    }

    /** Walks the queue backwards, taking out what the predicate selects, and returns it in queue order. */
    method RemoveQueued(p: Task -> bool) returns (taken: seq<Task>)
      requires Valid()
      modifies this
      ensures Valid() && Seen() == AfterRemoval(old(Seen()), settings, p)
      ensures Issued(Keep(old(tickets), accepted, p), |accepted|) && taken == TasksOf(Keep(old(tickets), accepted, p), accepted)
    {
      hide Inv, TasksOf, Issued, Keep, Reversed, Places;
      ghost var before, all, left := Seen(), tickets, tickets;
      ghost var takenTickets: seq<nat> := [];
      StartedTasks(tickets, accepted);
      NothingTaken(all, accepted, p);
      taken := [];
      var index := |queue|;
      while index > 0
        invariant 0 <= index <= |all| && |queue| == |left|
        invariant Walked(left, all, index, accepted, p, takenTickets)
        invariant queue == TasksOf(left, accepted) && taken == Reversed(TasksOf(takenTickets, accepted))
        invariant Seen() == before
      {
        index := index - 1;
        WalkStep(left, all, index, accepted, p, takenTickets);
        var item := queue[index];
        if p(item) {
          taken := taken + [item];
          takenTickets := [left[index]] + takenTickets;
          queue := queue[..index] + queue[index + 1..];
          left := left[..index] + left[index + 1..];
        }
      }
      taken := Reversed(taken);
      WalkDone(left, all, accepted, p, takenTickets);
      RemoveKeeps(before, settings, p);
      tickets, removed := left, removed + takenTickets;
    }
  }

  /** The tail of the queue from index on has been walked: what stays and what is taken of it, each in queue order. */
  ghost predicate Walked(left: seq<nat>, all: seq<nat>, index: nat, accepted: seq<Task>, p: Task -> bool, taken: seq<nat>) {
    && index <= |all| && index <= |left|
    && Issued(all, |accepted|) && Issued(left, |accepted|) && Issued(taken, |accepted|)
    && left[..index] == all[..index]
    && left[index..] == Keep(all[index..], accepted, Not(p))
    && taken == Keep(all[index..], accepted, p)
  }

  lemma NothingTaken(all: seq<nat>, accepted: seq<Task>, p: Task -> bool)
    requires Issued(all, |accepted|)
    ensures Walked(all, all, |all|, accepted, p, []) && Reversed(TasksOf([], accepted)) == []
  {
  }

  lemma WalkStep(left: seq<nat>, all: seq<nat>, index: nat, accepted: seq<Task>, p: Task -> bool, taken: seq<nat>)
    requires index < |all| && Walked(left, all, index + 1, accepted, p, taken)
    ensures
      var item, tasks := accepted[all[index]], TasksOf(left, accepted);
      var shorter, longer := left[..index] + left[index + 1..], [left[index]] + taken;
      && |tasks| == |left| && tasks[index] == item
      && (if p(item) then
            && Walked(shorter, all, index, accepted, p, longer)
            && TasksOf(shorter, accepted) == tasks[..index] + tasks[index + 1..]
            && Reversed(TasksOf(longer, accepted)) == Reversed(TasksOf(taken, accepted)) + [item]
          else Walked(left, all, index, accepted, p, taken))
  {
    hide Keep;
    assert all[index..][1..] == all[index + 1..] && left[index] == left[..index + 1][index] == all[index];
    KeepFromFront(all[index..], accepted, p);
    KeepFromFront(all[index..], accepted, Not(p));
    assert left[index..] == [left[index]] + left[index + 1..];
  }

  lemma WalkDone(left: seq<nat>, all: seq<nat>, accepted: seq<Task>, p: Task -> bool, taken: seq<nat>)
    requires Walked(left, all, 0, accepted, p, taken)
    ensures left == Keep(all, accepted, Not(p)) && taken == Keep(all, accepted, p)
    ensures Reversed(Reversed(TasksOf(taken, accepted))) == TasksOf(taken, accepted)
    ensures Issued(left, |accepted|)
  {
    hide Keep;
    assert all[0..] == all && left[0..] == left;
  }

  lemma {:induction false} KeepFromFront(queue: seq<nat>, accepted: seq<Task>, p: Task -> bool)
    requires Issued(queue, |accepted|) && queue != []
    ensures Issued(queue[1..], |accepted|)
    ensures Keep(queue, accepted, p) == (if p(accepted[queue[0]]) then [queue[0]] else []) + Keep(queue[1..], accepted, p)
  {
    var n := |queue| - 1;
    if n > 0 {
      KeepFromFront(queue[..n], accepted, p);
      assert queue[..n][1..] == queue[1..][..n - 1];
    }
  }
}
