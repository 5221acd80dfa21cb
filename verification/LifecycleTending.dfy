/** When a connected relay is left with pending events that nothing is going to drain: exactly when it happens. */
module LifecycleTending {
  import opened Options
  import opened LifecycleContract
  import opened OpenClawAdapter
  import opened TransitionEncoder
  import opened Reconciliation
  import opened LifecycleOutbox
  import opened LifecyclePipeline
  import opened LifecycleProtocol
  import opened LifecycleOrder
  import opened LifecycleSuccession
  import opened LifecycleConservation
  import opened LifecycleRefinement
  import opened LifecycleRetry

  /** A connected relay with pending events has a retry armed or an activation queued. */
  predicate Tended(w: World) {
    w.connected && w.core.pending != [] ==> WillActivate(w)
  }

  // ----- what the log shows of a turn

  predicate IsExchange(a: Action) {
    a.Submitted? || a.Removed? || a.Quarantined?
  }

  predicate AllExchange(log: seq<Action>) {
    forall i :: 0 <= i < |log| ==> IsExchange(log[i])
  }

  predicate NoDrainEnded(log: seq<Action>) {
    forall i :: 0 <= i < |log| ==> !log[i].DrainEnded?
  }

  /**
   A drain that ended so, after this log, was the first thing done once a generation had been registered, and it either
   left nothing, or reported a gap, or was of a generation that had just been opened.
   */
  predicate FollowsRegistration(log: seq<Action>, pending: nat, gap: bool) {
    if log == [] then false
    else
      var n := |log| - 1;
      if IsExchange(log[n]) then FollowsRegistration(log[..n], pending, gap)
      else log[n].Registered? && (gap || pending == 0 || (n > 0 && log[n - 1].Opened?))
  }

  /**
   The last drain that a log shows is such a one. The relay then takes itself to have converged, and leaves it to a
   reconciliation to drain again; the log shows that none did.
   */
  predicate EndsUnreconciled(log: seq<Action>) {
    if log == [] then false
    else
      var n := |log| - 1;
      if log[n].DrainEnded? then FollowsRegistration(log[..n], log[n].pending, log[n].gap)
      else EndsUnreconciled(log[..n])
  }

  lemma {:induction false} ExchangesAreSkipped(log: seq<Action>, x: seq<Action>, pending: nat, gap: bool)
    requires AllExchange(x)
    ensures FollowsRegistration(log + x, pending, gap) == FollowsRegistration(log, pending, gap)
  {
    if x == [] {
      assert log + x == log;
    } else {
      var n := |x| - 1;
      ExchangesAreSkipped(log, x[..n], pending, gap);
      assert (log + x)[..|log + x| - 1] == log + x[..n];
    }
  }

  lemma {:induction false} WithoutDrains(log: seq<Action>, x: seq<Action>)
    requires NoDrainEnded(x)
    ensures EndsUnreconciled(log + x) == EndsUnreconciled(log)
  {
    hide FollowsRegistration;
    if x == [] {
      assert log + x == log;
    } else {
      var n := |x| - 1;
      WithoutDrains(log, x[..n]);
      assert (log + x)[..|log + x| - 1] == log + x[..n];
    }
  }

  /** A log that ends in a drain of some exchanges. */
  lemma EndsInDrain(log: seq<Action>, x: seq<Action>, pending: nat, gap: bool)
    requires AllExchange(x)
    ensures EndsUnreconciled(log + x + [DrainEnded(pending, gap)]) == FollowsRegistration(log, pending, gap)
  {
    hide FollowsRegistration;
    var all := log + x + [DrainEnded(pending, gap)];
    assert all[..|all| - 1] == log + x;
    ExchangesAreSkipped(log, x, pending, gap);
  }

  lemma NotRegistered(log: seq<Action>, pending: nat, gap: bool)
    requires log == [] || (!log[|log| - 1].Registered? && !IsExchange(log[|log| - 1]))
    ensures !FollowsRegistration(log, pending, gap)
  {
  }

  // ----- drains

  lemma SubmitLog(w: World, env: Env, e: Entry)
    ensures
      var (after, answer) := Submit(w, env, e);
      after.core.log == w.core.log + [Submitted(e, answer)] && after.core.current == w.core.current
  {
  }

  /** An entry that leaves, or fails to, shows in the log as at most one exchange. */
  lemma LeaveLog(w: World, env: Env, e: Entry) returns (removed: seq<Action>, moved: seq<Action>)
    ensures AllExchange(removed) && Acknowledge(w, env, e).0.core.log == w.core.log + removed
    ensures AllExchange(moved) && Quarantine(w, env, e).0.core.log == w.core.log + moved
    ensures Acknowledge(w, env, e).0.core.current == Quarantine(w, env, e).0.core.current == w.core.current
  {
    hide RemoveName;
    var failed := Reply(w, env).file.FailedBefore?;
    removed := if failed then [] else [Removed(e)];
    moved := if failed then [] else [Action.Quarantined(e)];
    assert w.core.log + [] == w.core.log;
  }

  predicate LogsDrain(before: seq<Action>, after: World, result: DrainResult, x: seq<Action>) {
    && AllExchange(x)
    && after.core.log == before + x + (if result.Drained? then [DrainEnded(result.pending, result.gap)] else [])
    && (result.Drained? ==> result.pending == |after.core.pending|)
  }

  lemma Joined(log: seq<Action>, x: seq<Action>, y: seq<Action>, after: World, result: DrainResult)
    requires AllExchange(x) && LogsDrain(log + x, after, result, y)
    ensures LogsDrain(log, after, result, x + y)
  {
    assert log + x + y == log + (x + y);
  }

  lemma EndsThere(w: World, acknowledged: nat, blocked: bool, gap: bool)
    ensures var (after, result) := EndDrain(w, acknowledged, blocked, gap);
            LogsDrain(w.core.log, after, result, []) && after.core.current == w.core.current
  {
    assert w.core.log + [] == w.core.log;
  }

  lemma {:induction false} DrainLoopLog(w: World, env: Env, entries: seq<Entry>, acknowledged: nat) returns (x: seq<Action>)
    ensures
      var (after, result) := DrainLoop(w, env, entries, acknowledged);
      LogsDrain(w.core.log, after, result, x) && after.core.current == w.core.current
    decreases |entries|
  {
    hide Submit, Acknowledge, Quarantine, EndDrain, LogsDrain, Permanent;
    if entries == [] {
      EndsThere(w, acknowledged, false, false);
      x := [];
    } else {
      var (submitted, answer) := Submit(w, env, entries[0]);
      SubmitLog(w, env, entries[0]);
      var removed, moved := LeaveLog(submitted, env, entries[0]);
      var y := [];
      if answer.Accepted? {
        var (after, threw) := Acknowledge(submitted, env, entries[0]);
        if threw {
          EndsThere(after, acknowledged, true, false);
        } else {
          y := DrainLoopLog(after, env, entries[1..], acknowledged + 1);
        }
        Joined(submitted.core.log, removed, y, DrainLoop(w, env, entries, acknowledged).0, DrainLoop(w, env, entries, acknowledged).1);
        y := removed + y;
      } else if Permanent(answer) {
        var (after, threw) := Quarantine(submitted, env, entries[0]);
        if threw {
          ThrewThere(after);
        } else {
          EndsThere(after, acknowledged, true, ReportsGap(answer));
        }
        Joined(submitted.core.log, moved, y, DrainLoop(w, env, entries, acknowledged).0, DrainLoop(w, env, entries, acknowledged).1);
        y := moved + y;
      } else {
        EndsThere(submitted, acknowledged, true, ReportsGap(answer));
      }
      Joined(w.core.log, [Submitted(entries[0], answer)], y, DrainLoop(w, env, entries, acknowledged).0, DrainLoop(w, env, entries, acknowledged).1);
      x := [Submitted(entries[0], answer)] + y;
    }
  }

  lemma ThrewThere(w: World)
    ensures LogsDrain(w.core.log, w, DrainThrew, [])
  {
    assert w.core.log + [] + [] == w.core.log;
  }

  lemma DrainLog(w: World, env: Env) returns (x: seq<Action>)
    ensures
      var (after, result) := Drain(w, env);
      LogsDrain(w.core.log, after, result, x) && after.core.current == w.core.current && after.timer == w.timer
  {
    hide DrainLoop;
    x := DrainLoopLog(w, env, w.core.pending, 0);
    DrainChain(w, env);
  }

  /** Storing an event shows in the log as at most one entry, and without one leaves the outbox as it was. */
  lemma EnqueueLog(w: World, env: Env, event: Event) returns (x: seq<Action>)
    ensures
      var (after, threw) := Enqueue(w, env, event);
      && (x == [] || (|x| == 1 && x[0].Stored?)) && after.core.log == w.core.log + x
      && after.core.current == w.core.current && after.timer == w.timer && after.core.encoder == w.core.encoder
      && (!threw && x == [] ==> after == w && Existing(w.core.pending, event).Some? && Existing(w.core.pending, event).value.event == event)
  {
    hide Insert, FileName, Existing;
    var after := Enqueue(w, env, event).0;
    x := if |after.core.log| > |w.core.log| then [Stored(MakeEntry(env.digest, w.core.clock, event))] else [];
    assert w.core.log + [] == w.core.log;
  }

  predicate AllStored(log: seq<Action>) {
    forall i :: 0 <= i < |log| ==> log[i].Stored?
  }

  lemma {:induction false} ApplyCorrectionsLog(w: World, env: Env, s: SourceState, cs: seq<Correction>) returns (x: seq<Action>)
    ensures
      var after := ApplyCorrections(w, env, s, cs).0;
      && AllStored(x) && after.core.log == w.core.log + x && after.core.current == w.core.current && after.timer == w.timer
    decreases |cs|
  {
    hide Correct, Enqueue;
    x := [];
    assert w.core.log + [] == w.core.log;
    if cs != [] {
      var (e, outcome) := Correct(w.core.encoder, s.serverId, s.generation, cs[0], w.core.clock);
      var encoded := SetEncoder(w, e);
      if outcome.Emitted? {
        var y := EnqueueLog(encoded, env, outcome.event);
        var stored := Enqueue(encoded, env, outcome.event).0;
        var rest := ApplyCorrectionsLog(stored, env, s, cs[1..]);
        x := if Enqueue(encoded, env, outcome.event).1 then y else y + rest;
        assert w.core.log + y + rest == w.core.log + (y + rest);
      } else if outcome.Silent? {
        x := ApplyCorrectionsLog(encoded, env, s, cs[1..]);
      }
    }
  }

  /** What an operation has done to the log, and to the retry: what is left pending is unattended just when the log says so. */
  predicate Shows(before: seq<Action>, w: World, after: World, x: seq<Action>) {
    && after.core.log == w.core.log + x
    && (after.core.pending != [] ==> (after.timer.None? <==> EndsUnreconciled(before + x)))
  }

  /** Reconciling after a drain with which the relay converged. */
  lemma ReconcileShows(w: World, env: Env, checkpoint: seq<ActiveRunInfo>, before: seq<Action>) returns (x: seq<Action>)
    requires w.timer.None? && w.core.current.Some?
    requires before != [] && before[|before| - 1].DrainEnded? && EndsUnreconciled(before)
    ensures Shows(before, w, Reconcile(w, env, checkpoint), x) && !HasOpened(x)
    ensures Reconcile(w, env, checkpoint).core.current == w.core.current
  {
    hide ApplyCorrections, Drain, Plan, FollowsRegistration, EndsUnreconciled;
    x := [];
    assert w.core.log + [] == w.core.log && before + [] == before;
    var s := w.core.current.value;
    if env.canQuery && Reply(w, env).runs.Some? {
      var queried := Called(w, env);
      var cs := Plan(checkpoint, Reply(w, env).runs.value);
      var stored := ApplyCorrectionsLog(queried, env, s, cs);
      var (applied, threw) := ApplyCorrections(queried, env, s, cs);
      WithoutDrains(before, stored);
      x := stored;
      if !threw {
        var exchanges := DrainLog(applied, env);
        var result := Drain(applied, env).1;
        assert w.core.log + stored + exchanges == w.core.log + (stored + exchanges);
        if result.Drained? {
          x := stored + exchanges + [DrainEnded(result.pending, result.gap)];
          EndsInDrain(before + stored, exchanges, result.pending, result.gap);
          NotRegistered(before + stored, result.pending, result.gap);
          assert before + x == before + stored + exchanges + [DrainEnded(result.pending, result.gap)];
          assert w.core.log + x == w.core.log + (stored + exchanges) + [DrainEnded(result.pending, result.gap)];
        } else {
          x := stored + exchanges;
          WithoutDrains(before, x);
          assert w.core.log + (stored + exchanges) + [] == w.core.log + x;
        }
      }
    }
  }

  // ----- activations

  lemma RegisterLog(w: World, env: Env) returns (x: seq<Action>)
    requires w.core.current.Some?
    ensures
      var (after, response) := RegisterCurrent(w, env);
      && (x == [] || x == [Registered(w.core.current.value.generation)]) && (response.Some? ==> x != [])
      && after.core.log == w.core.log + x && after.timer == w.timer && after.core.pending == w.core.pending
      && after.core.encoder == w.core.encoder && after.core.current.Some?
      && after.core.current.value.generation == w.core.current.value.generation
      && (after.core.current.value.registered <==> x != [] || w.core.current.value.registered)
  {
    var s, a := w.core.current.value, Reply(w, env).register;
    x := if a.Refused? || a.serverId != s.serverId then [] else [Registered(s.generation)];
    assert w.core.log + [] == w.core.log;
  }

  predicate HasOpened(log: seq<Action>) {
    exists i :: 0 <= i < |log| && log[i].Opened?
  }

  /** The generation has been drawn as a new id. */
  ghost predicate Drawn(env: Env, generation: string) {
    exists k: nat :: env.ids(k) == generation
  }

  /** How an activation ends. */
  ghost predicate Ends(before: seq<Action>, w: World, env: Env, r: (World, bool), x: seq<Action>) {
    && r.0.core.log == w.core.log + x
    && (r.1 ==> r.0.timer == w.timer)
    && (!r.1 ==> Shows(before, w, r.0, x))
    && (!r.1 && r.0.core.current.Some? && !r.0.core.current.value.registered ==> !EndsUnreconciled(before + x))
    && (!r.1 && HasOpened(x) && r.0.core.current.Some? ==> Drawn(env, r.0.core.current.value.generation))
  }

  /** What has been done so far, before the rest of an activation. */
  lemma EndsLater(before: seq<Action>, x: seq<Action>, y: seq<Action>, v: World, w: World, env: Env, r: (World, bool))
    requires w.core.log == v.core.log + x && (r.1 ==> w.timer == v.timer) && Ends(before + x, w, env, r, y)
    requires !r.1 && HasOpened(x) && r.0.core.current.Some? ==> Drawn(env, r.0.core.current.value.generation)
    ensures Ends(before, v, env, r, x + y)
  {
    hide EndsUnreconciled, Drawn;
    assert before + (x + y) == before + x + y && v.core.log + (x + y) == v.core.log + x + y;
    if HasOpened(x + y) && !HasOpened(x) {
      var i :| 0 <= i < |x + y| && (x + y)[i].Opened?;
      assert y[i - |x|].Opened?;
    }
  }

  /** Nothing more happens but that a retry is armed. */
  lemma ArmedEnds(before: seq<Action>, w: World, env: Env, trigger: Trigger)
    requires !EndsUnreconciled(before)
    ensures Ends(before, w, env, (ScheduleRetry(w, trigger), false), [])
  {
    assert before + [] == before && w.core.log + [] == w.core.log;
  }

  lemma ThrowEnds(before: seq<Action>, w: World, env: Env)
    ensures Ends(before, w, env, (w, true), [])
  {
    assert before + [] == before && w.core.log + [] == w.core.log;
  }

  /** The relay takes itself to have converged and reconciles. */
  lemma ConvergedEnds(before: seq<Action>, w: World, env: Env, checkpoint: seq<ActiveRunInfo>) returns (x: seq<Action>)
    requires w.core.current.Some? && w.core.current.value.registered
    requires before != [] && before[|before| - 1].DrainEnded? && EndsUnreconciled(before)
    ensures Ends(before, w, env, (Reconcile(MarkConverged(w), env, checkpoint), false), x)
    ensures !HasOpened(x)
  {
    hide Reconcile, EndsUnreconciled;
    x := ReconcileShows(MarkConverged(w), env, checkpoint, before);
  }

  /** A drain has ended that follows a registration. */
  lemma DrainedAfterRegistration(before: seq<Action>, x: seq<Action>, g: string, pending: nat, gap: bool)
    requires AllExchange(x) && (gap || pending == 0 || (before != [] && before[|before| - 1].Opened?))
    ensures EndsUnreconciled(before + [Registered(g)] + x + [DrainEnded(pending, gap)])
  {
    hide EndsUnreconciled;
    EndsInDrain(before + [Registered(g)], x, pending, gap);
    var log := before + [Registered(g)];
    assert log[|log| - 1] == Registered(g) && |log| - 1 == |before|;
    assert before != [] ==> log[|before| - 1] == before[|before| - 1];
  }

  /** From a drain to the end of the activation, once the generation has been registered. */
  lemma DrainAndConverge(before: seq<Action>, w: World, env: Env, checkpoint: seq<ActiveRunInfo>, g: string) returns (x: seq<Action>, converges: bool)
    requires w.core.current.Some? && w.core.current.value.registered
    requires before != [] && before[|before| - 1] == Registered(g)
    ensures
      var (drained, result) := Drain(w, env);
      && converges == (result.Drained? && (result.gap || result.pending == 0 || (|before| > 1 && before[|before| - 2].Opened?)))
      && (result.DrainThrew? ==> Ends(before, w, env, (drained, true), x))
      && (converges ==> Ends(before, w, env, (Reconcile(MarkConverged(drained), env, checkpoint), false), x))
      && (result.Drained? && !converges ==> forall trigger :: Ends(before, w, env, (ScheduleRetry(drained, trigger), false), x))
      && !HasOpened(x)
  {
    hide Drain, Reconcile, EndsUnreconciled, FollowsRegistration, Ends, ScheduleRetry, MarkConverged, HasOpened;
    var exchanges := DrainLog(w, env);
    var (drained, result) := Drain(w, env);
    assert !HasOpened(exchanges) by { ExchangesOpenNothing(exchanges); }
    if result.DrainThrew? {
      x, converges := exchanges, false;
      ThrewAfter(before, w, drained, env, x);
    } else {
      var front := before[..|before| - 1];
      assert before == front + [Registered(g)];
      var ended := [DrainEnded(result.pending, result.gap)];
      x := exchanges + ended;
      assert w.core.log + exchanges + ended == w.core.log + x && before + x == before + exchanges + ended;
      converges := result.gap || result.pending == 0 || (|before| > 1 && before[|before| - 2].Opened?);
      assert !HasOpened(x) by { ExchangesOpenNothing(exchanges); DrainOpensNothing(exchanges, result.pending, result.gap); }
      if converges {
        DrainedAfterRegistration(front, exchanges, g, result.pending, result.gap);
        var rest := ConvergedEnds(before + x, drained, env, checkpoint);
        var done := (Reconcile(MarkConverged(drained), env, checkpoint), false);
        OpensLater(x, rest);
        EndsLater(before, x, rest, w, drained, env, done);
        x := x + rest;
      } else {
        EndsInDrain(before, exchanges, result.pending, result.gap);
        assert !FollowsRegistration(before, result.pending, result.gap) by { ReadyToConverge(before, result.pending, result.gap); }
        forall trigger ensures Ends(before, w, env, (ScheduleRetry(drained, trigger), false), x) {
          ArmedEnds(before + x, drained, env, trigger);
          EndsLater(before, x, [], w, drained, env, (ScheduleRetry(drained, trigger), false));
          assert x + [] == x;
        }
      }
    }
  }

  lemma ReadyToConverge(log: seq<Action>, pending: nat, gap: bool)
    requires log != [] && log[|log| - 1].Registered?
    ensures FollowsRegistration(log, pending, gap) <==> gap || pending == 0 || (|log| > 1 && log[|log| - 2].Opened?)
  {
  }

  lemma ExchangesOpenNothing(x: seq<Action>)
    requires AllExchange(x)
    ensures !HasOpened(x)
  {
  }

  lemma DrainOpensNothing(x: seq<Action>, pending: nat, gap: bool)
    requires !HasOpened(x)
    ensures !HasOpened(x + [DrainEnded(pending, gap)])
  {
  }

  lemma OpensLater(x: seq<Action>, y: seq<Action>)
    ensures HasOpened(x + y) <==> HasOpened(x) || HasOpened(y)
  {
    if HasOpened(x) {
      var i :| 0 <= i < |x| && x[i].Opened?;
      assert (x + y)[i].Opened?;
    }
    if HasOpened(y) {
      var i :| 0 <= i < |y| && y[i].Opened?;
      assert (x + y)[|x| + i].Opened?;
    }
    if HasOpened(x + y) {
      var i :| 0 <= i < |x + y| && (x + y)[i].Opened?;
      assert if i < |x| then x[i].Opened? else y[i - |x|].Opened?;
    }
  }

  lemma ThrewAfter(before: seq<Action>, w: World, after: World, env: Env, x: seq<Action>)
    requires after.core.log == w.core.log + x && after.timer == w.timer
    ensures Ends(before, w, env, (after, true), x)
  {
  }

  lemma ReconcileKeepsCurrent(w: World, env: Env, checkpoint: seq<ActiveRunInfo>)
    ensures Reconcile(w, env, checkpoint).core.current == w.core.current
  {
    hide ApplyCorrections, Drain, Plan;
    if w.core.current.Some? && env.canQuery && Reply(w, env).runs.Some? {
      var queried := Called(w, env);
      var cs := Plan(checkpoint, Reply(w, env).runs.value);
      var stored := ApplyCorrectionsLog(queried, env, w.core.current.value, cs);
      var exchanges := DrainLog(ApplyCorrections(queried, env, w.core.current.value, cs).0, env);
    }
  }

  predicate KeepsGeneration(w: World, after: World) {
    w.core.current.Some? && after.core.current.Some? && after.core.current.value.generation == w.core.current.value.generation
  }

  lemma StartKeepsGeneration(w: World, env: Env, trigger: Trigger, activeRuns: seq<ActiveRunInfo>)
    requires w.core.current.Some?
    ensures KeepsGeneration(w, StartGeneration(w, env, trigger).0) && KeepsGeneration(w, StartFirstGeneration(w, env, trigger, activeRuns))
  {
    hide RegisterCurrent, Drain, Reconcile;
    var x := RegisterLog(SetEncoder(w, FRESH), env);
    var (registered, response) := RegisterCurrent(SetEncoder(w, FRESH), env);
    var y := DrainLog(registered, env);
    var z := DrainLog(SetEncoder(w, FRESH), env);
    ReconcileKeepsCurrent(MarkConverged(Drain(registered, env).0), env, if response.Some? then response.value else []);
    ReconcileKeepsCurrent(MarkConverged(Drain(SetEncoder(w, FRESH), env).0), env, activeRuns);
  }

  /** A generation has been opened and saved; it is not registered yet. */
  lemma StartEnds(before: seq<Action>, w: World, env: Env, trigger: Trigger) returns (x: seq<Action>)
    requires w.core.current.Some? && !w.core.current.value.registered
    requires before != [] && before[|before| - 1].Opened? && !EndsUnreconciled(before)
    ensures Ends(before, w, env, StartGeneration(w, env, trigger), x) && !HasOpened(x)
  {
    hide RegisterCurrent, Drain, Reconcile, EndsUnreconciled, FollowsRegistration, Ends, ScheduleRetry, MarkConverged;
    var coded := SetEncoder(w, FRESH);
    x := RegisterLog(coded, env);
    var (registered, response) := RegisterCurrent(coded, env);
    var y := [];
    if response.None? {
      WithoutDrains(before, x);
      ArmedEnds(before + x, registered, env, trigger);
    } else {
      var converges;
      assert (before + x)[|before + x| - 2] == before[|before| - 1];
      y, converges := DrainAndConverge(before + x, registered, env, response.value, w.core.current.value.generation);
      var (drained, result) := Drain(registered, env);
      assert StartGeneration(w, env, trigger) ==
               if result.DrainThrew? then (drained, true) else (Reconcile(MarkConverged(drained), env, response.value), false);
    }
    OpensLater(x, y);
    EndsLater(before, x, y, w, registered, env, StartGeneration(w, env, trigger));
    x := x + y;
  }

  /** The first generation has been registered and saved. */
  lemma StartFirstEnds(before: seq<Action>, w: World, env: Env, trigger: Trigger, activeRuns: seq<ActiveRunInfo>, g: string) returns (x: seq<Action>)
    requires w.core.current.Some? && w.core.current.value.registered && !EndsUnreconciled(before)
    requires |before| > 1 && before[|before| - 2].Opened? && before[|before| - 1] == Registered(g)
    ensures Ends(before, w, env, (StartFirstGeneration(w, env, trigger, activeRuns), false), x) && !HasOpened(x)
  {
    hide Drain, Reconcile, EndsUnreconciled, FollowsRegistration, Ends, ScheduleRetry, MarkConverged;
    var coded := SetEncoder(w, FRESH);
    var converges;
    x, converges := DrainAndConverge(before, coded, env, activeRuns, g);
    var (drained, result) := Drain(coded, env);
    if result.DrainThrew? {
      var exchanges := DrainLog(coded, env);
      CaughtEnds(before, coded, drained, env, trigger, exchanges);
      ExchangesOpenNothing(exchanges);
      x := exchanges;
    }
    EndsElsewhere(before, coded, w, env, (StartFirstGeneration(w, env, trigger, activeRuns), false), x);
  }

  lemma CaughtEnds(before: seq<Action>, w: World, after: World, env: Env, trigger: Trigger, x: seq<Action>)
    requires AllExchange(x) && !EndsUnreconciled(before) && after.core.log == w.core.log + x
    ensures Ends(before, w, env, (ScheduleRetry(after, trigger), false), x)
  {
    hide EndsUnreconciled;
    WithoutDrains(before, x);
    ExchangesOpenNothing(x);
  }

  /** Only the log and the timer of where it starts matter. */
  lemma EndsElsewhere(before: seq<Action>, v: World, w: World, env: Env, r: (World, bool), x: seq<Action>)
    requires Ends(before, v, env, r, x) && v.core.log == w.core.log && v.timer == w.timer
    ensures Ends(before, w, env, r, x)
  {
    hide EndsUnreconciled, Drawn;
  }

  lemma OpenNextEnds(before: seq<Action>, w: World, env: Env, trigger: Trigger) returns (x: seq<Action>)
    requires w.core.current.Some? && before != [] && !EndsUnreconciled(before)
    ensures Ends(before, w, env, OpenGeneration(w, env, trigger), x)
  {
    hide StartGeneration, EndsUnreconciled, FollowsRegistration, Ends;
    var s, generation, updatedAt := w.core.current.value, env.ids(w.core.drawn), w.core.clock;
    var drawn := w.(core := w.core.(drawn := w.core.drawn + 1));
    var state := SourceState(s.serverId, generation, false, updatedAt);
    var (saved, threw) := Save(Log(SetCurrent(drawn, state), Opened(generation, Some(s.generation))), env, state);
    x := [Opened(generation, Some(s.generation))];
    assert saved.core.log == w.core.log + x && saved.timer == w.timer && saved.core.current == Some(state);
    assert Drawn(env, generation) by { assert env.ids(w.core.drawn) == generation; }
    var y := [];
    if threw {
      ThrowEnds(before + x, saved, env);
    } else {
      WithoutDrains(before, x);
      StartKeepsGeneration(saved, env, trigger, []);
      y := StartEnds(before + x, saved, env, trigger);
    }
    EndsLater(before, x, y, w, saved, env, OpenGeneration(w, env, trigger));
    x := x + y;
  }

  lemma OpenFirstEnds(w: World, env: Env, trigger: Trigger) returns (x: seq<Action>)
    requires w.core.current.None?
    ensures Ends([], w, env, OpenGeneration(w, env, trigger), x)
  {
    hide StartFirstGeneration, FollowsRegistration, Ends, ScheduleRetry;
    var generation, updatedAt := env.ids(w.core.drawn), w.core.clock;
    var drawn := w.(core := w.core.(drawn := w.core.drawn + 1));
    var a := Reply(drawn, env).register;
    if a.Refused? {
      var called := Called(drawn, env);
      ArmedEnds([], called, env, trigger);
      x := [];
      EndsElsewhere([], called, w, env, OpenGeneration(w, env, trigger), x);
    } else {
      var state := SourceState(a.serverId, generation, true, updatedAt);
      var adopted := Log(Log(SetCurrent(Called(drawn, env), state), Opened(generation, None)), Registered(generation));
      var (saved, threw) := Save(adopted, env, state);
      x := [Opened(generation, None), Registered(generation)];
      assert saved.core.log == w.core.log + x && saved.timer == w.timer && saved.core.current == Some(state);
      assert Drawn(env, generation) by { assert env.ids(w.core.drawn) == generation; }
      assert !EndsUnreconciled(x) by { NothingDrained(x); }
      assert [] + x == x;
      var y := [];
      if threw {
        ArmedEnds(x, saved, env, trigger);
        ScheduleKeepsCurrent(saved, trigger);
      } else {
        StartKeepsGeneration(saved, env, trigger, a.activeRuns);
        y := StartFirstEnds(x, saved, env, trigger, a.activeRuns, generation);
      }
      EndsLater([], x, y, w, saved, env, OpenGeneration(w, env, trigger));
      x := x + y;
    }
  }

  lemma ScheduleKeepsCurrent(w: World, trigger: Trigger)
    ensures ScheduleRetry(w, trigger).core == w.core
  {
  }

  lemma NothingDrained(x: seq<Action>)
    requires NoDrainEnded(x)
    ensures !EndsUnreconciled(x)
  {
    WithoutDrains([], x);
    assert [] + x == x;
  }

  /** How an activation ends, on its own or after a drain that reported a gap. */
  lemma ActivationEnds(before: seq<Action>, w: World, env: Env, trigger: Trigger) returns (x: seq<Action>)
    requires
      var loaded := Load(w);
      || before == []
      || (before[|before| - 1].DrainEnded? && loaded.core.current.Some? && loaded.core.current.value.registered)
    ensures Ends(before, w, env, ActivateGeneration(w, env, trigger), x)
  {
    hide RegisterCurrent, Drain, Reconcile, OpenGeneration, EndsUnreconciled, FollowsRegistration, Ends, ScheduleRetry, MarkConverged;
    var loaded := Load(w);
    if loaded.core.current.Some? && !loaded.core.current.value.registered {
      x := RegisterLog(loaded, env);
      var (registered, response) := RegisterCurrent(loaded, env);
      assert [] + x == x;
      var y := [];
      if response.None? {
        NothingDrained(x);
        ArmedEnds(x, registered, env, trigger);
      } else {
        var converges;
        y, converges := DrainAndConverge(x, registered, env, response.value, loaded.core.current.value.generation);
        var (replayed, result) := Drain(registered, env);
        assert ActivateGeneration(w, env, trigger) ==
                 if result.DrainThrew? then (replayed, true)
                 else if converges then (Reconcile(MarkConverged(replayed), env, response.value), false)
                 else (ScheduleRetry(replayed, trigger), false);
      }
      assert Ends(x, registered, env, ActivateGeneration(w, env, trigger), y);
      NothingOpenedBy(x);
      EndsLater([], x, y, loaded, registered, env, ActivateGeneration(w, env, trigger));
      x := x + y;
    } else if loaded.core.current.Some? {
      var exchanges := DrainLog(loaded, env);
      var (replayed, result) := Drain(loaded, env);
      ExchangesOpenNothing(exchanges);
      if result.DrainThrew? {
        x := exchanges;
        ThrewAfter(before, loaded, replayed, env, x);
      } else {
        var ended := [DrainEnded(result.pending, result.gap)];
        x := exchanges + ended;
        assert loaded.core.log + exchanges + ended == loaded.core.log + x && before + x == before + exchanges + ended;
        EndsInDrain(before, exchanges, result.pending, result.gap);
        NotRegistered(before, result.pending, result.gap);
        DrainOpensNothing(exchanges, result.pending, result.gap);
        var y := [];
        if !result.gap && result.pending > 0 {
          ArmedEnds(before + x, replayed, env, trigger);
        } else {
          y := OpenNextEnds(before + x, replayed, env, if result.gap then SequenceGap else trigger);
        }
        EndsLater(before, x, y, loaded, replayed, env, ActivateGeneration(w, env, trigger));
        x := x + y;
      }
    } else {
      x := OpenFirstEnds(loaded, env, trigger);
    }
    EndsElsewhere(before, loaded, w, env, ActivateGeneration(w, env, trigger), x);
  }

  lemma NothingOpenedBy(x: seq<Action>)
    requires x == [] || (|x| == 1 && x[0].Registered?)
    ensures !HasOpened(x)
  {
  }

  // ----- frames

  /** An event just encoded for a generation with a new id is not pending already. */
  lemma OwnIsNew(t: Setting, w: World, e: Encoder, event: Event)
    requires ProperSetting(t) && Ok(t, w) && w.core.current.Some? && Drawn(t.env, w.core.current.value.generation)
    requires Fits(w.core.encoder, e, event, w.core.current.value.generation)
    ensures forall p :: p in w.core.pending ==> p.event != event
  {
    hide Ordered, Succession, Conserved, LeavesWhenAnswered, Reached, ProperOutbox, IdsFresh, StoredInThePast, Untouched, EventId;
    var c, g := w.core, w.core.current.value.generation;
    ReachedFacts(t, c);
    var k: nat :| t.env.ids(k) == g;
    assert ProperIds(t.env, t.boot, t.start.pending);
    assert Own(t.start.pending, g);
    assert NumbersBound(c, t.start.pending);
  }

  lemma {:induction false} FollowsAnOpening(log: seq<Action>, pending: nat)
    requires FollowsRegistration(log, pending, false) && pending > 0
    ensures HasOpened(log)
  {
    var n := |log| - 1;
    if IsExchange(log[n]) {
      FollowsAnOpening(log[..n], pending);
      OpensLater(log[..n], [log[n]]);
      assert log == log[..n] + [log[n]];
    } else {
      assert log[n - 1].Opened?;
    }
  }

  /** A drain that left something, after a frame has been stored or while nothing has been opened, is no convergence. */
  lemma FrameIsNoConvergence(before: seq<Action>, stored: seq<Action>, registered: seq<Action>, pending: nat)
    requires pending > 0 && (stored == [] || (|stored| == 1 && stored[0].Stored?))
    requires registered == [] || (|registered| == 1 && registered[0].Registered?)
    requires stored == [] ==> !HasOpened(before)
    ensures !FollowsRegistration(before + stored + registered, pending, false)
  {
    var log := before + stored + registered;
    if stored == [] {
      assert before + stored == before;
      OpensLater(before, registered);
      NothingOpenedBy(registered);
      if FollowsRegistration(log, pending, false) {
        FollowsAnOpening(log, pending);
      }
    } else if registered == [] {
      assert log == before + stored;
      assert log[|log| - 1] == stored[0];
    } else {
      assert log[|log| - 1] == registered[0] && log[|log| - 2] == stored[0];
    }
  }

  /** How a turn that does something ends: what it leaves pending is unattended just when the log says so. */
  predicate TurnEnds(before: seq<Action>, w: World, r: (World, bool), x: seq<Action>) {
    && r.0.core.log == w.core.log + x
    && (r.1 ==> r.0.timer == w.timer)
    && (!r.1 ==> Shows(before, w, r.0, x))
  }

  predicate Nothing(w: World, r: (World, bool), x: seq<Action>) {
    !r.1 && x == [] && r.0.core.log == w.core.log && r.0.timer == w.timer && r.0.core.pending == w.core.pending
  }

  lemma ShowsLater(before: seq<Action>, x: seq<Action>, y: seq<Action>, v: World, w: World, after: World)
    requires w.core.log == v.core.log + x && Shows(before + x, w, after, y)
    ensures Shows(before, v, after, x + y)
  {
    hide EndsUnreconciled;
    assert before + (x + y) == before + x + y && v.core.log + (x + y) == v.core.log + x + y;
  }

  lemma ArmedShows(before: seq<Action>, w: World, after: World, x: seq<Action>)
    requires after.core.log == w.core.log + x && after.timer.Some? && !EndsUnreconciled(before + x)
    ensures Shows(before, w, after, x)
  {
  }

  lemma EmptyShows(before: seq<Action>, w: World, after: World, x: seq<Action>)
    requires after.core.log == w.core.log + x && after.core.pending == []
    ensures Shows(before, w, after, x)
  {
  }

  /** From the drain of a frame to its end. */
  lemma FrameDrains(
    before: seq<Action>, stored: seq<Action>, registration: seq<Action>, w: World, env: Env) returns (x: seq<Action>)
    requires w.initialized && w.core.current.Some? && w.core.current.value.registered
    requires stored == [] || (|stored| == 1 && stored[0].Stored?)
    requires registration == [] || (|registration| == 1 && registration[0].Registered?)
    requires stored == [] ==> !HasOpened(before)
    ensures
      var (drained, result) := Drain(w, env);
      var log := before + stored + registration;
      && (result.DrainThrew? ==> TurnEnds(log, w, (drained, true), x))
      && (result.Drained? && result.gap ==> TurnEnds(log, w, ActivateGeneration(drained, env, SequenceGap), x))
      && (result.Drained? && !result.gap && result.pending > 0 ==> TurnEnds(log, w, (ScheduleRetry(drained, Anomaly), false), x))
      && (result.Drained? && !result.gap && result.pending == 0 ==> TurnEnds(log, w, (drained, false), x))
  {
    hide Drain, ActivateGeneration, EndsUnreconciled, FollowsRegistration, Shows, HasOpened;
    var exchanges := DrainLog(w, env);
    var (drained, result) := Drain(w, env);
    var log := before + stored + registration;
    DrainKeepsState(w, env);
    if result.DrainThrew? {
      x := exchanges;
    } else {
      var ended := [DrainEnded(result.pending, result.gap)];
      x := exchanges + ended;
      assert w.core.log + exchanges + ended == w.core.log + x && log + x == log + exchanges + ended;
      if result.gap {
        var y := ActivationEnds(log + x, drained, env, SequenceGap);
        var r := ActivateGeneration(drained, env, SequenceGap);
        if !r.1 {
          ShowsLater(log, x, y, w, drained, r.0);
        }
        x := x + y;
      } else if result.pending > 0 {
        FrameIsNoConvergence(before, stored, registration, result.pending);
        EndsInDrain(log, exchanges, result.pending, result.gap);
        ArmedShows(log, w, ScheduleRetry(drained, Anomaly), x);
      } else {
        EmptyShows(log, w, drained, x);
      }
    }
  }

  lemma {:induction false} DrainLoopKeepsState(w: World, env: Env, entries: seq<Entry>, acknowledged: nat)
    ensures DrainLoop(w, env, entries, acknowledged).0.initialized == w.initialized
    decreases |entries|
  {
    hide RemoveName;
    if entries != [] {
      var submitted := Submit(w, env, entries[0]).0;
      if Submit(w, env, entries[0]).1.Accepted? {
        DrainLoopKeepsState(Acknowledge(submitted, env, entries[0]).0, env, entries[1..], acknowledged + 1);
      }
    }
  }

  lemma DrainKeepsState(w: World, env: Env)
    ensures Drain(w, env).0.initialized == w.initialized
  {
    hide DrainLoop;
    DrainLoopKeepsState(w, env, w.core.pending, 0);
  }

  lemma TurnLater(before: seq<Action>, x: seq<Action>, y: seq<Action>, v: World, w: World, r: (World, bool))
    requires w.core.log == v.core.log + x && w.timer == v.timer && TurnEnds(before + x, w, r, y)
    ensures TurnEnds(before, v, r, x + y)
  {
    hide Shows, EndsUnreconciled;
    assert v.core.log + (x + y) == v.core.log + x + y;
    if !r.1 {
      ShowsLater(before, x, y, v, w, r.0);
    }
  }

  lemma EnqueueKeepsState(w: World, env: Env, event: Event)
    ensures Enqueue(w, env, event).0.initialized == w.initialized
  {
    hide Insert, FileName, Existing;
  }

  lemma RegisterKeepsState(w: World, env: Env)
    ensures RegisterCurrent(w, env).0.initialized == w.initialized
  {
  }

  /** From a frame's event being stored, or found pending already, to the frame's end. */
  lemma StoredFrameEnds(before: seq<Action>, stored: seq<Action>, w: World, env: Env) returns (x: seq<Action>)
    requires w.initialized && w.core.current.Some?
    requires stored == [] || (|stored| == 1 && stored[0].Stored?)
    requires stored == [] ==> !HasOpened(before)
    requires !w.core.current.value.registered ==> !EndsUnreconciled(before)
    ensures
      var (registered, response) := if w.core.current.value.registered then (w, Some([])) else RegisterCurrent(w, env);
      if response.None? then TurnEnds(before + stored, w, (ScheduleRetry(registered, Anomaly), false), x)
      else
        var (drained, result) := Drain(registered, env);
        TurnEnds(before + stored, w,
                 if result.DrainThrew? then (drained, true)
                 else if result.gap then ActivateGeneration(drained, env, SequenceGap)
                 else if result.pending > 0 then (ScheduleRetry(drained, Anomaly), false)
                 else (drained, false), x)
  {
    hide RegisterCurrent, Drain, ActivateGeneration, ScheduleRetry, EndsUnreconciled, FollowsRegistration, HasOpened, Shows, TurnEnds;
    if w.core.current.value.registered {
      assert before + stored + [] == before + stored;
      x := FrameDrains(before, stored, [], w, env);
      var (drained, result) := Drain(w, env);
      assert TurnEnds(before + stored, w,
                      if result.DrainThrew? then (drained, true)
                      else if result.gap then ActivateGeneration(drained, env, SequenceGap)
                      else if result.pending > 0 then (ScheduleRetry(drained, Anomaly), false)
                      else (drained, false), x);
    } else {
      var y := RegisterLog(w, env);
      var (registered, response) := RegisterCurrent(w, env);
      RegisterKeepsState(w, env);
      if response.None? {
        x := y;
        RefusedFrame(before, stored, w, registered, y);
      } else {
        var z := FrameDrains(before, stored, y, registered, env);
        var (drained, result) := Drain(registered, env);
        var r := if result.DrainThrew? then (drained, true)
                 else if result.gap then ActivateGeneration(drained, env, SequenceGap)
                 else if result.pending > 0 then (ScheduleRetry(drained, Anomaly), false)
                 else (drained, false);
        TurnLater(before + stored, y, z, w, registered, r);
        x := y + z;
      }
    }
  }

  lemma RefusedFrame(before: seq<Action>, stored: seq<Action>, w: World, after: World, x: seq<Action>)
    requires !EndsUnreconciled(before) && after.core.log == w.core.log + x
    requires NoDrainEnded(stored) && NoDrainEnded(x)
    ensures TurnEnds(before + stored, w, (ScheduleRetry(after, Anomaly), false), x)
  {
    hide EndsUnreconciled;
    WithoutDrains(before, stored);
    WithoutDrains(before + stored, x);
  }

  lemma ThrewFrame(before: seq<Action>, w: World, after: World, x: seq<Action>)
    requires after.core.log == w.core.log + x && after.timer == w.timer
    ensures TurnEnds(before, w, (after, true), x)
  {
  }

  lemma PublishEnds(t: Setting, w: World, o: Observed, before: seq<Action>) returns (x: seq<Action>)
    requires ProperSetting(t) && Ok(t, w) && w.core.current.Some?
    requires HasOpened(before) ==> Drawn(t.env, w.core.current.value.generation)
    requires !w.core.current.value.registered ==> !EndsUnreconciled(before)
    ensures TurnEnds(before, w, PublishFrame(w, t.env, o), x) || Nothing(w, PublishFrame(w, t.env, o), x)
  {
    hide Ok, ProperSetting, Encode, Enqueue, RegisterCurrent, Drain, ActivateGeneration, Observe, Fits, Existing, ScheduleRetry,
         EndsUnreconciled, FollowsRegistration, HasOpened, Drawn, Shows, TurnEnds;
    var s := w.core.current.value;
    CurrentFacts(t, w);
    x := [];
    assert w.core.log + [] == w.core.log;
    var (e, outcome) := Encode(w.core.encoder, PROVIDER, Observe(o.signal), FrameContext(s, o));
    var encoded := SetEncoder(w, e);
    if outcome.Emitted? {
      EncodeFits(w.core.encoder, PROVIDER, Observe(o.signal), FrameContext(s, o));
      var stored := EnqueueLog(encoded, t.env, outcome.event);
      var (filed, threw) := Enqueue(encoded, t.env, outcome.event);
      EnqueueKeepsState(encoded, t.env, outcome.event);
      if threw {
        x := stored;
        ThrewFrame(before, w, filed, x);
      } else {
        if stored == [] && HasOpened(before) {
          OwnIsNew(t, w, e, outcome.event);
        }
        var y := StoredFrameEnds(before, stored, filed, t.env);
        TurnLater(before, stored, y, w, filed, PublishFrame(w, t.env, o));
        x := stored + y;
      }
    } else if outcome.Invalid? {
      ThrewFrame(before, w, encoded, x);
    }
  }

  // ----- the chain and the connection

  lemma ReconcileKeepsChain(w: World, env: Env, checkpoint: seq<ActiveRunInfo>)
    ensures SameChain(Reconcile(w, env, checkpoint), w)
  {
    hide ApplyCorrections, Drain, Plan;
    if w.core.current.Some? && env.canQuery && Reply(w, env).runs.Some? {
      var queried := Called(w, env);
      var cs := Plan(checkpoint, Reply(w, env).runs.value);
      ApplyCorrectionsChain(queried, env, w.core.current.value, cs);
      DrainChain(ApplyCorrections(queried, env, w.core.current.value, cs).0, env);
    }
  }

  lemma StartKeepsChain(w: World, env: Env, trigger: Trigger, activeRuns: seq<ActiveRunInfo>)
    ensures SameChain(StartGeneration(w, env, trigger).0, w) && SameChain(StartFirstGeneration(w, env, trigger, activeRuns), w)
  {
    hide RegisterCurrent, Drain, Reconcile;
    var coded := SetEncoder(w, FRESH);
    RegisterChain(coded, env);
    var (registered, response) := RegisterCurrent(coded, env);
    DrainChain(registered, env);
    DrainChain(coded, env);
    ReconcileKeepsChain(MarkConverged(Drain(registered, env).0), env, if response.Some? then response.value else []);
    ReconcileKeepsChain(MarkConverged(Drain(coded, env).0), env, activeRuns);
  }

  lemma OpenKeepsChain(w: World, env: Env, trigger: Trigger)
    ensures SameChain(OpenGeneration(w, env, trigger).0, w)
  {
    hide StartGeneration, StartFirstGeneration;
    var generation, updatedAt := env.ids(w.core.drawn), w.core.clock;
    var drawn := w.(core := w.core.(drawn := w.core.drawn + 1));
    if w.core.current.Some? {
      var s := w.core.current.value;
      var state := SourceState(s.serverId, generation, false, updatedAt);
      StartKeepsChain(Save(Log(SetCurrent(drawn, state), Opened(generation, Some(s.generation))), env, state).0, env, trigger, []);
    } else {
      var a := Reply(drawn, env).register;
      if a.Granted? {
        var state := SourceState(a.serverId, generation, true, updatedAt);
        var adopted := Log(Log(SetCurrent(Called(drawn, env), state), Opened(generation, None)), Registered(generation));
        StartKeepsChain(Save(adopted, env, state).0, env, trigger, a.activeRuns);
      }
    }
  }

  lemma ActivateKeepsChain(w: World, env: Env, trigger: Trigger)
    ensures SameChain(ActivateGeneration(w, env, trigger).0, w)
  {
    hide RegisterCurrent, Drain, Reconcile, OpenGeneration;
    var loaded := Load(w);
    RegisterChain(loaded, env);
    var (registered, response) := RegisterCurrent(loaded, env);
    DrainChain(registered, env);
    DrainChain(loaded, env);
    ReconcileKeepsChain(MarkConverged(Drain(registered, env).0), env, if response.Some? then response.value else []);
    OpenKeepsChain(Drain(loaded, env).0, env, trigger);
    OpenKeepsChain(Drain(loaded, env).0, env, SequenceGap);
    OpenKeepsChain(loaded, env, trigger);
  }

  lemma PublishKeepsChain(w: World, env: Env, o: Observed)
    requires w.core.current.Some?
    ensures SameChain(PublishFrame(w, env, o).0, w)
  {
    hide Encode, Enqueue, RegisterCurrent, Drain, ActivateGeneration, Observe;
    var s := w.core.current.value;
    var (e, outcome) := Encode(w.core.encoder, PROVIDER, Observe(o.signal), FrameContext(s, o));
    if outcome.Emitted? {
      EnqueueChain(SetEncoder(w, e), env, outcome.event);
      var stored := Enqueue(SetEncoder(w, e), env, outcome.event).0;
      RegisterChain(stored, env);
      var registered := if s.registered then stored else RegisterCurrent(stored, env).0;
      DrainChain(registered, env);
      ActivateKeepsChain(Drain(registered, env).0, env, SequenceGap);
    }
  }

  // ----- one turn

  function Popped(w: World): World
    requires w.queue != []
  {
    w.(queue := w.queue[1..])
  }

  /** The next turn of the chain throws. */
  predicate TurnThrows(w: World, env: Env)
    requires w.queue != []
  {
    match w.queue[0]
    case FrameOp(frame) => ProcessFrame(Popped(w), env, frame).1
    case ActivateOp(trigger) => ActivateConnected(Popped(w), env, trigger).1
  }

  /** The turn handles a frame on a relay without a generation, which is activated first. */
  predicate ActivatesFirst(w: World) {
    w.queue != [] && w.queue[0].FrameOp? && w.queue[0].frame.Some? && w.core.current.None?
  }

  /** The retry that is armed as the turn comes to handle its own operation. */
  function RetryAtHand(w: World, env: Env): Option<nat>
    requires w.queue != []
  {
    if ActivatesFirst(w) then ActivateGeneration(Popped(w), env, StartupOrReconnect).0.timer else w.timer
  }

  /** What a turn has added to the log. */
  function TurnLog(w: World, env: Env): seq<Action> {
    var after := React(w, env, ChainTurn);
    if |w.core.log| <= |after.core.log| then after.core.log[|w.core.log|..] else []
  }

  predicate TurnDone(w: World, env: Env, x: seq<Action>)
    requires w.queue != []
  {
    var after := React(w, env, ChainTurn);
    && SameChain(after, Popped(w)) && after.core.log == w.core.log + x
    && (TurnThrows(w, env) ==> after.timer == RetryAtHand(w, env))
    && (!TurnThrows(w, env) ==> Shows([], w, after, x) || Nothing(w, (after, false), x))
    && (!TurnThrows(w, env) && w.queue[0].ActivateOp? && w.connected ==> Shows([], w, after, x))
  }

  lemma FrameTurnDone(t: Setting, w: World) returns (x: seq<Action>)
    requires ProperSetting(t) && Ok(t, w) && w.queue != [] && w.queue[0].FrameOp?
    ensures TurnDone(w, t.env, x)
  {
    hide Ok, ProperSetting, ActivateGeneration, PublishFrame, Shows, HasOpened, Drawn, EndsUnreconciled;
    var popped, frame := Popped(w), w.queue[0].frame;
    PoppedOk(t, w);
    x := [];
    assert w.core.log + [] == w.core.log;
    if frame.Some? {
      if popped.core.current.Some? {
        NothingDrained(x);
        NothingOpenedBy(x);
        x := PublishEnds(t, popped, frame.value, x);
        PublishKeepsChain(popped, t.env, frame.value);
        FromElsewhere(popped, w, PublishFrame(popped, t.env, frame.value).0, x);
      } else {
        x := ActivationEnds([], popped, t.env, StartupOrReconnect);
        var (activated, threw) := ActivateGeneration(popped, t.env, StartupOrReconnect);
        ActivateKeepsChain(popped, t.env, StartupOrReconnect);
        ActivateOk(t, popped, StartupOrReconnect);
        assert [] + x == x;
        FromElsewhere(popped, w, activated, x);
        if !threw && activated.core.current.Some? {
          var y := PublishEnds(t, activated, frame.value, x);
          var r := PublishFrame(activated, t.env, frame.value);
          PublishKeepsChain(activated, t.env, frame.value);
          BothDone(w, activated, r, x, y);
          x := x + y;
        }
      }
    }
  }

  lemma FromElsewhere(v: World, w: World, after: World, x: seq<Action>)
    requires v.core.log == w.core.log
    ensures Shows([], v, after, x) == Shows([], w, after, x)
  {
  }

  lemma BothDone(w: World, v: World, r: (World, bool), x: seq<Action>, y: seq<Action>)
    requires v.core.log == w.core.log + x && Shows([], w, v, x)
    requires TurnEnds(x, v, r, y) || Nothing(v, r, y)
    ensures r.0.core.log == w.core.log + (x + y) && (r.1 ==> r.0.timer == v.timer) && (!r.1 ==> Shows([], w, r.0, x + y))
  {
    hide EndsUnreconciled;
    assert w.core.log + x + y == w.core.log + (x + y) && [] + x == x && [] + (x + y) == x + y;
    if Nothing(v, r, y) {
      assert x + y == x;
    }
  }

  lemma ActivateTurnDone(t: Setting, w: World) returns (x: seq<Action>)
    requires w.queue != [] && w.queue[0].ActivateOp?
    ensures TurnDone(w, t.env, x)
  {
    hide ActivateGeneration, Shows, EndsUnreconciled;
    var popped, trigger := Popped(w), w.queue[0].trigger;
    x := [];
    assert w.core.log + [] == w.core.log;
    if w.connected {
      var called := Called(popped, t.env);
      if Reply(popped, t.env).subscribed {
        x := ActivationEnds([], called, t.env, trigger);
        ActivateKeepsChain(called, t.env, trigger);
        FromElsewhere(called, w, ActivateGeneration(called, t.env, trigger).0, x);
      } else {
        NothingDrained([]);
        ScheduleChain(called, trigger);
        assert x + x == x;
        ArmedShows(x, w, ScheduleRetry(called, trigger), x);
      }
    }
  }

  // ----- exactly when events are left untended

  /**
   The stimulus is a turn that leaves events pending on a connected relay with no activation behind it in the queue, and
   either throws with no retry armed, or ends with the relay taking itself to have converged and not reconciled.
   */
  predicate LeavesUntended(w: World, env: Env, s: Stimulus) {
    && s.ChainTurn? && w.queue != [] && w.connected && !HasActivation(w.queue[1..])
    && ListedAfter(w.core.pending, TurnLog(w, env)) != []
    && if TurnThrows(w, env) then RetryAtHand(w, env).None? else EndsUnreconciled(TurnLog(w, env))
  }

  lemma TurnLogIs(w: World, env: Env, x: seq<Action>)
    requires React(w, env, ChainTurn).core.log == w.core.log + x
    ensures TurnLog(w, env) == x
  {
    hide React;
  }

  /** From a tended state, whatever the answers: one stimulus leaves events untended if and only if it is such a turn. */
  lemma UntendedExactly(t: Setting, w: World, s: Stimulus)
    requires ProperSetting(t) && Ok(t, w) && Tended(w)
    ensures !Tended(React(w, t.env, s)) <==> LeavesUntended(w, t.env, s)
  {
    hide Ok, ProperSetting, RunOperation, TurnThrows, RetryAtHand, TurnLog, EndsUnreconciled;
    if s.ChainTurn? && w.queue != [] {
      var x;
      if w.queue[0].FrameOp? {
        x := FrameTurnDone(t, w);
      } else {
        x := ActivateTurnDone(t, w);
      }
      TurnLogIs(w, t.env, x);
      ReactOk(t, w, s);
      LogListsPending(t, w, React(w, t.env, s), x);
      assert w.queue == [w.queue[0]] + w.queue[1..];
      assert [] + x == x;
      NothingDrained([]);
    } else {
      OutsideKeepsTended(w, t.env, s);
    }
  }

  lemma {:induction false} ListedLater(leftover: seq<Entry>, log: seq<Action>, x: seq<Action>)
    ensures ListedAfter(leftover, log + x) == ListedAfter(ListedAfter(leftover, log), x)
  {
    hide Relisted;
    if x == [] {
      assert log + x == log;
    } else {
      ListedLater(leftover, log, x[..|x| - 1]);
      assert (log + x)[..|log + x| - 1] == log + x[..|x| - 1];
    }
  }

  /** What is pending after some steps is what was pending before them, brought up to date by what they logged. */
  lemma LogListsPending(t: Setting, w: World, after: World, x: seq<Action>)
    requires ProperSetting(t) && Ok(t, w) && Ok(t, after) && after.core.log == w.core.log + x
    ensures after.core.pending == ListedAfter(w.core.pending, x)
  {
    hide OrderInvariant, Conserved, LeavesWhenAnswered, Reached, ProperSetting, LogJustified, LatestGeneration, ListedAfter, IsRegistered;
    ReachedFacts(t, w.core);
    ReachedFacts(t, after.core);
    ListedLater(t.start.pending, w.core.log, x);
  }

  lemma OutsideKeepsTended(w: World, env: Env, s: Stimulus)
    requires Tended(w) && (s.ChainTurn? ==> w.queue == [])
    ensures Tended(React(w, env, s))
  {
    hide RunOperation;
    var after := React(w, env, s);
    assert forall op :: op in w.queue ==> op in after.queue;
    if after.queue != w.queue {
      assert after.queue[|after.queue| - 1] in after.queue;
    }
  }

  predicate AlwaysTended(w: World, env: Env, stimuli: seq<Stimulus>) {
    forall k :: 0 <= k <= |stimuli| ==> Tended(Run(w, env, stimuli[..k]))
  }

  predicate NeverLeavesUntended(w: World, env: Env, stimuli: seq<Stimulus>) {
    forall k :: 0 <= k < |stimuli| ==> !LeavesUntended(Run(w, env, stimuli[..k]), env, stimuli[k])
  }

  /** In every run: pending events of a connected relay are always tended if and only if no turn of the run is such a one. */
  lemma {:induction false} TendedExactly(t: Setting, w: World, stimuli: seq<Stimulus>)
    requires ProperSetting(t) && Initial(t, w) && !w.connected
    ensures AlwaysTended(w, t.env, stimuli) <==> NeverLeavesUntended(w, t.env, stimuli)
  {
    hide Initial, ProperSetting, Ok, Tended, LeavesUntended, React, Run;
    if stimuli == [] {
      assert Tended(w) by { NotConnected(w); }
      assert Run(w, t.env, stimuli[..0]) == w by { RunNothing(w, t.env); }
    } else {
      var n := |stimuli| - 1;
      var before := stimuli[..n];
      TendedExactly(t, w, before);
      assert forall k :: 0 <= k <= n ==> before[..k] == stimuli[..k];
      assert forall k :: 0 <= k < n ==> before[k] == stimuli[k];
      assert before[..n] == before && stimuli[..n + 1] == stimuli;
      RelayRunsTheProtocol(t, w, before);
      RunLast(w, t.env, stimuli);
      if AlwaysTended(w, t.env, before) {
        assert Tended(Run(w, t.env, before[..n]));
        UntendedExactly(t, Run(w, t.env, before), stimuli[n]);
      }
    }
  }

  lemma NotConnected(w: World)
    requires !w.connected
    ensures Tended(w)
  {
  }

  /**
   The retry after a drain. When a turn that does not throw ends its part of the log with a drain that left events, a
   retry is armed, unless that drain was the first after a registration and reported a gap or was of a generation just
   opened: with such a one the relay takes itself to have converged.
   */
  lemma DrainIsRetried(t: Setting, w: World)
    requires ProperSetting(t) && Ok(t, w) && w.queue != [] && !TurnThrows(w, t.env)
    requires TurnLog(w, t.env) != []
    ensures
      var x, after := TurnLog(w, t.env), React(w, t.env, ChainTurn);
      var last := x[|x| - 1];
      last.DrainEnded? && last.pending > 0 ==>
        (after.timer.None? <==> FollowsRegistration(x[..|x| - 1], last.pending, last.gap))
  {
    hide Ok, ProperSetting, TurnThrows, RetryAtHand, FollowsRegistration, React, TurnLog, Reached;
    var x;
    if w.queue[0].FrameOp? {
      x := FrameTurnDone(t, w);
    } else {
      x := ActivateTurnDone(t, w);
    }
    TurnLogIs(w, t.env, x);
    assert [] + x == x;
    ReactOk(t, w, ChainTurn);
    OkIsReached(t, React(w, t.env, ChainTurn));
    LastDrainLeaves(t, React(w, t.env, ChainTurn).core);
  }

  lemma OkIsReached(t: Setting, w: World)
    requires Ok(t, w)
    ensures Reached(t, w.core)
  {
  }

  /** What a drain that ends the log reports as pending is what is pending. */
  lemma LastDrainLeaves(t: Setting, c: Core)
    requires ProperSetting(t) && Reached(t, c)
    ensures c.log != [] && c.log[|c.log| - 1].DrainEnded? ==> c.log[|c.log| - 1].pending == |c.pending|
  {
    hide OrderInvariant, Conserved, LeavesWhenAnswered, Reached, ProperSetting, IsRegistered, LatestGeneration, Heads, GapJustReported, Insert, RemoveName;
    ReachedFacts(t, c);
    if c.log != [] {
      assert Justified(t.start, t.boot, c.log[..|c.log| - 1], c.log[|c.log| - 1]);
    }
  }
}
