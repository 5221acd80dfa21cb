/** When a connected relay is left waiting for a registration that nothing will ask for: exactly when it happens. */
module LifecycleRetry {
  import opened Options
  import opened LifecycleContract
  import opened OpenClawAdapter
  import opened TransitionEncoder
  import opened Reconciliation
  import opened LifecycleOutbox
  import opened LifecyclePipeline
  import opened LifecycleProtocol
  import opened LifecycleRefinement

  predicate AwaitsRegistration(w: World) {
    w.core.current.Some? && !w.core.current.value.registered
  }

  predicate WillActivate(w: World) {
    w.timer.Some? || HasActivation(w.queue)
  }

  /** A connected relay whose generation is not registered has a retry armed or an activation queued. */
  predicate Watched(w: World) {
    w.connected && AwaitsRegistration(w) ==> WillActivate(w)
  }

  // ----- the one step that strands

  /**
   An activation whose current generation is registered, whose drain lets it be replaced, and which cannot save the
   state of the generation it then opens.
   */
  predicate ReplacementLost(w: World, env: Env) {
    var loaded := Load(w);
    && loaded.core.current.Some? && loaded.core.current.value.registered
    && var (replayed, result) := Drain(loaded, env);
       result.Drained? && (result.gap || result.pending == 0) && !Reply(replayed, env).file.Done?
  }

  /** A frame whose event was stored and drained up to a gap, and whose activation is then such a one. */
  predicate FrameLost(w: World, env: Env, o: Observed)
    requires w.core.current.Some?
  {
    var (e, outcome) := Encode(w.core.encoder, PROVIDER, Observe(o.signal), FrameContext(w.core.current.value, o));
    && outcome.Emitted?
    && var (stored, threw) := Enqueue(SetEncoder(w, e), env, outcome.event);
       && !threw
       && var (registered, response) := if w.core.current.value.registered then (stored, Some([])) else RegisterCurrent(stored, env);
          && response.Some?
          && var (drained, result) := Drain(registered, env);
             result.Drained? && result.gap && ReplacementLost(drained, env)
  }

  /** The next turn of the chain opens a replacing generation and fails to save it. */
  predicate TurnLost(w: World, env: Env) {
    && w.queue != []
    && var popped := w.(queue := w.queue[1..]);
       match w.queue[0]
       case FrameOp(frame) =>
         && frame.Some?
         && if popped.core.current.Some? then FrameLost(popped, env, frame.value)
            else
              || ReplacementLost(popped, env)
              || (var (activated, threw) := ActivateGeneration(popped, env, StartupOrReconnect);
                  !threw && activated.core.current.Some? && FrameLost(activated, env, frame.value))
       case ActivateOp(trigger) => w.connected && Reply(popped, env).subscribed && ReplacementLost(Called(popped, env), env)
  }

  predicate HasActivation(queue: seq<Operation>) {
    exists op :: op in queue && op.ActivateOp?
  }

  /** The turn handles a frame on a relay without a generation, so that an activation of its own comes first. */
  predicate OpensFirst(w: World, env: Env) {
    && w.queue != [] && w.queue[0].FrameOp? && w.core.current.None?
    && !ReplacementLost(w.(queue := w.queue[1..]), env)
  }

  /**
   The retry that is armed when the turn comes to its activation: the relay's own, or what the activation that gave the
   relay its generation has left of it.
   */
  function Armed(w: World, env: Env): Option<nat> {
    if OpensFirst(w, env) then ActivateGeneration(w.(queue := w.queue[1..]), env, StartupOrReconnect).0.timer else w.timer
  }

  /** The stimulus takes a turn that loses its replacement, with no retry armed and no activation behind it in the queue. */
  predicate Strands(w: World, env: Env, s: Stimulus) {
    s.ChainTurn? && w.connected && TurnLost(w, env) && Armed(w, env).None? && !HasActivation(w.queue[1..])
  }

  predicate SameChain(w: World, v: World) {
    w.queue == v.queue && w.connected == v.connected
  }

  lemma EnqueueChain(w: World, env: Env, event: Event)
    ensures SameChain(Enqueue(w, env, event).0, w) && Enqueue(w, env, event).0.timer == w.timer
  {
    hide Insert, MakeEntry, Existing;
  }

  lemma {:induction false} DrainLoopChain(w: World, env: Env, entries: seq<Entry>, acknowledged: nat)
    ensures SameChain(DrainLoop(w, env, entries, acknowledged).0, w) && DrainLoop(w, env, entries, acknowledged).0.timer == w.timer
    decreases |entries|
  {
    hide RemoveName;
    if entries != [] {
      var (submitted, answer) := Submit(w, env, entries[0]);
      if answer.Accepted? {
        var (removed, threw) := Acknowledge(submitted, env, entries[0]);
        DrainLoopChain(removed, env, entries[1..], acknowledged + 1);
      }
    }
  }

  lemma DrainChain(w: World, env: Env)
    ensures SameChain(Drain(w, env).0, w) && Drain(w, env).0.timer == w.timer
  {
    hide DrainLoop;
    DrainLoopChain(w, env, w.core.pending, 0);
  }

  lemma {:induction false} ApplyCorrectionsChain(w: World, env: Env, s: SourceState, cs: seq<Correction>)
    ensures SameChain(ApplyCorrections(w, env, s, cs).0, w)
    decreases |cs|
  {
    hide Correct, Enqueue;
    if cs != [] {
      var (e, outcome) := Correct(w.core.encoder, s.serverId, s.generation, cs[0], w.core.clock);
      var encoded := SetEncoder(w, e);
      if outcome.Emitted? {
        EnqueueChain(encoded, env, outcome.event);
        ApplyCorrectionsChain(Enqueue(encoded, env, outcome.event).0, env, s, cs[1..]);
      } else {
        ApplyCorrectionsChain(encoded, env, s, cs[1..]);
      }
    }
  }

  lemma ReconcileChain(t: Setting, w: World, checkpoint: seq<ActiveRunInfo>)
    requires ProperSetting(t) && Ok(t, w) && MayDrain(w)
    ensures SameChain(Reconcile(w, t.env, checkpoint), w)
    ensures !AwaitsRegistration(Reconcile(w, t.env, checkpoint))
  {
    hide Ok, ProperSetting, ApplyCorrections, Drain, Plan;
    if w.core.current.Some? && t.env.canQuery && Reply(w, t.env).runs.Some? {
      var queried := Called(w, t.env);
      var cs := Plan(checkpoint, Reply(w, t.env).runs.value);
      CalledOk(t, w);
      ApplyCorrectionsChain(queried, t.env, w.core.current.value, cs);
      ApplyCorrectionsOk(t, queried, w.core.current.value, cs);
      var applied := ApplyCorrections(queried, t.env, w.core.current.value, cs).0;
      DrainChain(applied, t.env);
      DrainOk(t, applied);
    }
  }

  /** What an operation that loses no replacement leaves: a registered generation, none at all, or an armed retry. */
  predicate Settled(before: World, after: World) {
    SameChain(after, before) && (AwaitsRegistration(after) ==> after.timer.Some?)
  }

  lemma OpenSettles(t: Setting, w: World, trigger: Trigger)
    requires ProperSetting(t) && Ok(t, w) && w.initialized
    requires w.core.current.Some? ==> w.core.current.value.registered && w.core.log != [] && ReplaceableAfter(w.core.log[|w.core.log| - 1])
    requires w.core.current.Some? ==> Reply(w, t.env).file.Done?
    ensures Settled(w, OpenGeneration(w, t.env, trigger).0)
  {
    if w.core.current.Some? {
      OpenNextSettles(t, w, trigger);
    } else {
      OpenFirstSettles(t, w, trigger);
    }
  }

  lemma OpenNextSettles(t: Setting, w: World, trigger: Trigger)
    requires ProperSetting(t) && Ok(t, w) && w.initialized && w.core.current.Some? && w.core.current.value.registered
    requires w.core.log != [] && ReplaceableAfter(w.core.log[|w.core.log| - 1])
    requires Reply(w, t.env).file.Done?
    ensures Settled(w, OpenGeneration(w, t.env, trigger).0)
  {
    hide Ok, ProperSetting, Save, RegisterCurrent, Drain, Reconcile;
    var s, generation, updatedAt := w.core.current.value, t.env.ids(w.core.drawn), w.core.clock;
    var replaced := ReplaceOk(t, w, updatedAt);
    var state := SourceState(s.serverId, generation, false, updatedAt);
    SaveOk(t, replaced, state);
    SaveChain(replaced, t.env, state);
    var coded := SetEncoder(Save(replaced, t.env, state).0, FRESH);
    ResetOk(t, Save(replaced, t.env, state).0);
    RegisterCurrentOk(t, coded);
    RegisterChain(coded, t.env);
    var (registered, response) := RegisterCurrent(coded, t.env);
    if response.Some? {
      DrainOk(t, registered);
      DrainChain(registered, t.env);
      var (drained, result) := Drain(registered, t.env);
      ScheduleOk(t, drained, trigger);
      if result.Drained? {
        ReconcileChain(t, MarkConverged(drained), response.value);
      }
    }
  }

  lemma OpenFirstSettles(t: Setting, w: World, trigger: Trigger)
    requires ProperSetting(t) && Ok(t, w) && w.initialized && w.core.current.None?
    ensures Settled(w, OpenGeneration(w, t.env, trigger).0)
  {
    hide Ok, ProperSetting, Save, RegisterCurrent, Drain, Reconcile, ScheduleRetry, MarkConverged;
    var generation, updatedAt := t.env.ids(w.core.drawn), w.core.clock;
    var a := Reply(w, t.env).register;
    var drawn := w.(core := w.core.(drawn := w.core.drawn + 1));
    if a.Refused? {
      ScheduleChain(Called(drawn, t.env), trigger);
    } else {
      CalledOk(t, w);
      var adopted := AdoptOk(t, Called(w, t.env), a.serverId, updatedAt);
      var state := SourceState(a.serverId, generation, true, updatedAt);
      assert adopted == Log(Log(SetCurrent(Called(drawn, t.env), state), Opened(generation, None)), Registered(generation));
      SaveOk(t, adopted, state);
      SaveChain(adopted, t.env, state);
      var (saved, threw) := Save(adopted, t.env, state);
      if threw {
        ScheduleChain(saved, trigger);
      } else {
        ResetOk(t, saved);
        DrainOk(t, SetEncoder(saved, FRESH));
        DrainChain(SetEncoder(saved, FRESH), t.env);
        var (drained, result) := Drain(SetEncoder(saved, FRESH), t.env);
        ScheduleChain(drained, trigger);
        if result.Drained? {
          ScheduleOk(t, drained, trigger);
          ReconcileChain(t, MarkConverged(drained), a.activeRuns);
        }
      }
    }
  }

  lemma ScheduleChain(w: World, trigger: Trigger)
    ensures SameChain(ScheduleRetry(w, trigger), w) && ScheduleRetry(w, trigger).timer.Some?
    ensures SameChain(MarkConverged(w), w)
  {
  }

  lemma SaveChain(w: World, env: Env, s: SourceState)
    ensures SameChain(Save(w, env, s).0, w) && Save(w, env, s).1 == !Reply(w, env).file.Done?
  {
  }

  lemma RegisterChain(w: World, env: Env)
    ensures SameChain(RegisterCurrent(w, env).0, w) && RegisterCurrent(w, env).0.timer == w.timer
  {
  }

  lemma ActivateSettles(t: Setting, w: World, trigger: Trigger)
    requires ProperSetting(t) && Ok(t, w)
    requires !ReplacementLost(w, t.env)
    ensures Settled(w, ActivateGeneration(w, t.env, trigger).0)
  {
    hide Ok, ProperSetting, RegisterCurrent, Drain, Reconcile, OpenGeneration;
    LoadOk(t, w);
    var loaded := Load(w);
    if AwaitsRegistration(loaded) {
      RegisterCurrentOk(t, loaded);
      RegisterChain(loaded, t.env);
      var (registered, response) := RegisterCurrent(loaded, t.env);
      if response.Some? {
        DrainOk(t, registered);
        DrainChain(registered, t.env);
        var (replayed, result) := Drain(registered, t.env);
        if result.Drained? {
          ScheduleOk(t, replayed, trigger);
          ReconcileChain(t, MarkConverged(replayed), response.value);
        }
      }
    } else if loaded.core.current.Some? {
      DrainOk(t, loaded);
      DrainChain(loaded, t.env);
      var (replayed, result) := Drain(loaded, t.env);
      if result.Drained? && !(!result.gap && result.pending > 0) {
        OpenSettles(t, replayed, if result.gap then SequenceGap else trigger);
      }
    } else {
      OpenSettles(t, loaded, trigger);
    }
  }

  lemma PublishFrameSettles(t: Setting, w: World, o: Observed)
    requires ProperSetting(t) && Ok(t, w) && w.core.current.Some?
    requires !FrameLost(w, t.env, o)
    ensures
      var after := PublishFrame(w, t.env, o).0;
      Settled(w, after) || (SameChain(after, w) && after.timer == w.timer && AwaitsRegistration(w))
  {
    hide Ok, ProperSetting, Encode, Enqueue, RegisterCurrent, Drain, ActivateGeneration, Observe, Fits;
    var s := w.core.current.value;
    CurrentFacts(t, w);
    var (e, outcome) := Encode(w.core.encoder, PROVIDER, Observe(o.signal), FrameContext(s, o));
    if outcome.Emitted? {
      EncodeFits(w.core.encoder, PROVIDER, Observe(o.signal), FrameContext(s, o));
      EnqueueOk(t, w, e, outcome.event);
      EnqueueChain(SetEncoder(w, e), t.env, outcome.event);
      var (stored, threw) := Enqueue(SetEncoder(w, e), t.env, outcome.event);
      if !threw {
        if !s.registered {
          RegisterCurrentOk(t, stored);
          RegisterChain(stored, t.env);
        }
        var (registered, response) := if s.registered then (stored, Some([])) else RegisterCurrent(stored, t.env);
        if response.Some? {
          DrainOk(t, registered);
          DrainChain(registered, t.env);
          var (drained, result) := Drain(registered, t.env);
          if result.Drained? && result.gap {
            ActivateSettles(t, drained, SequenceGap);
          }
        }
      }
    }
  }

  /** Losing a replacement leaves the new generation current, unregistered, and the timer as it was. */
  lemma LostAwaits(t: Setting, w: World, trigger: Trigger)
    requires ProperSetting(t) && Ok(t, w) && ReplacementLost(w, t.env)
    ensures
      var (after, threw) := ActivateGeneration(w, t.env, trigger);
      threw && AwaitsRegistration(after) && SameChain(after, w) && after.timer == w.timer
  {
    hide Ok, ProperSetting, Drain;
    LoadOk(t, w);
    DrainChain(Load(w), t.env);
    DrainOk(t, Load(w));
  }

  lemma FrameLostAwaits(t: Setting, w: World, o: Observed)
    requires ProperSetting(t) && Ok(t, w) && w.core.current.Some? && FrameLost(w, t.env, o)
    ensures
      var after := PublishFrame(w, t.env, o).0;
      AwaitsRegistration(after) && SameChain(after, w) && after.timer == w.timer
  {
    hide Ok, ProperSetting, Encode, Enqueue, RegisterCurrent, Drain, ActivateGeneration, Observe, Fits, ReplacementLost;
    var s := w.core.current.value;
    CurrentFacts(t, w);
    var (e, outcome) := Encode(w.core.encoder, PROVIDER, Observe(o.signal), FrameContext(s, o));
    EncodeFits(w.core.encoder, PROVIDER, Observe(o.signal), FrameContext(s, o));
    EnqueueOk(t, w, e, outcome.event);
    EnqueueChain(SetEncoder(w, e), t.env, outcome.event);
    var stored := Enqueue(SetEncoder(w, e), t.env, outcome.event).0;
    if !s.registered {
      RegisterCurrentOk(t, stored);
      RegisterChain(stored, t.env);
    }
    var registered := if s.registered then stored else RegisterCurrent(stored, t.env).0;
    DrainOk(t, registered);
    DrainChain(registered, t.env);
    LostAwaits(t, Drain(registered, t.env).0, SequenceGap);
  }

  lemma TurnKeepsWatch(t: Setting, w: World)
    requires ProperSetting(t) && Ok(t, w) && Watched(w) && w.queue != [] && !TurnLost(w, t.env)
    ensures Watched(React(w, t.env, ChainTurn))
  {
    hide Ok, ProperSetting, ActivateGeneration, PublishFrame, FrameLost, ReplacementLost;
    var popped := w.(queue := w.queue[1..]);
    PoppedOk(t, w);
    assert w.queue == [w.queue[0]] + popped.queue;
    match w.queue[0]
    case FrameOp(frame) =>
      if frame.Some? {
        var ready, threw := popped, false;
        if popped.core.current.None? {
          ActivateSettles(t, popped, StartupOrReconnect);
          ActivateOk(t, popped, StartupOrReconnect);
          ready, threw := ActivateGeneration(popped, t.env, StartupOrReconnect).0, ActivateGeneration(popped, t.env, StartupOrReconnect).1;
        }
        if !threw && ready.core.current.Some? {
          PublishFrameSettles(t, ready, frame.value);
        }
      }
    case ActivateOp(trigger) =>
      if w.connected && Reply(popped, t.env).subscribed {
        CalledOk(t, popped);
        ActivateSettles(t, Called(popped, t.env), trigger);
      }
  }

  lemma LostTurnAwaits(t: Setting, w: World)
    requires ProperSetting(t) && Ok(t, w) && TurnLost(w, t.env)
    ensures
      var after := React(w, t.env, ChainTurn);
      AwaitsRegistration(after) && after.connected == w.connected && after.queue == w.queue[1..] && after.timer == Armed(w, t.env)
  {
    hide Ok, ProperSetting, ActivateGeneration, PublishFrame, FrameLost, ReplacementLost;
    var popped := w.(queue := w.queue[1..]);
    PoppedOk(t, w);
    match w.queue[0]
    case FrameOp(frame) =>
      if popped.core.current.Some? {
        FrameLostAwaits(t, popped, frame.value);
      } else if ReplacementLost(popped, t.env) {
        LostAwaits(t, popped, StartupOrReconnect);
      } else {
        ActivateSettles(t, popped, StartupOrReconnect);
        ActivateOk(t, popped, StartupOrReconnect);
        FrameLostAwaits(t, ActivateGeneration(popped, t.env, StartupOrReconnect).0, frame.value);
      }
    case ActivateOp(trigger) =>
      CalledOk(t, popped);
      LostAwaits(t, Called(popped, t.env), trigger);
  }

  lemma PoppedOk(t: Setting, w: World)
    requires Ok(t, w) && w.queue != []
    ensures Ok(t, w.(queue := w.queue[1..]))
  {
  }

  lemma OutsideKeepsWatch(w: World, env: Env, s: Stimulus)
    requires Watched(w) && (s.ChainTurn? ==> w.queue == [])
    ensures Watched(React(w, env, s))
  {
    hide RunOperation;
    var after := React(w, env, s);
    if AwaitsRegistration(w) && after.connected {
      assert forall op :: op in w.queue ==> op in after.queue;
      if after.queue != w.queue {
        assert after.queue[|after.queue| - 1] in after.queue;
      }
    }
  }

  /**
   From a watched state, whatever else throws: one stimulus leaves the relay stranded if and only if it is a turn, with
   the relay connected, that opens a replacing generation and fails to save it, while no retry is armed and no
   activation is queued behind it.
   */
  lemma StrandsExactly(t: Setting, w: World, s: Stimulus)
    requires ProperSetting(t) && Ok(t, w) && Watched(w)
    ensures !Watched(React(w, t.env, s)) <==> Strands(w, t.env, s)
  {
    hide Ok, ProperSetting, RunOperation, TurnLost, Armed;
    if s.ChainTurn? && w.queue != [] {
      if TurnLost(w, t.env) {
        LostTurnAwaits(t, w);
      } else {
        TurnKeepsWatch(t, w);
      }
    } else {
      if s.ChainTurn? {
        NoTurnNoLoss(w, t.env);
      }
      OutsideKeepsWatch(w, t.env, s);
    }
  }

  lemma NoTurnNoLoss(w: World, env: Env)
    requires w.queue == []
    ensures !TurnLost(w, env)
  {
  }

  predicate AlwaysWatched(w: World, env: Env, stimuli: seq<Stimulus>) {
    forall k :: 0 <= k <= |stimuli| ==> Watched(Run(w, env, stimuli[..k]))
  }

  predicate NeverStrands(w: World, env: Env, stimuli: seq<Stimulus>) {
    forall k :: 0 <= k < |stimuli| ==> !Strands(Run(w, env, stimuli[..k]), env, stimuli[k])
  }

  lemma InitialWatched(t: Setting, w: World)
    requires ProperSetting(t) && Initial(t, w)
    ensures Watched(w)
  {
    hide ProperOutbox, ProperIds, Injective;
  }

  /**
   In every run: a connected relay never sits on an unregistered generation with nothing scheduled if and only if no
   turn of the run opens a replacing generation and fails to save it with nothing else scheduled.
   */
  lemma {:induction false} WatchedExactly(t: Setting, w: World, stimuli: seq<Stimulus>)
    requires ProperSetting(t) && Initial(t, w)
    ensures AlwaysWatched(w, t.env, stimuli) <==> NeverStrands(w, t.env, stimuli)
  {
    hide Initial, ProperSetting, Ok, Watched, Strands, React, Run;
    if stimuli == [] {
      InitialWatched(t, w);
      assert Run(w, t.env, stimuli[..0]) == w by { RunNothing(w, t.env); }
    } else {
      var n := |stimuli| - 1;
      var before := stimuli[..n];
      WatchedExactly(t, w, before);
      assert forall k :: 0 <= k <= n ==> before[..k] == stimuli[..k];
      assert forall k :: 0 <= k < n ==> before[k] == stimuli[k];
      assert before[..n] == before && stimuli[..n + 1] == stimuli;
      RelayRunsTheProtocol(t, w, before);
      RunLast(w, t.env, stimuli);
      if AlwaysWatched(w, t.env, before) {
        assert Watched(Run(w, t.env, before[..n]));
        StrandsExactly(t, Run(w, t.env, before), stimuli[n]);
      }
    }
  }

  lemma RunNothing(w: World, env: Env)
    ensures Run(w, env, []) == w
  {
  }

  lemma RunLast(w: World, env: Env, stimuli: seq<Stimulus>)
    requires stimuli != []
    ensures Run(w, env, stimuli) == React(Run(w, env, stimuli[..|stimuli| - 1]), env, stimuli[|stimuli| - 1])
  {
    hide React;
  }
}
