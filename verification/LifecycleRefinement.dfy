/** Everything the relay does is a run of the protocol, so what holds in every protocol run holds of the relay. */
module LifecycleRefinement {
  import opened Options
  import opened Text
  import opened Decimal
  import opened LifecycleContract
  import opened OpenClawAdapter
  import opened TransitionEncoder
  import opened Reconciliation
  import opened LifecycleOutbox
  import opened LifecyclePipeline
  import opened LifecycleProtocol
  import opened LifecycleOrder
  import opened LifecycleSuccession
  import opened LifecycleConservation

  /** A process start: what it finds on disk, and the adversary it will meet. */
  datatype Setting = Setting(start: Core, env: Env, boot: Option<SourceState>)

  ghost predicate ProperSetting(t: Setting) {
    ProperStart(t.start, t.env, t.boot)
  }

  ghost predicate ReachedBy(t: Setting, ms: seq<Move>, c: Core) {
    Possible(t.start, t.env, t.boot, ms) && Moves(t.start, t.env, ms) == c
  }

  ghost predicate Reached(t: Setting, c: Core) {
    exists ms :: ReachedBy(t, ms, c)
  }

  /** What the relay's own variables satisfy between its operations, and inside them. */
  ghost predicate Ok(t: Setting, w: World) {
    && Reached(t, w.core)
    && (w.core.current.Some? ==> Trimmed(w.core.current.value.generation))
    && (!w.initialized ==> w.core.current.None? && w.core.log == [] && w.core.encoder == FRESH && w.stored == t.boot)
  }

  predicate MayDrain(w: World) {
    w.initialized && (w.core.current.Some? ==> w.core.current.value.registered)
  }

  /** The world but for the outbox, the log, the time and the retry variables. */
  predicate SameRelay(w: World, v: World) {
    w.core.current == v.core.current && w.core.encoder == v.core.encoder && w.core.drawn == v.core.drawn && w.initialized == v.initialized
  }

  lemma Reach(t: Setting, c: Core, m: Move)
    requires Reached(t, c) && Enabled(c, t.env, t.boot, m)
    ensures Reached(t, Move1(c, t.env, m))
  {
    hide Enabled, Move1;
    var ms :| ReachedBy(t, ms, c);
    assert (ms + [m])[..|ms|] == ms;
    assert ReachedBy(t, ms + [m], Move1(c, t.env, m));
  }

  lemma ReachedFacts(t: Setting, c: Core)
    requires ProperSetting(t) && Reached(t, c)
    ensures OrderInvariant(c, t.env, t.start.pending)
    ensures Succession(t.start, t.boot, c)
    ensures Conserved(t.start, c) && LeavesWhenAnswered(c.log)
  {
    hide OrderInvariant, Succession, Conserved, LeavesWhenAnswered, ProperStart, Possible, Moves;
    var ms :| ReachedBy(t, ms, c);
    OrderInEveryRun(t.start, t.env, t.boot, ms);
    SuccessionInEveryRun(t.start, t.env, t.boot, ms);
    ConservationInEveryRun(t.start, t.env, t.boot, ms);
  }

  lemma ReachedOutbox(t: Setting, c: Core)
    requires ProperSetting(t) && Reached(t, c)
    ensures Ascending(c.pending)
  {
    hide Bookkept, Ordered, Succession, Conserved, LeavesWhenAnswered, Reached, ProperSetting, ProperEntry, SameIdentity;
    ReachedFacts(t, c);
  }

  lemma ReachedFresh(t: Setting, c: Core)
    requires ProperSetting(t) && Reached(t, c)
    ensures LastSequence(c.encoder, t.env.ids(c.drawn)) == 0
  {
    hide Ordered, Succession, Conserved, LeavesWhenAnswered, Reached, ProperSetting, ProperOutbox, NumbersBound, StoredInThePast, Untouched;
    ReachedFacts(t, c);
    assert NeverSeen(c, t.env.ids(c.drawn));
  }

  lemma CalledOk(t: Setting, w: World)
    requires Ok(t, w)
    ensures Ok(t, Called(w, t.env))
  {
    hide Reached;
    Reach(t, w.core, Wait(Reply(w, t.env).elapsed));
  }

  // ----- storing an event

  /** The event and encoder are what encoding for the current generation gave. */
  ghost predicate Fits(before: Encoder, after: Encoder, event: Event, generation: string) {
    && event.generation == generation
    && event.sequence == LastSequence(before, generation) + 1 <= MAX_SAFE_INTEGER
    && event.eventId == EventId(generation, event.sequence)
    && LastSequence(after, generation) == event.sequence
    && forall g :: g != generation ==> LastSequence(after, g) == LastSequence(before, g)
  }

  lemma EnqueueOk(t: Setting, w: World, e: Encoder, event: Event)
    requires Ok(t, w) && w.core.current.Some?
    requires Fits(w.core.encoder, e, event, w.core.current.value.generation)
    ensures Ok(t, Enqueue(SetEncoder(w, e), t.env, event).0)
    ensures Enqueue(SetEncoder(w, e), t.env, event).0.core.current == w.core.current
    ensures Enqueue(SetEncoder(w, e), t.env, event).0.initialized == w.initialized
  {
    hide Reached, Insert, FileName, EventId, Fits, Called;
    var coded := SetEncoder(w, e);
    FitsEnabled(t, w, e, event);
    assert Ok(t, coded) by { Reach(t, w.core, Number(e)); }
    if Existing(coded.core.pending, event).None? && |coded.core.pending| < t.env.maxPending {
      if Reply(coded, t.env).file.FailedBefore? {
        CalledOk(t, coded);
        CalledKeeps(t, coded);
      } else {
        Reach(t, w.core, Store(e, event));
        var entry := MakeEntry(t.env.digest, coded.core.clock, event);
        var stored := Log(coded.(core := coded.core.(pending := Insert(coded.core.pending, entry))), Stored(entry));
        assert stored.core == Move1(w.core, t.env, Store(e, event));
        CalledOk(t, stored);
        CalledKeeps(t, stored);
      }
    }
  }

  lemma CalledKeeps(t: Setting, w: World)
    ensures SameRelay(Called(w, t.env), w) && Called(w, t.env).stored == w.stored && Called(w, t.env).connected == w.connected
    ensures Called(w, t.env).core.pending == w.core.pending && Called(w, t.env).core.log == w.core.log
  {
  }

  lemma FitsEnabled(t: Setting, w: World, e: Encoder, event: Event)
    requires w.core.current.Some?
    requires Fits(w.core.encoder, e, event, w.core.current.value.generation)
    ensures Enabled(w.core, t.env, t.boot, Number(e))
    ensures Existing(w.core.pending, event).None? && |w.core.pending| < t.env.maxPending ==> Enabled(w.core, t.env, t.boot, Store(e, event))
  {
    hide EventId, SameIdentity;
  }

  lemma EncodeFits(e: Encoder, provider: string, o: Option<Observation>, c: Context)
    requires Trimmed(c.generation) && Encode(e, provider, o, c).1.Emitted?
    ensures Fits(e, Encode(e, provider, o, c).0, Encode(e, provider, o, c).1.event, c.generation)
  {
    hide ParseEvent, Candidate, EventId, ScopeKey;
    EmittedEvent(e, provider, o, c);
  }

  lemma CorrectFits(e: Encoder, s: SourceState, c: Correction, now: int)
    requires Trimmed(s.generation)
    ensures
      var (after, outcome) := Correct(e, s.serverId, s.generation, c, now);
      if outcome.Emitted? then Fits(e, after, outcome.event, s.generation) else OnlyNumbers(e, after, s.generation)
  {
    hide ParseEvent, Candidate, EventId, ScopeKey, Encode, IsIdentifier;
    var context := CorrectionContext(s.serverId, s.generation, c.run, now);
    var seeded := if c.Disappeared? then Seed(e, PROVIDER, context, c.run.status) else e;
    var o := Observe(CorrectionSignal(c));
    if Encode(seeded, PROVIDER, o, context).1.Emitted? {
      EncodeFits(seeded, PROVIDER, o, context);
    }
  }

  lemma {:induction false} ApplyCorrectionsOk(t: Setting, w: World, s: SourceState, cs: seq<Correction>)
    requires Ok(t, w) && w.core.current == Some(s)
    ensures Ok(t, ApplyCorrections(w, t.env, s, cs).0)
    ensures ApplyCorrections(w, t.env, s, cs).0.core.current == Some(s)
    ensures ApplyCorrections(w, t.env, s, cs).0.initialized == w.initialized
    decreases |cs|
  {
    hide Reached, Correct, Enqueue, Fits, OnlyNumbers;
    if cs != [] {
      var (e, outcome) := Correct(w.core.encoder, s.serverId, s.generation, cs[0], w.core.clock);
      CorrectFits(w.core.encoder, s, cs[0], w.core.clock);
      var encoded := SetEncoder(w, e);
      if outcome.Emitted? {
        EnqueueOk(t, w, e, outcome.event);
        var (stored, threw) := Enqueue(encoded, t.env, outcome.event);
        if !threw {
          ApplyCorrectionsOk(t, stored, s, cs[1..]);
        }
      } else {
        Reach(t, w.core, Number(e));
        if outcome.Silent? {
          ApplyCorrectionsOk(t, encoded, s, cs[1..]);
        }
      }
    }
  }

  // ----- draining

  lemma SubmitOk(t: Setting, w: World)
    requires Ok(t, w) && w.core.pending != [] && MayDrain(w)
    ensures
      var (after, answer) := Submit(w, t.env, w.core.pending[0]);
      Ok(t, after) && SameRelay(after, w) && after.core.pending == w.core.pending && LastIs(after.core.log, Submitted(w.core.pending[0], answer))
  {
    hide Reached, Called;
    var answer := Reply(w, t.env).submit;
    var submitted := Log(w, Submitted(w.core.pending[0], answer));
    Reach(t, w.core, SubmitFirst(answer));
    assert submitted.core == Move1(w.core, t.env, SubmitFirst(answer));
    CalledOk(t, submitted);
    CalledKeeps(t, submitted);
  }

  lemma AcknowledgeOk(t: Setting, w: World)
    requires ProperSetting(t) && Ok(t, w) && w.core.pending != [] && LastIs(w.core.log, Submitted(w.core.pending[0], Accepted))
    ensures
      var (after, threw) := Acknowledge(w, t.env, w.core.pending[0]);
      Ok(t, after) && SameRelay(after, w) && (!threw ==> after.core.pending == w.core.pending[1..])
  {
    hide Reached, Called, ProperSetting, RemoveName;
    var e := w.core.pending[0];
    ReachedOutbox(t, w.core);
    RemoveFirst(w.core.pending);
    CalledOk(t, w);
    CalledKeeps(t, w);
    var removed := Log(Unlink(w, e), Removed(e));
    Reach(t, w.core, RemoveFirstEntry);
    assert removed.core == Move1(w.core, t.env, RemoveFirstEntry);
    CalledOk(t, removed);
    CalledKeeps(t, removed);
  }

  lemma QuarantineOk(t: Setting, w: World, a: SubmitAnswer)
    requires ProperSetting(t) && Ok(t, w) && w.core.pending != []
    requires LastIs(w.core.log, Submitted(w.core.pending[0], a)) && Permanent(a)
    ensures
      var (after, threw) := Quarantine(w, t.env, w.core.pending[0]);
      Ok(t, after) && SameRelay(after, w) && (!threw && ReportsGap(a) ==> GapJustReported(after.core.log))
  {
    hide Reached, Called, ProperSetting, RemoveName;
    var e := w.core.pending[0];
    ReachedOutbox(t, w.core);
    RemoveFirst(w.core.pending);
    CalledOk(t, w);
    CalledKeeps(t, w);
    var moved := Log(Unlink(w, e), Action.Quarantined(e));
    Reach(t, w.core, QuarantineFirst);
    assert moved.core == Move1(w.core, t.env, QuarantineFirst);
    CalledOk(t, moved);
    CalledKeeps(t, moved);
  }

  ghost predicate DrainedWell(t: Setting, before: World, after: World, result: DrainResult) {
    && Ok(t, after)
    && SameRelay(after, before)
    && (result.Drained? ==> LastIs(after.core.log, DrainEnded(result.pending, result.gap)))
  }

  lemma EndDrainOk(t: Setting, before: World, w: World, acknowledged: nat, blocked: bool, gap: bool)
    requires Ok(t, w) && w.initialized && SameRelay(w, before) && (gap ==> GapJustReported(w.core.log))
    ensures
      var (after, result) := EndDrain(w, acknowledged, blocked, gap);
      DrainedWell(t, before, after, result)
  {
    hide Reached;
    Reach(t, w.core, FinishDrain(gap));
    assert EndDrain(w, acknowledged, blocked, gap).0.core == Move1(w.core, t.env, FinishDrain(gap));
  }

  lemma {:induction false} DrainLoopOk(t: Setting, before: World, w: World, acknowledged: nat)
    requires ProperSetting(t) && Ok(t, w) && MayDrain(w) && SameRelay(w, before)
    ensures
      var (after, result) := DrainLoop(w, t.env, w.core.pending, acknowledged);
      DrainedWell(t, before, after, result)
    decreases |w.core.pending|
  {
    hide Ok, ProperSetting, Submit, Acknowledge, Quarantine, EndDrain, DrainedWell;
    if w.core.pending == [] {
      EndDrainOk(t, before, w, acknowledged, false, false);
    } else {
      var first := w.core.pending[0];
      SubmitOk(t, w);
      var (submitted, answer) := Submit(w, t.env, first);
      if answer.Accepted? {
        AcknowledgeOk(t, submitted);
        var (removed, threw) := Acknowledge(submitted, t.env, first);
        if threw {
          EndDrainOk(t, before, removed, acknowledged, true, false);
        } else {
          DrainLoopOk(t, before, removed, acknowledged + 1);
        }
      } else if Permanent(answer) {
        QuarantineOk(t, submitted, answer);
        var (moved, threw) := Quarantine(submitted, t.env, first);
        if threw {
          ThrewWell(t, before, moved);
        } else {
          EndDrainOk(t, before, moved, acknowledged, true, ReportsGap(answer));
        }
      } else {
        EndDrainOk(t, before, submitted, acknowledged, true, ReportsGap(answer));
      }
    }
  }

  lemma ThrewWell(t: Setting, before: World, w: World)
    requires Ok(t, w) && SameRelay(w, before)
    ensures DrainedWell(t, before, w, DrainThrew)
  {
  }

  lemma DrainOk(t: Setting, w: World)
    requires ProperSetting(t) && Ok(t, w) && MayDrain(w)
    ensures DrainedWell(t, w, Drain(w, t.env).0, Drain(w, t.env).1)
  {
    hide Ok, ProperSetting, DrainLoop, DrainedWell;
    DrainLoopOk(t, w, w, 0);
  }

  // ----- the relay

  lemma SaveOk(t: Setting, w: World, s: SourceState)
    requires Ok(t, w) && w.initialized
    ensures Ok(t, Save(w, t.env, s).0) && SameRelay(Save(w, t.env, s).0, w) && Save(w, t.env, s).0.core.log == w.core.log
  {
    hide Reached, Called;
    CalledOk(t, w);
    CalledKeeps(t, w);
    var stored := w.(stored := Some(s));
    CalledOk(t, stored);
    CalledKeeps(t, stored);
  }

  lemma ScheduleOk(t: Setting, w: World, trigger: Trigger)
    requires Ok(t, w)
    ensures Ok(t, ScheduleRetry(w, trigger)) && ScheduleRetry(w, trigger).core == w.core
    ensures Ok(t, MarkConverged(w)) && MarkConverged(w).core == w.core
    ensures ScheduleRetry(w, trigger).initialized == MarkConverged(w).initialized == w.initialized
  {
    hide Reached;
  }

  lemma RegisterCurrentOk(t: Setting, w: World)
    requires Ok(t, w) && w.core.current.Some? && !w.core.current.value.registered
    ensures
      var (after, response) := RegisterCurrent(w, t.env);
      && Ok(t, after) && after.initialized
      && after.core.current.Some?
      && after.core.current.value.generation == w.core.current.value.generation
      && (response.Some? ==> after.core.current.value.registered)
  {
    hide Reached, Called, Save;
    var s := w.core.current.value;
    CalledOk(t, w);
    CalledKeeps(t, w);
    var a, answered := Reply(w, t.env).register, Called(w, t.env);
    if a.Granted? && a.serverId == s.serverId {
      var state := s.(registered := true, updatedAt := answered.core.clock);
      var adopted := Log(SetCurrent(answered, state), Registered(s.generation));
      Reach(t, answered.core, AcceptRegistration(answered.core.clock));
      assert adopted.core == Move1(answered.core, t.env, AcceptRegistration(answered.core.clock));
      SaveOk(t, adopted, state);
    }
  }

  lemma ReconcileOk(t: Setting, w: World, checkpoint: seq<ActiveRunInfo>)
    requires ProperSetting(t) && Ok(t, w) && MayDrain(w)
    ensures Ok(t, Reconcile(w, t.env, checkpoint))
  {
    hide Ok, ProperSetting, Called, ApplyCorrections, Drain, Plan, ScheduleRetry;
    if w.core.current.Some? && t.env.canQuery {
      var observed, queried := Reply(w, t.env).runs, Called(w, t.env);
      CalledOk(t, w);
      CalledKeeps(t, w);
      if observed.Some? {
        var cs := Plan(checkpoint, observed.value);
        ApplyCorrectionsOk(t, queried, w.core.current.value, cs);
        var (applied, threw) := ApplyCorrections(queried, t.env, w.core.current.value, cs);
        if !threw {
          DrainOk(t, applied);
          var (drained, result) := Drain(applied, t.env);
          ScheduleOk(t, drained, SequenceGap);
          ScheduleOk(t, drained, Anomaly);
        }
      }
    }
  }

  lemma LoadOk(t: Setting, w: World)
    requires ProperSetting(t) && Ok(t, w)
    ensures Ok(t, Load(w)) && Load(w).initialized
  {
    hide Reached;
    if !w.initialized && w.stored.Some? {
      Reach(t, w.core, LoadState(w.stored.value));
    }
  }

  /** Replacing a registered generation right after a drain that allows it. */
  lemma ReplaceOk(t: Setting, w: World, updatedAt: nat) returns (replaced: World)
    requires ProperSetting(t) && Ok(t, w) && w.initialized && w.core.current.Some? && w.core.current.value.registered
    requires w.core.log != [] && ReplaceableAfter(w.core.log[|w.core.log| - 1])
    ensures replaced.core == Move1(w.core, t.env, Open(updatedAt))
    ensures replaced == w.(core := replaced.core)
    ensures Ok(t, replaced) && LastSequence(replaced.core.encoder, replaced.core.current.value.generation) == 0
  {
    hide Reached, Trimmed;
    Reach(t, w.core, Open(updatedAt));
    ReachedFresh(t, w.core);
    replaced := w.(core := Move1(w.core, t.env, Open(updatedAt)));
  }

  lemma ResetOk(t: Setting, w: World)
    requires Ok(t, w) && w.initialized && w.core.current.Some? && LastSequence(w.core.encoder, w.core.current.value.generation) == 0
    ensures Ok(t, SetEncoder(w, FRESH))
  {
    hide Reached;
    Reach(t, w.core, Move.ResetEncoder);
  }

  lemma OpenNextOk(t: Setting, w: World, trigger: Trigger)
    requires ProperSetting(t) && Ok(t, w) && w.initialized && w.core.current.Some? && w.core.current.value.registered
    requires w.core.log != [] && ReplaceableAfter(w.core.log[|w.core.log| - 1])
    ensures Ok(t, OpenGeneration(w, t.env, trigger).0)
  {
    hide Ok, ProperSetting, Save, RegisterCurrent, Drain, Reconcile, ScheduleRetry, MarkConverged;
    var s, generation, updatedAt := w.core.current.value, t.env.ids(w.core.drawn), w.core.clock;
    var replaced := ReplaceOk(t, w, updatedAt);
    var state := SourceState(s.serverId, generation, false, updatedAt);
    SaveOk(t, replaced, state);
    var (saved, threw) := Save(replaced, t.env, state);
    if !threw {
      var set0 := SetEncoder(saved, FRESH);
      ResetOk(t, saved);
      RegisterCurrentOk(t, set0);
      var (registered, response) := RegisterCurrent(set0, t.env);
      if response.None? {
        ScheduleOk(t, registered, trigger);
      } else {
        DrainOk(t, registered);
        var (drained, result) := Drain(registered, t.env);
        if result.Drained? {
          ScheduleOk(t, drained, trigger);
          ReconcileOk(t, MarkConverged(drained), response.value);
        }
      }
    }
  }

  /** The first generation of an agent that has none: its registration is what the server identity comes from. */
  lemma AdoptOk(t: Setting, w: World, serverId: string, updatedAt: nat) returns (adopted: World)
    requires ProperSetting(t) && Ok(t, w) && w.initialized && w.core.current.None?
    ensures adopted.core == Move1(w.core, t.env, Bootstrap(serverId, updatedAt))
    ensures adopted == w.(core := adopted.core)
    ensures Ok(t, adopted) && LastSequence(adopted.core.encoder, adopted.core.current.value.generation) == 0
  {
    hide Reached, Trimmed;
    Reach(t, w.core, Bootstrap(serverId, updatedAt));
    ReachedFresh(t, w.core);
    adopted := w.(core := Move1(w.core, t.env, Bootstrap(serverId, updatedAt)));
  }

  lemma DropIdOk(t: Setting, w: World)
    requires Ok(t, w)
    ensures Ok(t, w.(core := w.core.(drawn := w.core.drawn + 1)))
  {
    hide Reached;
    Reach(t, w.core, DropId);
  }

  lemma OpenFirstOk(t: Setting, w: World, trigger: Trigger)
    requires ProperSetting(t) && Ok(t, w) && w.initialized && w.core.current.None?
    ensures Ok(t, OpenGeneration(w, t.env, trigger).0)
  {
    hide Ok, ProperSetting, Save, RegisterCurrent, Drain, Reconcile, ScheduleRetry, MarkConverged;
    var generation, updatedAt := t.env.ids(w.core.drawn), w.core.clock;
    var a := Reply(w, t.env).register;
    var drawn := w.(core := w.core.(drawn := w.core.drawn + 1));
    if a.Refused? {
      DropIdOk(t, w);
      CalledOk(t, drawn);
      ScheduleOk(t, Called(drawn, t.env), trigger);
    } else {
      CalledOk(t, w);
      var adopted := AdoptOk(t, Called(w, t.env), a.serverId, updatedAt);
      var state := SourceState(a.serverId, generation, true, updatedAt);
      assert adopted == Log(Log(SetCurrent(Called(drawn, t.env), state), Opened(generation, None)), Registered(generation));
      SaveOk(t, adopted, state);
      var (saved, threw) := Save(adopted, t.env, state);
      if threw {
        ScheduleOk(t, saved, trigger);
      } else {
        ResetOk(t, saved);
        DrainOk(t, SetEncoder(saved, FRESH));
        var (drained, result) := Drain(SetEncoder(saved, FRESH), t.env);
        ScheduleOk(t, drained, trigger);
        if result.Drained? {
          ReconcileOk(t, MarkConverged(drained), a.activeRuns);
        }
      }
    }
  }

  lemma ActivateOk(t: Setting, w: World, trigger: Trigger)
    requires ProperSetting(t) && Ok(t, w)
    ensures Ok(t, ActivateGeneration(w, t.env, trigger).0)
  {
    hide Ok, ProperSetting, RegisterCurrent, Drain, Reconcile, ScheduleRetry, MarkConverged, OpenGeneration, Load;
    LoadOk(t, w);
    var loaded := Load(w);
    if loaded.core.current.Some? && !loaded.core.current.value.registered {
      RegisterCurrentOk(t, loaded);
      var (registered, response) := RegisterCurrent(loaded, t.env);
      ScheduleOk(t, registered, trigger);
      if response.Some? {
        DrainOk(t, registered);
        var (replayed, result) := Drain(registered, t.env);
        ScheduleOk(t, replayed, trigger);
        if result.Drained? && !(!result.gap && result.pending > 0) {
          ReconcileOk(t, MarkConverged(replayed), response.value);
        }
      }
    } else if loaded.core.current.Some? {
      DrainOk(t, loaded);
      var (replayed, result) := Drain(loaded, t.env);
      ScheduleOk(t, replayed, trigger);
      if result.Drained? && !(!result.gap && result.pending > 0) {
        OpenNextOk(t, replayed, if result.gap then SequenceGap else trigger);
      }
    } else {
      OpenFirstOk(t, loaded, trigger);
    }
  }

  lemma PublishFrameOk(t: Setting, w: World, o: Observed)
    requires ProperSetting(t) && Ok(t, w) && w.core.current.Some?
    ensures Ok(t, PublishFrame(w, t.env, o).0)
  {
    hide Ok, ProperSetting, Encode, Enqueue, RegisterCurrent, Drain, ScheduleRetry, ActivateGeneration, Observe, Fits;
    var s := w.core.current.value;
    CurrentFacts(t, w);
    var context := FrameContext(s, o);
    var (e, outcome) := Encode(w.core.encoder, PROVIDER, Observe(o.signal), context);
    if !outcome.Emitted? {
      assert SetEncoder(w, e) == w;
    } else {
      EncodeFits(w.core.encoder, PROVIDER, Observe(o.signal), context);
      EnqueueOk(t, w, e, outcome.event);
      var (stored, threw) := Enqueue(SetEncoder(w, e), t.env, outcome.event);
      if !threw {
        if !s.registered { RegisterCurrentOk(t, stored); }
        var (registered, response) := if s.registered then (stored, Some([])) else RegisterCurrent(stored, t.env);
        ScheduleOk(t, registered, Anomaly);
        if response.Some? {
          DrainOk(t, registered);
          var (drained, result) := Drain(registered, t.env);
          ScheduleOk(t, drained, Anomaly);
          ActivateOk(t, drained, SequenceGap);
        }
      }
    }
  }

  lemma CurrentFacts(t: Setting, w: World)
    requires Ok(t, w) && w.core.current.Some?
    ensures Trimmed(w.core.current.value.generation) && w.initialized
  {
  }

  lemma OperationOk(t: Setting, w: World, op: Operation)
    requires ProperSetting(t) && Ok(t, w)
    ensures Ok(t, RunOperation(w, t.env, op))
  {
    hide Ok, ProperSetting, ActivateGeneration, PublishFrame, ScheduleRetry, Called;
    match op
    case FrameOp(frame) =>
      if frame.Some? {
        if w.core.current.Some? {
          PublishFrameOk(t, w, frame.value);
        } else {
          ActivateOk(t, w, StartupOrReconnect);
          var activated := ActivateGeneration(w, t.env, StartupOrReconnect).0;
          if activated.core.current.Some? {
            PublishFrameOk(t, activated, frame.value);
          }
        }
      }
    case ActivateOp(trigger) =>
      CalledOk(t, w);
      ScheduleOk(t, Called(w, t.env), trigger);
      ActivateOk(t, Called(w, t.env), trigger);
  }

  lemma ReactOk(t: Setting, w: World, s: Stimulus)
    requires ProperSetting(t) && Ok(t, w)
    ensures Ok(t, React(w, t.env, s))
  {
    hide Reached, ProperSetting, RunOperation;
    if s.ChainTurn? && w.queue != [] {
      OperationOk(t, w.(queue := w.queue[1..]), w.queue[0]);
    }
  }

  /** The relay before anything has happened. */
  ghost predicate Initial(t: Setting, w: World) {
    w.core == t.start && w.stored == t.boot && !w.initialized
  }

  lemma InitialOk(t: Setting, w: World)
    requires ProperSetting(t) && Initial(t, w)
    ensures Ok(t, w)
  {
    hide ProperOutbox, ProperIds, Injective;
    assert ReachedBy(t, [], t.start);
  }

  lemma {:induction false} RelayRunsTheProtocol(t: Setting, w: World, stimuli: seq<Stimulus>)
    requires ProperSetting(t) && Initial(t, w)
    ensures Ok(t, Run(w, t.env, stimuli))
  {
    hide React, ProperStart;
    if stimuli == [] {
      InitialOk(t, w);
    } else {
      RelayRunsTheProtocol(t, w, stimuli[..|stimuli| - 1]);
      ReactOk(t, Run(w, t.env, stimuli[..|stimuli| - 1]), stimuli[|stimuli| - 1]);
    }
  }

  // ----- what follows for the relay

  /**
   In every run of the relay process, whatever the frames, reconnections, timers and answers, and as long as the clock
   reads less than 10^13 milliseconds: submissions of a generation that left nothing behind go out in sequence order,
   an event that was removed or quarantined is not submitted again, and only the same event is submitted twice. At any
   clock, what is submitted, again or for the first time, heads the listing as the start and the log before it give it.
   */
  lemma RelaySubmitsInOrder(t: Setting, w: World, stimuli: seq<Stimulus>)
    requires ProperSetting(t) && Initial(t, w)
    ensures
      var c := Run(w, t.env, stimuli).core;
      && (c.clock < TIME_LIMIT ==> SubmissionsOrdered(c.log, t.start.pending))
      && SubmitsTheHead(t.start.pending, c.log)
  {
    hide Run, Initial, ProperSetting, Succession, Conserved, LeavesWhenAnswered, Bookkept, ProperOutbox, PendingOrdered, PendingBehind,
         SubmissionsOrdered, SubmitsTheHead;
    RelayRunsTheProtocol(t, w, stimuli);
    ReachedFacts(t, Run(w, t.env, stimuli).core);
    HeadsAreSubmitted(t, Run(w, t.env, stimuli).core);
  }

  ghost predicate SubmitsTheHead(leftover: seq<Entry>, log: seq<Action>) {
    forall i :: 0 <= i < |log| && log[i].Submitted? ==> Heads(ListedAfter(leftover, log[..i]), log[i].entry)
  }

  lemma HeadsAreSubmitted(t: Setting, c: Core)
    requires Succession(t.start, t.boot, c)
    ensures SubmitsTheHead(t.start.pending, c.log)
  {
    hide Heads, ListedAfter, IsRegistered;
    forall i | 0 <= i < |c.log| && c.log[i].Submitted? ensures Heads(ListedAfter(t.start.pending, c.log[..i]), c.log[i].entry) {
      assert Justified(t.start, t.boot, c.log[..i], c.log[i]);
    }
  }

  /**
   In every run of the relay process, each action in the log is justified by what came before it: an event is submitted
   only after its generation was registered, and a generation is replaced only when it is the latest one, registered,
   and just drained with nothing left pending or a gap reported. What a drain says of what is left and of a gap is what
   the log before it shows: the listing replayed from the start, and the backend's last answer.
   */
  lemma RelaySucceedsGenerations(t: Setting, w: World, stimuli: seq<Stimulus>)
    requires ProperSetting(t) && Initial(t, w)
    ensures LogJustified(t.start, t.boot, Run(w, t.env, stimuli).core.log)
  {
    hide Run, Initial, ProperSetting, OrderInvariant, Conserved, LeavesWhenAnswered, LogJustified;
    RelayRunsTheProtocol(t, w, stimuli);
    ReachedFacts(t, Run(w, t.env, stimuli).core);
  }

  /**
   In every run of the relay process: the outbox stays within its capacity with no identity twice in it; what was
   pending at the start or stored since is pending, removed or quarantined; and an entry leaves only right after the
   backend accepted it or refused it with 400 or 422.
   */
  lemma RelayConservesEvents(t: Setting, w: World, stimuli: seq<Stimulus>)
    requires ProperSetting(t) && Initial(t, w)
    ensures
      var c := Run(w, t.env, stimuli).core;
      ProperOutbox(t.env, c.pending) && Conserved(t.start, c) && LeavesWhenAnswered(c.log)
  {
    hide Run, Initial, ProperSetting, Succession, Conserved, LeavesWhenAnswered, Bookkept, Ordered, ProperOutbox;
    RelayRunsTheProtocol(t, w, stimuli);
    ReachedFacts(t, Run(w, t.env, stimuli).core);
  }

  /** In every run of the relay process, a stored event of a generation that left nothing behind is in exactly one place. */
  lemma RelayKeepsEachEventOnce(t: Setting, w: World, stimuli: seq<Stimulus>, e: Entry)
    requires ProperSetting(t) && Initial(t, w)
    requires e in StoredIn(Run(w, t.env, stimuli).core.log) && Own(t.start.pending, e.event.generation)
    ensures
      var c := Run(w, t.env, stimuli).core;
      multiset(c.pending)[e] + RemovedIn(c.log)[e] + QuarantinedIn(c.log)[e] == 1
  {
    hide Run, Initial, StoredIn, RemovedIn, QuarantinedIn, ProperStart, Moves, Possible;
    RelayRunsTheProtocol(t, w, stimuli);
    var c := Run(w, t.env, stimuli).core;
    var ms :| ReachedBy(t, ms, c);
    ExactlyOnePlace(t.start, t.env, t.boot, ms, e);
  }

  /** What a drain that has acknowledged some entries already leaves of the rest of the listing. */
  predicate Took(before: seq<Entry>, after: World, result: DrainResult, acknowledged: nat, k: nat) {
    && k <= |before|
    && after.core.pending == before[k..]
    && (result.Drained? ==>
          && result.pending == |before| - k
          && (k == result.acknowledged - acknowledged || (result.blocked && k == result.acknowledged - acknowledged + 1))
          && (!result.blocked ==> result.pending == 0))
  }

  lemma FirstLeaves(w: World, env: Env)
    requires Ascending(w.core.pending) && w.core.pending != []
    ensures
      var (after, threw) := Acknowledge(w, env, w.core.pending[0]);
      after.core.pending == (if threw && Reply(w, env).file.FailedBefore? then w.core.pending else w.core.pending[1..])
    ensures
      var (after, threw) := Quarantine(w, env, w.core.pending[0]);
      after.core.pending == (if threw && Reply(w, env).file.FailedBefore? then w.core.pending else w.core.pending[1..])
  {
    hide RemoveName, Before;
    RemoveFirst(w.core.pending);
  }

  lemma {:induction false} DrainLoopTakesPrefix(w: World, env: Env, acknowledged: nat) returns (k: nat)
    requires Ascending(w.core.pending)
    ensures
      var (after, result) := DrainLoop(w, env, w.core.pending, acknowledged);
      Took(w.core.pending, after, result, acknowledged, k)
    decreases |w.core.pending|
  {
    hide Acknowledge, Quarantine, Before;
    if w.core.pending == [] {
      k := 0;
    } else {
      var (submitted, answer) := Submit(w, env, w.core.pending[0]);
      FirstLeaves(submitted, env);
      var (removed, threw) := Acknowledge(submitted, env, w.core.pending[0]);
      if answer.Accepted? && !threw {
        var j := DrainLoopTakesPrefix(removed, env, acknowledged + 1);
        k := j + 1;
      } else {
        var after := DrainLoop(w, env, w.core.pending, acknowledged).0;
        k := |w.core.pending| - |after.core.pending|;
      }
    }
  }

  /**
   A drain takes a prefix of the listing away and leaves the rest as it was: the acknowledged entries, and after them at
   most the one that blocked it. A drain that was not blocked leaves nothing.
   */
  lemma DrainTakesPrefix(t: Setting, w: World) returns (k: nat)
    requires ProperSetting(t) && Ok(t, w)
    ensures
      var (after, result) := Drain(w, t.env);
      Took(w.core.pending, after, result, 0, k)
  {
    hide DrainLoop, Ascending, Reached, ProperSetting;
    ReachedOutbox(t, w.core);
    k := DrainLoopTakesPrefix(w, t.env, 0);
  }
}
