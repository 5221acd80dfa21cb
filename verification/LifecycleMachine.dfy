/**
 The lifecycle objects as the program builds them: an outbox over a directory, a publisher that drains it and the relay
 with its variables, all updated in place. Each method is proved against the operation it implements.
 */
module LifecycleMachine {
  import opened Options
  import opened LifecycleContract
  import opened OpenClawAdapter
  import opened TransitionEncoder
  import opened Reconciliation
  import opened LifecycleOutbox
  import opened LifecyclePipeline

  /** The clock, the backend, the source-state file, and a record of what the outside has seen. */
  class Outside {
    const env: Env
    var tick: nat
    var clock: nat
    var stored: Option<SourceState>
    ghost var log: seq<Action>

    constructor (env: Env, clock: nat, stored: Option<SourceState>)
      ensures this.env == env && tick == 0 && this.clock == clock && this.stored == stored && log == []
    {
      this.env, tick, this.clock, this.stored, log := env, 0, clock, stored, [];
    }

    ghost predicate Shows(w: World)
      reads this
    {
      tick == w.tick && clock == w.core.clock && stored == w.stored && log == w.core.log
    }

    ghost method Record(a: Action)
      modifies this`log
      ensures log == old(log) + [a]
    {
      log := log + [a];
    }

    method Call() returns (answer: Answer)
      modifies this`tick, this`clock
      ensures answer == env.answers(old(tick)) && tick == old(tick) + 1 && clock == old(clock) + answer.elapsed
    {
      answer := env.answers(tick);
      tick, clock := tick + 1, clock + answer.elapsed;
    }

    method SaveSource(ghost w: World, state: SourceState) returns (threw: bool)
      requires Shows(w)
      modifies this
      ensures Shows(Save(w, env, state).0) && threw == Save(w, env, state).1
    {
      var answer := Call();
      if !answer.file.FailedBefore? {
        stored := Some(state);
      }
      return !answer.file.Done?;
    }
  }

  class AgentLifecycleOutbox {
    const outside: Outside
    var pendingDir: map<string, Entry>

    /** The outbox over a directory that may hold files from before. */
    constructor (outside: Outside, files: map<string, Entry>)
      requires Filed(files)
      ensures Valid() && this.outside == outside && pendingDir == files
    {
      this.outside, pendingDir := outside, files;
    }

    ghost predicate Valid()
      reads this
    {
      Filed(pendingDir)
    }

    ghost predicate Shows(w: World)
      reads this, outside
    {
      Valid() && Listing(pendingDir) == w.core.pending && outside.Shows(w)
    }

    method List() returns (pending: seq<Entry>)
      ensures pending == Listing(pendingDir)
    {
      var fileNames := SortedNames(pendingDir.Keys);
      pending := [];
      for i := 0 to |fileNames|
        invariant pending == Listing(pendingDir)[..i]
      {
        pending := pending + [pendingDir[fileNames[i]]];
      }
    }

    method Enqueue(ghost w: World, event: Event) returns (threw: bool)
      requires Shows(w)
      modifies this, outside
      ensures Shows(LifecyclePipeline.Enqueue(w, outside.env, event).0) && threw == LifecyclePipeline.Enqueue(w, outside.env, event).1
    {
      hide Insert, FileName, Listing, Existing, Filed, SameIdentity;
      var pending := List();
      var existing := Existing(pending, event);
      if existing.Some? {
        return existing.value.event != event;
      }
      if |pendingDir| >= outside.env.maxPending {
        return true;
      }
      var entry := MakeEntry(outside.env.digest, outside.clock, event);
      var answer := outside.Call();
      if !answer.file.FailedBefore? {
        DirectoryChanges(pendingDir, entry);
        pendingDir := pendingDir[entry.fileName := entry];
        outside.Record(Stored(entry));
      }
      return !answer.file.Done?;
    }

    method Acknowledge(ghost w: World, entry: Entry) returns (threw: bool)
      requires Shows(w)
      modifies this, outside
      ensures Shows(LifecyclePipeline.Acknowledge(w, outside.env, entry).0)
      ensures threw == LifecyclePipeline.Acknowledge(w, outside.env, entry).1
    {
      hide RemoveName, Listing, Filed;
      var answer := outside.Call();
      if !answer.file.FailedBefore? {
        DirectoryLosesName(pendingDir, entry.fileName);
        pendingDir := pendingDir - {entry.fileName};
        outside.Record(Removed(entry));
      }
      return !answer.file.Done?;
    }

    method Quarantine(ghost w: World, entry: Entry) returns (threw: bool)
      requires Shows(w)
      modifies this, outside
      ensures Shows(LifecyclePipeline.Quarantine(w, outside.env, entry).0)
      ensures threw == LifecyclePipeline.Quarantine(w, outside.env, entry).1
    {
      hide RemoveName, Listing, Filed;
      var answer := outside.Call();
      if !answer.file.FailedBefore? {
        DirectoryLosesName(pendingDir, entry.fileName);
        pendingDir := pendingDir - {entry.fileName};
        outside.Record(Quarantined(entry));
      }
      return !answer.file.Done?;
    }
  }

  lemma DirectoryLosesName(files: map<string, Entry>, fileName: string)
    requires Filed(files)
    ensures Filed(files - {fileName}) && Listing(files - {fileName}) == RemoveName(Listing(files), fileName)
  {
    hide Listing, Insert, RemoveName;
    var event :| event == Event("", "", None, "", "", "", "", 0, Idle, 0, Live, None);
    DirectoryChanges(files, Entry(fileName, 0, event));
  }

  class AgentLifecyclePublisher {
    const outbox: AgentLifecycleOutbox

    constructor (outbox: AgentLifecycleOutbox)
      ensures this.outbox == outbox
    {
      this.outbox := outbox;
    }

    /** Sends one event; the time the call takes passes whatever the answer. */
    method SubmitEvent(ghost w: World, entry: Entry) returns (answer: SubmitAnswer)
      requires outbox.Shows(w)
      modifies outbox.outside
      ensures outbox.Shows(Submit(w, outbox.outside.env, entry).0) && answer == Submit(w, outbox.outside.env, entry).1
    {
      var a := outbox.outside.Call();
      answer := a.submit;
      outbox.outside.Record(Submitted(entry, answer));
    }

    method Drain(ghost w: World) returns (result: DrainResult)
      requires outbox.Shows(w)
      modifies outbox, outbox.outside
      ensures outbox.Shows(LifecyclePipeline.Drain(w, outbox.outside.env).0)
      ensures result == LifecyclePipeline.Drain(w, outbox.outside.env).1
    {
      hide Listing, Submit, LifecyclePipeline.Acknowledge, LifecyclePipeline.Quarantine;
      var acknowledged := 0;
      var entries := outbox.List();
      ghost var env, now := outbox.outside.env, w;
      for i := 0 to |entries|
        invariant outbox.Shows(now)
        invariant DrainLoop(now, env, entries[i..], acknowledged) == LifecyclePipeline.Drain(w, env)
      {
        var entry := entries[i];
        assert entries[i..][0] == entry && entries[i..][1..] == entries[i + 1..];
        var answer := SubmitEvent(now, entry);
        now := Submit(now, env, entry).0;
        if answer.Accepted? {
          var threw := outbox.Acknowledge(now, entry);
          now := LifecyclePipeline.Acknowledge(now, env, entry).0;
          if threw {
            result := Finish(now, acknowledged, true, false);
            return;
          }
          acknowledged := acknowledged + 1;
        } else {
          if Permanent(answer) {
            var threw := outbox.Quarantine(now, entry);
            now := LifecyclePipeline.Quarantine(now, env, entry).0;
            if threw {
              return DrainThrew;
            }
          }
          result := Finish(now, acknowledged, true, ReportsGap(answer));
          return;
        }
      }
      result := Finish(now, acknowledged, false, false);
    }

    method Finish(ghost w: World, acknowledged: nat, blocked: bool, gap: bool) returns (result: DrainResult)
      requires outbox.Shows(w)
      modifies outbox.outside
      ensures outbox.Shows(EndDrain(w, acknowledged, blocked, gap).0) && result == EndDrain(w, acknowledged, blocked, gap).1
    {
      var pending := outbox.List();
      outbox.outside.Record(DrainEnded(|pending|, gap));
      return Drained(acknowledged, |pending|, blocked, gap);
    }
  }

  class AgentLifecycleRelay {
    const outside: Outside
    const outbox: AgentLifecycleOutbox
    const publisher: AgentLifecyclePublisher
    var current: Option<SourceState>
    var encoder: AgentLifecycleTransitionEncoder
    var drawn: nat
    var initialized: bool
    var connected: bool
    var retryTimer: Option<nat>
    var retryAttempt: nat
    var retryTrigger: Option<Trigger>
    var serial: seq<Operation>

    ghost predicate Valid()
      reads this, outbox
    {
      publisher.outbox == outbox && outbox.outside == outside && outbox.Valid()
    }

    /** The world the relay sees and holds. */
    ghost function State(): World
      reads this, outbox, outside, encoder
    {
      World(
        Core(outside.clock, Listing(outbox.pendingDir), outside.log, current, encoder.State(), drawn),
        outside.tick, outside.stored, initialized, connected, retryTimer, retryAttempt, retryTrigger, serial)
    }

    constructor (outside: Outside, outbox: AgentLifecycleOutbox, publisher: AgentLifecyclePublisher)
      requires publisher.outbox == outbox && outbox.outside == outside && outbox.Valid()
      ensures Valid() && fresh(encoder)
      ensures this.outside == outside && this.outbox == outbox && this.publisher == publisher
      ensures current.None? && encoder.State() == FRESH && drawn == 0 && !initialized && !connected && serial == []
      ensures retryTimer.None? && retryTrigger.None? && retryAttempt == 0
    {
      this.outside, this.outbox, this.publisher := outside, outbox, publisher;
      current, drawn, initialized, connected, serial := None, 0, false, false, [];
      retryTimer, retryAttempt, retryTrigger := None, 0, None;
      encoder := new AgentLifecycleTransitionEncoder();
    }

    method ScheduleActivationRetry(trigger: Trigger)
      requires Valid()
      modifies this`retryTimer, this`retryAttempt, this`retryTrigger
      ensures Valid() && State() == ScheduleRetry(old(State()), trigger)
    {
      if retryTrigger.None? || Priority(trigger) > Priority(retryTrigger.value) {
        retryTrigger := Some(trigger);
      }
      if retryTimer.Some? {
        return;
      }
      retryTimer := Some(RETRY_DELAYS_MS[if retryAttempt < 5 then retryAttempt else 5]);
      retryAttempt := retryAttempt + 1;
    }

    method MarkActivationConverged()
      requires Valid()
      modifies this`retryTimer, this`retryAttempt, this`retryTrigger
      ensures Valid() && State() == MarkConverged(old(State()))
    {
      retryAttempt, retryTrigger, retryTimer := 0, None, None;
    }

    method RegisterCurrent() returns (response: Option<seq<ActiveRunInfo>>)
      requires Valid()
      modifies this`current, outside
      ensures Valid()
      ensures (State(), response) == LifecyclePipeline.RegisterCurrent(old(State()), outside.env)
    {
      hide Listing;
      if current.None? {
        return None;
      }
      var answer := outside.Call();
      if answer.register.Refused? || answer.register.serverId != current.value.serverId {
        return None;
      }
      current := Some(current.value.(registered := true, updatedAt := outside.clock));
      outside.Record(Registered(current.value.generation));
      var threw := outside.SaveSource(State(), current.value);
      return if threw then None else Some(answer.register.activeRuns);
    }

    /** Stores an event through the outbox. */
    method EnqueueEvent(event: Event) returns (threw: bool)
      requires Valid()
      modifies outbox, outside
      ensures Valid() && (State(), threw) == Enqueue(old(State()), outside.env, event)
    {
      hide Listing, Insert, MakeEntry, Existing;
      threw := outbox.Enqueue(State(), event);
    }

    method DrainOutbox() returns (result: DrainResult)
      requires Valid()
      modifies outbox, outside
      ensures Valid() && (State(), result) == Drain(old(State()), outside.env)
    {
      hide Listing, DrainLoop;
      ghost var before := State();
      DrainChangesOnly(before, outside.env);
      result := publisher.Drain(State());
    }

    method ApplyCorrections(s: SourceState, corrections: seq<Correction>) returns (threw: bool)
      requires Valid()
      modifies encoder, outbox, outside
      ensures Valid() && (State(), threw) == LifecyclePipeline.ApplyCorrections(old(State()), outside.env, s, corrections)
    {
      hide Listing, Insert, Encode, Enqueue, Seed, CorrectionContext;
      ghost var before, env := State(), outside.env;
      for i := 0 to |corrections|
        invariant Valid()
        invariant LifecyclePipeline.ApplyCorrections(State(), env, s, corrections[i..]) == LifecyclePipeline.ApplyCorrections(before, env, s, corrections)
      {
        var correction := corrections[i];
        assert corrections[i..][0] == correction && corrections[i..][1..] == corrections[i + 1..];
        var context := CorrectionContext(s.serverId, s.generation, correction.run, outside.clock);
        if correction.Disappeared? {
          encoder.SeedActiveRun(PROVIDER, context, correction.run.status);
        }
        var outcome := encoder.Observe(PROVIDER, Observe(CorrectionSignal(correction)), context);
        if outcome.Invalid? {
          return true;
        }
        if outcome.Emitted? {
          var failed := EnqueueEvent(outcome.event);
          if failed {
            return true;
          }
        }
      }
      return false;
    }

    method Reconcile(checkpoint: seq<ActiveRunInfo>)
      requires Valid()
      modifies this`retryTimer, this`retryAttempt, this`retryTrigger, encoder, outbox, outside
      ensures Valid() && State() == LifecyclePipeline.Reconcile(old(State()), outside.env, checkpoint)
    {
      hide Listing, LifecyclePipeline.ApplyCorrections, Drain, Plan, ScheduleRetry;
      if current.None? || !outside.env.canQuery {
        return;
      }
      var observed := outside.Call();
      if observed.runs.None? {
        return;
      }
      var corrections := PlanAgentLifecycleReconciliation(checkpoint, observed.runs.value);
      var threw := ApplyCorrections(current.value, corrections);
      if threw {
        return;
      }
      var result := DrainOutbox();
      if result.DrainThrew? {
        return;
      }
      if result.gap {
        ScheduleActivationRetry(SequenceGap);
      } else if result.pending > 0 {
        ScheduleActivationRetry(Anomaly);
      }
    }

    method StartGeneration(trigger: Trigger) returns (threw: bool)
      requires Valid()
      modifies this, encoder, outbox, outside
      ensures Valid() && fresh(encoder)
      ensures (State(), threw) == LifecyclePipeline.StartGeneration(old(State()), outside.env, trigger)
    {
      hide Listing, Drain, LifecyclePipeline.Reconcile, ScheduleRetry, MarkConverged, LifecyclePipeline.RegisterCurrent;
      encoder := new AgentLifecycleTransitionEncoder();
      var response := RegisterCurrent();
      if response.None? {
        ScheduleActivationRetry(trigger);
        return false;
      }
      var result := DrainOutbox();
      if result.DrainThrew? {
        return true;
      }
      MarkActivationConverged();
      Reconcile(response.value);
      return false;
    }

    method StartFirstGeneration(trigger: Trigger, activeRuns: seq<ActiveRunInfo>)
      requires Valid()
      modifies this, encoder, outbox, outside
      ensures Valid() && fresh(encoder)
      ensures State() == LifecyclePipeline.StartFirstGeneration(old(State()), outside.env, trigger, activeRuns)
    {
      hide Listing, Drain, LifecyclePipeline.Reconcile, ScheduleRetry, MarkConverged;
      encoder := new AgentLifecycleTransitionEncoder();
      var result := DrainOutbox();
      if result.DrainThrew? {
        ScheduleActivationRetry(trigger);
        return;
      }
      MarkActivationConverged();
      Reconcile(activeRuns);
    }

    /** Saves the current generation's state. */
    method SaveCurrent() returns (threw: bool)
      requires Valid() && current.Some?
      modifies outside
      ensures Valid() && (State(), threw) == Save(old(State()), outside.env, current.value)
    {
      hide Listing;
      threw := outside.SaveSource(State(), current.value);
    }

    /** Replaces the current generation by a new one. */
    method ReplaceGeneration(trigger: Trigger) returns (threw: bool)
      requires Valid() && current.Some?
      modifies this, encoder, outbox, outside
      ensures Valid() && (encoder == old(encoder) || fresh(encoder))
      ensures (State(), threw) == OpenGeneration(old(State()), outside.env, trigger)
    {
      hide Listing, LifecyclePipeline.StartGeneration, Save;
      var previous := current.value;
      current := Some(SourceState(previous.serverId, outside.env.ids(drawn), false, outside.clock));
      drawn := drawn + 1;
      outside.Record(Opened(current.value.generation, Some(previous.generation)));
      threw := SaveCurrent();
      if !threw {
        threw := StartGeneration(trigger);
      }
    }

    /** Takes over a first generation that has just been registered. */
    method AdoptGeneration(state: SourceState)
      requires Valid()
      modifies this`current, outside`log
      ensures Valid() && current == Some(state)
      ensures State() == Log(Log(SetCurrent(old(State()), state), Opened(state.generation, None)), Registered(state.generation))
    {
      hide Listing, Filed;
      current := Some(state);
      outside.Record(Opened(state.generation, None));
      outside.Record(Registered(state.generation));
    }

    /** Opens the first generation; the server identity comes from its registration. */
    method BootstrapGeneration(trigger: Trigger)
      requires Valid() && current.None?
      modifies this, encoder, outbox, outside
      ensures Valid() && (encoder == old(encoder) || fresh(encoder))
      ensures (State(), false) == OpenGeneration(old(State()), outside.env, trigger)
    {
      hide Listing, Filed, LifecyclePipeline.StartFirstGeneration, ScheduleRetry, Save, Log, SetCurrent;
      var generation, updatedAt := outside.env.ids(drawn), outside.clock;
      drawn := drawn + 1;
      var answer := outside.Call();
      if answer.register.Refused? {
        ScheduleActivationRetry(trigger);
        return;
      }
      AdoptGeneration(SourceState(answer.register.serverId, generation, true, updatedAt));
      var threw := SaveCurrent();
      if threw {
        ScheduleActivationRetry(trigger);
      } else {
        StartFirstGeneration(trigger, answer.register.activeRuns);
      }
    }

    /** Registers a generation that is stored but not registered, and replays what is pending. */
    method ResumeGeneration(trigger: Trigger) returns (threw: bool)
      requires Valid() && initialized && current.Some? && !current.value.registered
      modifies this, encoder, outbox, outside
      ensures Valid() && encoder == old(encoder)
      ensures (State(), threw) == LifecyclePipeline.ActivateGeneration(old(State()), outside.env, trigger)
    {
      hide Listing, Drain, LifecyclePipeline.Reconcile, ScheduleRetry, MarkConverged, LifecyclePipeline.RegisterCurrent, OpenGeneration;
      var response := RegisterCurrent();
      if response.None? {
        ScheduleActivationRetry(trigger);
        return false;
      }
      var replay := DrainOutbox();
      if replay.DrainThrew? {
        return true;
      }
      if !replay.gap && replay.pending > 0 {
        ScheduleActivationRetry(trigger);
        return false;
      }
      MarkActivationConverged();
      Reconcile(response.value);
      return false;
    }

    method ActivateGeneration(requestedTrigger: Trigger) returns (threw: bool)
      requires Valid()
      modifies this, encoder, outbox, outside
      ensures Valid() && (encoder == old(encoder) || fresh(encoder))
      ensures (State(), threw) == LifecyclePipeline.ActivateGeneration(old(State()), outside.env, requestedTrigger)
    {
      hide Listing, Drain, LifecyclePipeline.Reconcile, ScheduleRetry, MarkConverged, LifecyclePipeline.RegisterCurrent, OpenGeneration;
      var trigger := requestedTrigger;
      if !initialized {
        current := outside.stored;
        initialized := true;
      }
      if current.None? {
        BootstrapGeneration(trigger);
        return false;
      }
      if !current.value.registered {
        threw := ResumeGeneration(trigger);
        return;
      }
      var replay := DrainOutbox();
      if replay.DrainThrew? {
        return true;
      }
      if replay.gap {
        trigger := SequenceGap;
      } else if replay.pending > 0 {
        ScheduleActivationRetry(trigger);
        return false;
      }
      threw := ReplaceGeneration(trigger);
    }

    method ActivateConnected(trigger: Trigger) returns (threw: bool)
      requires Valid()
      modifies this, encoder, outbox, outside
      ensures Valid() && (encoder == old(encoder) || fresh(encoder))
      ensures (State(), threw) == LifecyclePipeline.ActivateConnected(old(State()), outside.env, trigger)
    {
      hide Listing, LifecyclePipeline.ActivateGeneration, ScheduleRetry;
      if !connected {
        return false;
      }
      var answer := outside.Call();
      if !answer.subscribed {
        ScheduleActivationRetry(trigger);
        return false;
      }
      threw := ActivateGeneration(trigger);
    }

    method PublishFrame(observation: Observed) returns (threw: bool)
      requires Valid() && current.Some?
      modifies this, encoder, outbox, outside
      ensures Valid() && (encoder == old(encoder) || fresh(encoder))
      ensures (State(), threw) == LifecyclePipeline.PublishFrame(old(State()), outside.env, observation)
    {
      hide Listing, Drain, ScheduleRetry, LifecyclePipeline.RegisterCurrent, LifecyclePipeline.ActivateGeneration, Enqueue, Encode, Observe;
      ghost var before := State();
      EnqueueChangesOnly(SetEncoder(before, Encode(before.core.encoder, PROVIDER, Observe(observation.signal), FrameContext(current.value, observation)).0),
        outside.env, Encode(before.core.encoder, PROVIDER, Observe(observation.signal), FrameContext(current.value, observation)).1);
      var outcome := encoder.Observe(PROVIDER, Observe(observation.signal), FrameContext(current.value, observation));
      if !outcome.Emitted? {
        return outcome.Invalid?;
      }
      var failed := EnqueueEvent(outcome.event);
      if failed {
        return true;
      }
      if !current.value.registered {
        var response := RegisterCurrent();
        if response.None? {
          ScheduleActivationRetry(Anomaly);
          return false;
        }
      }
      var result := DrainOutbox();
      if result.DrainThrew? {
        return true;
      }
      threw := false;
      if result.gap {
        threw := ActivateGeneration(SequenceGap);
      } else if result.pending > 0 {
        ScheduleActivationRetry(Anomaly);
      }
    }

    method ProcessFrame(frame: Option<Observed>) returns (threw: bool)
      requires Valid()
      modifies this, encoder, outbox, outside
      ensures Valid() && (encoder == old(encoder) || fresh(encoder))
      ensures (State(), threw) == LifecyclePipeline.ProcessFrame(old(State()), outside.env, frame)
    {
      hide Listing, LifecyclePipeline.PublishFrame, LifecyclePipeline.ActivateGeneration;
      if frame.None? {
        return false;
      }
      if current.None? {
        threw := ActivateGeneration(StartupOrReconnect);
        if threw || current.None? {
          return;
        }
      }
      threw := PublishFrame(frame.value);
    }

    // ----- the outside world's calls

    method HandleGatewayEvent(frame: Option<Observed>)
      requires Valid()
      modifies this`serial
      ensures Valid() && State() == React(old(State()), outside.env, GatewayEvent(frame))
    {
      serial := serial + [FrameOp(frame)];
    }

    method HandleGatewayConnectionStateChange(isConnected: bool)
      requires Valid()
      modifies this`serial, this`connected
      ensures Valid() && State() == React(old(State()), outside.env, ConnectionChange(isConnected))
    {
      if isConnected == connected {
        return;
      }
      connected := isConnected;
      if isConnected {
        serial := serial + [ActivateOp(StartupOrReconnect)];
      }
    }

    /** The armed retry timer fires. */
    method OnRetryTimer()
      requires Valid()
      modifies this`serial, this`retryTimer, this`retryTrigger
      ensures Valid() && State() == React(old(State()), outside.env, TimerFires)
    {
      if retryTimer.Some? {
        retryTimer := None;
        var nextTrigger := if retryTrigger.Some? then retryTrigger.value else Anomaly;
        retryTrigger := None;
        serial := serial + [ActivateOp(nextTrigger)];
      }
    }

    /** The chain runs its next operation; what it throws is logged and dropped. */
    method RunNext()
      requires Valid()
      modifies this, encoder, outbox, outside
      ensures Valid() && (encoder == old(encoder) || fresh(encoder))
      ensures State() == React(old(State()), outside.env, ChainTurn)
    {
      hide Listing, LifecyclePipeline.ProcessFrame, LifecyclePipeline.ActivateConnected;
      if serial == [] {
        return;
      }
      var operation := serial[0];
      serial := serial[1..];
      var threw;
      match operation {
        case FrameOp(frame) => threw := ProcessFrame(frame);
        case ActivateOp(trigger) => threw := ActivateConnected(trigger);
      }
    }
  }

  /** The variables an operation on the outbox cannot touch. */
  ghost predicate SameVariables(w: World, v: World) {
    && w.core.current == v.core.current
    && w.core.encoder == v.core.encoder
    && w.core.drawn == v.core.drawn
    && w == v.(core := w.core, tick := w.tick)
  }

  lemma {:induction false} DrainLoopChangesOnly(w: World, env: Env, entries: seq<Entry>, acknowledged: nat)
    ensures SameVariables(DrainLoop(w, env, entries, acknowledged).0, w)
    decreases |entries|
  {
    hide RemoveName;
    if entries != [] {
      var (submitted, answer) := Submit(w, env, entries[0]);
      if answer.Accepted? {
        var (removed, threw) := LifecyclePipeline.Acknowledge(submitted, env, entries[0]);
        DrainLoopChangesOnly(removed, env, entries[1..], acknowledged + 1);
      }
    }
  }

  lemma DrainChangesOnly(w: World, env: Env)
    ensures SameVariables(Drain(w, env).0, w)
  {
    hide DrainLoop;
    DrainLoopChangesOnly(w, env, w.core.pending, 0);
  }

  lemma EnqueueChangesOnly(w: World, env: Env, outcome: Outcome)
    ensures outcome.Emitted? ==> SameVariables(Enqueue(w, env, outcome.event).0, w)
  {
    hide Insert, MakeEntry, Existing;
  }
}
