/**
 What the relay's operations do to the world around them. Every call that leaves the process is answered by an
 adversary, and every operation is the whole of what one turn of the relay's promise chain does.
 */
module LifecyclePipeline {
  import opened Options
  import opened LifecycleContract
  import opened OpenClawAdapter
  import opened TransitionEncoder
  import opened Reconciliation
  import opened LifecycleOutbox

  // ----- the world

  datatype SourceState = SourceState(serverId: string, generation: string, registered: bool, updatedAt: nat)

  /** How a change to a directory ends: done, thrown before anything changed, or thrown after the change was made. */
  datatype FileAnswer = Done | FailedBefore | FailedAfter

  datatype SubmitAnswer = Accepted | Rejected(status: int, gap: bool) | NoAnswer

  datatype RegisterAnswer = Refused | Granted(serverId: string, activeRuns: seq<ActiveRunInfo>)

  datatype Answer = Answer(
    file: FileAnswer,
    submit: SubmitAnswer,
    register: RegisterAnswer,
    runs: Option<seq<ActiveRunInfo>>,
    subscribed: bool,
    elapsed: nat)

  /** The adversary: the answer to each call, the ids the relay draws, and the fixed settings. */
  datatype Env = Env(answers: nat -> Answer, ids: nat -> string, digest: Digest, maxPending: nat, canQuery: bool)

  /** What the outside can see happen, in order. */
  datatype Action =
    | Registered(generation: string)
    | Opened(generation: string, previous: Option<string>)
    | Stored(entry: Entry)
    | Submitted(entry: Entry, answer: SubmitAnswer)
    | Removed(entry: Entry)
    | Quarantined(entry: Entry)
    | DrainEnded(pending: nat, gap: bool)

  datatype Trigger = StartupOrReconnect | Anomaly | SequenceGap

  datatype Observed = Observed(signal: Signal, agentId: Option<string>, sessionId: string, runId: string, occurredAt: int)

  datatype Operation = FrameOp(frame: Option<Observed>) | ActivateOp(trigger: Trigger)

  /** What ordering and succession are about. */
  datatype Core = Core(
    clock: nat,
    pending: seq<Entry>,
    log: seq<Action>,
    current: Option<SourceState>,
    encoder: Encoder,
    drawn: nat)

  datatype World = World(
    core: Core,
    tick: nat,
    stored: Option<SourceState>,
    initialized: bool,
    connected: bool,
    timer: Option<nat>,
    attempt: nat,
    retry: Option<Trigger>,
    queue: seq<Operation>)

  // ----- calls that leave the process

  function Reply(w: World, env: Env): Answer {
    env.answers(w.tick)
  }

  /** The call has been answered: its time has passed. */
  function Called(w: World, env: Env): World {
    w.(tick := w.tick + 1, core := w.core.(clock := w.core.clock + Reply(w, env).elapsed))
  }

  function Log(w: World, a: Action): World {
    w.(core := w.core.(log := w.core.log + [a]))
  }

  /** Stores an event; true when it threw. */
  function Enqueue(w: World, env: Env, event: Event): (World, bool) {
    var existing := Existing(w.core.pending, event);
    if existing.Some? then (w, existing.value.event != event)
    else if |w.core.pending| >= env.maxPending then (w, true)
    else
      var a := Reply(w, env).file;
      var entry := MakeEntry(env.digest, w.core.clock, event);
      var stored := Log(w.(core := w.core.(pending := Insert(w.core.pending, entry))), Stored(entry));
      (Called(if a.FailedBefore? then w else stored, env), !a.Done?)
  }

  function Submit(w: World, env: Env, entry: Entry): (World, SubmitAnswer) {
    var a := Reply(w, env).submit;
    (Called(Log(w, Submitted(entry, a)), env), a)
  }

  function Unlink(w: World, entry: Entry): World {
    w.(core := w.core.(pending := RemoveName(w.core.pending, entry.fileName)))
  }

  /** Deletes the file of an accepted event; true when it threw. */
  function Acknowledge(w: World, env: Env, entry: Entry): (World, bool) {
    var a := Reply(w, env).file;
    (Called(if a.FailedBefore? then w else Log(Unlink(w, entry), Removed(entry)), env), !a.Done?)
  }

  /** Moves the file of a refused event away; true when it threw. */
  function Quarantine(w: World, env: Env, entry: Entry): (World, bool) {
    var a := Reply(w, env).file;
    (Called(if a.FailedBefore? then w else Log(Unlink(w, entry), Quarantined(entry)), env), !a.Done?)
  }

  /** Saves the source state; true when it threw. */
  function Save(w: World, env: Env, state: SourceState): (World, bool) {
    var a := Reply(w, env).file;
    (Called(if a.FailedBefore? then w else w.(stored := Some(state)), env), !a.Done?)
  }

  // ----- the publisher

  datatype DrainResult = DrainThrew | Drained(acknowledged: nat, pending: nat, blocked: bool, gap: bool)

  predicate Permanent(a: SubmitAnswer) {
    a.Rejected? && a.status in {400, 422}
  }

  predicate ReportsGap(a: SubmitAnswer) {
    a.Rejected? && a.gap
  }

  function EndDrain(w: World, acknowledged: nat, blocked: bool, gap: bool): (World, DrainResult) {
    (Log(w, DrainEnded(|w.core.pending|, gap)), Drained(acknowledged, |w.core.pending|, blocked, gap))
  }

  /** Submits the listed entries in order and stops at the first that is not accepted and removed. */
  function DrainLoop(w: World, env: Env, entries: seq<Entry>, acknowledged: nat): (World, DrainResult)
    decreases |entries|
  {
    if entries == [] then EndDrain(w, acknowledged, false, false) else
      var (submitted, answer) := Submit(w, env, entries[0]);
      if answer.Accepted? then
        var (removed, threw) := Acknowledge(submitted, env, entries[0]);
        if threw then EndDrain(removed, acknowledged, true, false)
        else DrainLoop(removed, env, entries[1..], acknowledged + 1)
      else if Permanent(answer) then
        var (moved, threw) := Quarantine(submitted, env, entries[0]);
        if threw then (moved, DrainThrew) else EndDrain(moved, acknowledged, true, ReportsGap(answer))
      else EndDrain(submitted, acknowledged, true, ReportsGap(answer))
  }

  function Drain(w: World, env: Env): (World, DrainResult) {
    DrainLoop(w, env, w.core.pending, 0)
  }

  // ----- the retry timer

  const RETRY_DELAYS_MS: seq<nat> := [1_000, 2_000, 5_000, 10_000, 30_000, 60_000]

  function Priority(t: Trigger): nat {
    match t
    case StartupOrReconnect => 1
    case Anomaly => 2
    case SequenceGap => 3
  }

  function ScheduleRetry(w: World, trigger: Trigger): World {
    var raised := if w.retry.None? || Priority(trigger) > Priority(w.retry.value) then w.(retry := Some(trigger)) else w;
    if raised.timer.Some? then raised else
      raised.(timer := Some(RETRY_DELAYS_MS[if w.attempt < 5 then w.attempt else 5]), attempt := w.attempt + 1)
  }

  function MarkConverged(w: World): World {
    w.(attempt := 0, retry := None, timer := None)
  }

  // ----- the relay

  function SetCurrent(w: World, s: SourceState): World {
    w.(core := w.core.(current := Some(s)))
  }

  function SetEncoder(w: World, e: Encoder): World {
    w.(core := w.core.(encoder := e))
  }

  /** Registers the current generation; the backend's active runs, or nothing when that failed. */
  function RegisterCurrent(w: World, env: Env): (World, Option<seq<ActiveRunInfo>>) {
    if w.core.current.None? then (w, None) else
      var s := w.core.current.value;
      var a := Reply(w, env).register;
      var answered := Called(w, env);
      if a.Refused? || a.serverId != s.serverId then (answered, None)
      else
        var state := s.(registered := true, updatedAt := answered.core.clock);
        var (saved, threw) := Save(Log(SetCurrent(answered, state), Registered(s.generation)), env, state);
        (saved, if threw then None else Some(a.activeRuns))
  }

  /** Encodes and stores the corrections in order; true when the loop threw. */
  function ApplyCorrections(w: World, env: Env, s: SourceState, corrections: seq<Correction>): (World, bool)
    decreases |corrections|
  {
    if corrections == [] then (w, false) else
      var (e, outcome) := Correct(w.core.encoder, s.serverId, s.generation, corrections[0], w.core.clock);
      var encoded := SetEncoder(w, e);
      if outcome.Invalid? then (encoded, true)
      else if outcome.Silent? then ApplyCorrections(encoded, env, s, corrections[1..])
      else
        var (stored, threw) := Enqueue(encoded, env, outcome.event);
        if threw then (stored, true) else ApplyCorrections(stored, env, s, corrections[1..])
  }

  function Reconcile(w: World, env: Env, checkpoint: seq<ActiveRunInfo>): World {
    if w.core.current.None? || !env.canQuery then w else
      var observed := Reply(w, env).runs;
      var queried := Called(w, env);
      if observed.None? then queried else
        var (applied, threw) := ApplyCorrections(queried, env, w.core.current.value, Plan(checkpoint, observed.value));
        if threw then applied else
          var (drained, result) := Drain(applied, env);
          if result.DrainThrew? then drained
          else if result.gap then ScheduleRetry(drained, SequenceGap)
          else if result.pending > 0 then ScheduleRetry(drained, Anomaly)
          else drained
  }

  function Load(w: World): World {
    if w.initialized then w else w.(core := w.core.(current := w.stored), initialized := true)
  }

  /** A new generation has been saved: a fresh encoder, registration, replay, reconciliation. */
  function StartGeneration(w: World, env: Env, trigger: Trigger): (World, bool) {
    var (registered, response) := RegisterCurrent(SetEncoder(w, FRESH), env);
    if response.None? then (ScheduleRetry(registered, trigger), false) else
      var (drained, result) := Drain(registered, env);
      if result.DrainThrew? then (drained, true)
      else (Reconcile(MarkConverged(drained), env, response.value), false)
  }

  /** The first generation has been saved, already registered: a fresh encoder, replay, reconciliation. */
  function StartFirstGeneration(w: World, env: Env, trigger: Trigger, activeRuns: seq<ActiveRunInfo>): World {
    var (drained, result) := Drain(SetEncoder(w, FRESH), env);
    if result.DrainThrew? then ScheduleRetry(drained, trigger)
    else Reconcile(MarkConverged(drained), env, activeRuns)
  }

  /** The rest of an activation once the current generation, if any, has been drained. */
  function OpenGeneration(w: World, env: Env, trigger: Trigger): (World, bool) {
    var generation, updatedAt := env.ids(w.core.drawn), w.core.clock;
    var drawn := w.(core := w.core.(drawn := w.core.drawn + 1));
    if w.core.current.Some? then
      var s := w.core.current.value;
      var state := SourceState(s.serverId, generation, false, updatedAt);
      var (saved, threw) := Save(Log(SetCurrent(drawn, state), Opened(generation, Some(s.generation))), env, state);
      if threw then (saved, true) else StartGeneration(saved, env, trigger)
    else
      var a := Reply(drawn, env).register;
      if a.Refused? then (ScheduleRetry(Called(drawn, env), trigger), false) else
        var state := SourceState(a.serverId, generation, true, updatedAt);
        var adopted := Log(Log(SetCurrent(Called(drawn, env), state), Opened(generation, None)), Registered(generation));
        var (saved, threw) := Save(adopted, env, state);
        if threw then (ScheduleRetry(saved, trigger), false) else (StartFirstGeneration(saved, env, trigger, a.activeRuns), false)
  }

  /** Registers, replays, opens and reconciles; true when it threw. */
  function ActivateGeneration(w: World, env: Env, trigger: Trigger): (World, bool) {
    var loaded := Load(w);
    if loaded.core.current.Some? && !loaded.core.current.value.registered then
      var (registered, response) := RegisterCurrent(loaded, env);
      if response.None? then (ScheduleRetry(registered, trigger), false) else
        var (replayed, result) := Drain(registered, env);
        if result.DrainThrew? then (replayed, true)
        else if !result.gap && result.pending > 0 then (ScheduleRetry(replayed, trigger), false)
        else (Reconcile(MarkConverged(replayed), env, response.value), false)
    else if loaded.core.current.Some? then
      var (replayed, result) := Drain(loaded, env);
      if result.DrainThrew? then (replayed, true)
      else if !result.gap && result.pending > 0 then (ScheduleRetry(replayed, trigger), false)
      else OpenGeneration(replayed, env, if result.gap then SequenceGap else trigger)
    else OpenGeneration(loaded, env, trigger)
  }

  function ActivateConnected(w: World, env: Env, trigger: Trigger): (World, bool) {
    if !w.connected then (w, false)
    else if !Reply(w, env).subscribed then (ScheduleRetry(Called(w, env), trigger), false)
    else ActivateGeneration(Called(w, env), env, trigger)
  }

  function FrameContext(s: SourceState, o: Observed): Context {
    Context(s.serverId, o.agentId, o.sessionId, o.runId, s.generation, o.occurredAt, Live)
  }

  /** What a frame leads to once there is a current generation. */
  function PublishFrame(w: World, env: Env, o: Observed): (World, bool)
    requires w.core.current.Some?
  {
    var (e, outcome) := Encode(w.core.encoder, PROVIDER, Observe(o.signal), FrameContext(w.core.current.value, o));
    var encoded := SetEncoder(w, e);
    if !outcome.Emitted? then (encoded, outcome.Invalid?) else
      var (stored, threw) := Enqueue(encoded, env, outcome.event);
      if threw then (stored, true) else
        var (registered, response) := if w.core.current.value.registered then (stored, Some([])) else RegisterCurrent(stored, env);
        if response.None? then (ScheduleRetry(registered, Anomaly), false) else
          var (drained, result) := Drain(registered, env);
          if result.DrainThrew? then (drained, true)
          else if result.gap then ActivateGeneration(drained, env, SequenceGap)
          else if result.pending > 0 then (ScheduleRetry(drained, Anomaly), false)
          else (drained, false)
  }

  /** A gateway frame; frames that carry no lifecycle signal do nothing. */
  function ProcessFrame(w: World, env: Env, frame: Option<Observed>): (World, bool) {
    if frame.None? then (w, false)
    else if w.core.current.Some? then PublishFrame(w, env, frame.value)
    else
      var (activated, threw) := ActivateGeneration(w, env, StartupOrReconnect);
      if threw || activated.core.current.None? then (activated, threw) else PublishFrame(activated, env, frame.value)
  }

  // ----- the promise chain

  datatype Stimulus = GatewayEvent(frame: Option<Observed>) | ConnectionChange(connected: bool) | TimerFires | ChainTurn

  function RunOperation(w: World, env: Env, op: Operation): World {
    match op
    case FrameOp(frame) => ProcessFrame(w, env, frame).0
    case ActivateOp(trigger) => ActivateConnected(w, env, trigger).0
  }

  /** Operations queue up behind one another; a chain turn runs the first of them, whether or not it throws. */
  function React(w: World, env: Env, s: Stimulus): World {
    match s
    case GatewayEvent(frame) => w.(queue := w.queue + [FrameOp(frame)])
    case ConnectionChange(connected) =>
      if connected == w.connected then w
      else w.(connected := connected, queue := if connected then w.queue + [ActivateOp(StartupOrReconnect)] else w.queue)
    case TimerFires =>
      if w.timer.None? then w
      else w.(timer := None, retry := None, queue := w.queue + [ActivateOp(if w.retry.Some? then w.retry.value else Anomaly)])
    case ChainTurn =>
      if w.queue == [] then w else RunOperation(w.(queue := w.queue[1..]), env, w.queue[0])
  }

  function Run(w: World, env: Env, stimuli: seq<Stimulus>): World {
    if stimuli == [] then w else
      React(Run(w, env, stimuli[..|stimuli| - 1]), env, stimuli[|stimuli| - 1])
  }
}
