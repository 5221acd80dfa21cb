/** Lifecycle events, what the event schema accepts, and the transitions a run may make. */
module LifecycleContract {
  import opened Options
  import opened Text

  datatype Status = Idle | Running | Waiting | Completed | Failed | Cancelled

  predicate IsActive(s: Status) {
    s == Running || s == Waiting
  }

  predicate IsTerminal(s: Status) {
    s in {Completed, Failed, Cancelled}
  }

  datatype Origin = Live | Reconciliation

  datatype Diagnostics = Diagnostics(
    nativeEvent: Option<string>,
    nativeStatus: Option<string>,
    reasonCode: Option<string>)

  datatype Event = Event(
    eventId: string,
    serverId: string,
    agentId: Option<string>,
    provider: string,
    sessionId: string,
    runId: string,
    generation: string,
    sequence: nat,
    status: Status,
    occurredAt: int,
    origin: Origin,
    diagnostics: Option<Diagnostics>)

  const MAX_SAFE_INTEGER: nat := 9_007_199_254_740_991

  /** A string the schema takes as an identifier exactly as it stands. */
  predicate IsIdentifier(s: string) {
    Trimmed(s) && 1 <= |s| <= 200
  }

  /** Trims, then accepts between one and max characters. */
  function ParseBounded(s: string, max: nat): (r: Option<string>)
    ensures r.Some? ==> Trimmed(r.value) && 1 <= |r.value| <= max
    ensures Trimmed(s) && 1 <= |s| <= max ==> r == Some(s)
  {
    TrimIsTrimmed(s);
    if 1 <= |Trim(s)| <= max then Some(Trim(s)) else None
  }

  predicate IsProvider(s: string) {
    && 1 <= |s| <= 64
    && 'a' <= s[0] <= 'z'
    && forall i :: 1 <= i < |s| ==> 'a' <= s[i] <= 'z' || '0' <= s[i] <= '9' || s[i] == '_' || s[i] == '-'
  }

  /** An absent field passes; a present one must parse. */
  function ParseOptional(s: Option<string>, max: nat): Option<Option<string>> {
    if s.None? then Some(None)
    else if ParseBounded(s.value, max).None? then None
    else Some(ParseBounded(s.value, max))
  }

  function ParseDiagnostics(d: Option<Diagnostics>): Option<Option<Diagnostics>> {
    if d.None? then Some(None) else
      var event := ParseOptional(d.value.nativeEvent, 128);
      var status := ParseOptional(d.value.nativeStatus, 128);
      var reason := ParseOptional(d.value.reasonCode, 128);
      if event.None? || status.None? || reason.None? then None
      else Some(Some(Diagnostics(event.value, status.value, reason.value)))
  }

  /** The event schema: the event with its text fields trimmed, or nothing when it is refused. */
  function ParseEvent(e: Event): (r: Option<Event>)
    ensures r.Some? ==> r.value.sequence == e.sequence && r.value.status == e.status && 1 <= e.sequence <= MAX_SAFE_INTEGER
    ensures r.Some? && IsIdentifier(e.eventId) ==> r.value.eventId == e.eventId
    ensures r.Some? && Trimmed(e.generation) ==> r.value.generation == e.generation
    ensures r.Some? && IsIdentifier(e.runId) ==> r.value.runId == e.runId
    ensures r.Some? ==> |r.value.eventId| <= 200
  {
    TrimIsTrimmed(e.generation);
    var eventId := ParseBounded(e.eventId, 200);
    var serverId := ParseBounded(e.serverId, 200);
    var agentId := ParseOptional(e.agentId, 200);
    var sessionId := ParseBounded(e.sessionId, 200);
    var runId := ParseBounded(e.runId, 200);
    var generation := ParseBounded(e.generation, 200);
    var diagnostics := ParseDiagnostics(e.diagnostics);
    if eventId.None? || serverId.None? || agentId.None? || sessionId.None? || runId.None? || generation.None? || diagnostics.None? then
      None
    else if !IsProvider(e.provider) || !(1 <= e.sequence <= MAX_SAFE_INTEGER) || e.status == Idle then
      None
    else
      Some(e.(
        eventId := eventId.value, serverId := serverId.value, agentId := agentId.value, sessionId := sessionId.value,
        runId := runId.value, generation := generation.value, diagnostics := diagnostics.value))
  }

  predicate IsLabel(s: Option<string>) {
    s.Some? ==> Trimmed(s.value) && 1 <= |s.value| <= 128
  }

  predicate TrimmedFrom(s: Option<string>, candidate: Option<string>) {
    && (s.None? <==> candidate.None?)
    && (s.Some? ==> s.value == Trim(candidate.value))
  }

  predicate IsParsedDiagnostics(d: Option<Diagnostics>, candidate: Option<Diagnostics>) {
    && (d.None? <==> candidate.None?)
    && (d.Some? ==>
          && IsLabel(d.value.nativeEvent) && TrimmedFrom(d.value.nativeEvent, candidate.value.nativeEvent)
          && IsLabel(d.value.nativeStatus) && TrimmedFrom(d.value.nativeStatus, candidate.value.nativeStatus)
          && IsLabel(d.value.reasonCode) && TrimmedFrom(d.value.reasonCode, candidate.value.reasonCode))
  }

  /** What an accepted event is: its candidate with every text field trimmed, and every field within its bounds. */
  predicate IsParsedEvent(e: Event, candidate: Event) {
    && IsIdentifier(e.eventId) && e.eventId == Trim(candidate.eventId)
    && IsIdentifier(e.serverId) && e.serverId == Trim(candidate.serverId)
    && (e.agentId.Some? ==> IsIdentifier(e.agentId.value)) && TrimmedFrom(e.agentId, candidate.agentId)
    && IsProvider(e.provider) && e.provider == candidate.provider
    && IsIdentifier(e.sessionId) && e.sessionId == Trim(candidate.sessionId)
    && IsIdentifier(e.runId) && e.runId == Trim(candidate.runId)
    && IsIdentifier(e.generation) && e.generation == Trim(candidate.generation)
    && 1 <= e.sequence <= MAX_SAFE_INTEGER && e.sequence == candidate.sequence
    && e.status != Idle && e.status == candidate.status
    && e.occurredAt == candidate.occurredAt && e.origin == candidate.origin
    && IsParsedDiagnostics(e.diagnostics, candidate.diagnostics)
  }

  predicate IsBounded(s: string, max: nat) {
    1 <= |Trim(s)| <= max
  }

  predicate IsAbsentOrBounded(s: Option<string>, max: nat) {
    s.Some? ==> IsBounded(s.value, max)
  }

  /** Whether a candidate is accepted: each of its fields, once trimmed, is within its bounds. */
  predicate IsAcceptable(e: Event) {
    && IsBounded(e.eventId, 200) && IsBounded(e.serverId, 200) && IsAbsentOrBounded(e.agentId, 200)
    && IsProvider(e.provider)
    && IsBounded(e.sessionId, 200) && IsBounded(e.runId, 200) && IsBounded(e.generation, 200)
    && 1 <= e.sequence <= MAX_SAFE_INTEGER && e.status != Idle
    && (e.diagnostics.Some? ==>
          && IsAbsentOrBounded(e.diagnostics.value.nativeEvent, 128)
          && IsAbsentOrBounded(e.diagnostics.value.nativeStatus, 128)
          && IsAbsentOrBounded(e.diagnostics.value.reasonCode, 128))
  }

  lemma ParsedIsTrimmed(s: string, max: nat)
    ensures ParseBounded(s, max).Some? <==> IsBounded(s, max)
    ensures IsBounded(s, max) ==> ParseBounded(s, max) == Some(Trim(s)) && Trimmed(Trim(s))
  {
    hide Trimmed, Trim;
    TrimmedOnce(s);
  }

  lemma TrimmedOnce(s: string)
    ensures Trimmed(Trim(s))
  {
    hide Trim;
    var front, back := TrimSplits(s);
  }

  lemma OptionalIsTrimmed(s: Option<string>, max: nat)
    ensures ParseOptional(s, max).Some? <==> IsAbsentOrBounded(s, max)
    ensures IsAbsentOrBounded(s, max) ==>
              var r := ParseOptional(s, max).value;
              TrimmedFrom(r, s) && (r.Some? ==> Trimmed(r.value) && 1 <= |r.value| <= max)
  {
    hide Trim, Trimmed, ParseBounded;
    if s.Some? {
      ParsedIsTrimmed(s.value, max);
    }
  }

  lemma DiagnosticsAreTrimmed(d: Option<Diagnostics>)
    ensures ParseDiagnostics(d).Some? <==>
              (d.Some? ==>
                 && IsAbsentOrBounded(d.value.nativeEvent, 128)
                 && IsAbsentOrBounded(d.value.nativeStatus, 128)
                 && IsAbsentOrBounded(d.value.reasonCode, 128))
    ensures ParseDiagnostics(d).Some? ==> IsParsedDiagnostics(ParseDiagnostics(d).value, d)
  {
    hide Trim, Trimmed, ParseOptional, IsAbsentOrBounded;
    if d.Some? {
      OptionalIsTrimmed(d.value.nativeEvent, 128);
      OptionalIsTrimmed(d.value.nativeStatus, 128);
      OptionalIsTrimmed(d.value.reasonCode, 128);
    }
  }

  /** The schema takes exactly the acceptable candidates, and what it gives back is the candidate trimmed. */
  lemma ParsedEventIsTrimmed(candidate: Event)
    ensures ParseEvent(candidate).Some? <==> IsAcceptable(candidate)
    ensures ParseEvent(candidate).Some? ==> IsParsedEvent(ParseEvent(candidate).value, candidate)
  {
    hide Trim, Trimmed, ParseBounded, ParseOptional, ParseDiagnostics, IsProvider, IsParsedDiagnostics, IsBounded,
         IsAbsentOrBounded, IsLabel;
    ParsedIsTrimmed(candidate.eventId, 200);
    ParsedIsTrimmed(candidate.serverId, 200);
    OptionalIsTrimmed(candidate.agentId, 200);
    ParsedIsTrimmed(candidate.sessionId, 200);
    ParsedIsTrimmed(candidate.runId, 200);
    ParsedIsTrimmed(candidate.generation, 200);
    DiagnosticsAreTrimmed(candidate.diagnostics);
  }

  /** Parsing an accepted event once more changes nothing. */
  lemma ParsedEventParses(candidate: Event)
    requires ParseEvent(candidate).Some?
    ensures ParseEvent(ParseEvent(candidate).value) == ParseEvent(candidate)
  {
    hide Trim, Trimmed, IsProvider;
    var e := ParseEvent(candidate).value;
    ParsedEventIsTrimmed(candidate);
  }

  datatype RunState = RunState(runId: string, status: Status)

  datatype Decision = ApplyNewRun | ApplySameRun | Unchanged | RejectIllegal

  function SameRunTransitions(from: Status): set<Status> {
    match from
    case Running => {Waiting, Completed, Failed, Cancelled}
    case Waiting => {Running, Completed, Failed, Cancelled}
    case _ => {}
  }

  function Classify(current: Option<RunState>, next: RunState): Decision {
    if current.None? || current.value.runId != next.runId then
      if IsActive(next.status) then ApplyNewRun else RejectIllegal
    else if current.value.status == next.status then Unchanged
    else if next.status in SameRunTransitions(current.value.status) then ApplySameRun
    else RejectIllegal
  }
}
