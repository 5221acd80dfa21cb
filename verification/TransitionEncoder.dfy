/** The encoder that turns observations into numbered lifecycle events. */
module TransitionEncoder {
  import opened Options
  import opened Text
  import opened Decimal
  import opened LifecycleContract
  import opened OpenClawAdapter

  datatype Context = Context(
    serverId: string,
    agentId: Option<string>,
    sessionId: string,
    runId: string,
    generation: string,
    occurredAt: int,
    origin: Origin)

  datatype ScopedRun = ScopedRun(runId: string, status: Status, generation: string)

  /** What an encoder remembers: the last run of each scope, the last number of each generation. */
  datatype Encoder = Encoder(scopes: map<string, ScopedRun>, sequences: map<string, nat>)

  const FRESH := Encoder(map[], map[])

  datatype Outcome = Silent | Invalid | Emitted(event: Event)

  function ScopeKey(provider: string, c: Context): string {
    provider + "\0" + c.serverId + "\0" + (if c.agentId.Some? then c.agentId.value else "") + "\0" + c.sessionId
  }

  function LastSequence(e: Encoder, generation: string): nat {
    if generation in e.sequences then e.sequences[generation] else 0
  }

  function EventId(generation: string, sequence: nat): string {
    "lifecycle:" + generation + ":" + Digits(sequence)
  }

  function Seed(e: Encoder, provider: string, c: Context, status: Status): Encoder {
    e.(scopes := e.scopes[ScopeKey(provider, c) := ScopedRun(c.runId, status, c.generation)])
  }

  /** The run a scope is in, as far as this generation knows. */
  function CurrentRun(e: Encoder, provider: string, c: Context): Option<RunState> {
    var key := ScopeKey(provider, c);
    if key in e.scopes && e.scopes[key].generation == c.generation
    then Some(RunState(e.scopes[key].runId, e.scopes[key].status))
    else None
  }

  /** The event an observation gives rise to, before the schema sees it. */
  function Candidate(e: Encoder, provider: string, o: Observation, c: Context): Event {
    var sequence := LastSequence(e, c.generation) + 1;
    Event(
      EventId(c.generation, sequence), c.serverId, if c.agentId == Some("") then None else c.agentId, provider,
      c.sessionId, c.runId, c.generation, sequence, o.status, c.occurredAt, c.origin, o.diagnostics)
  }

  function Commit(e: Encoder, provider: string, status: Status, c: Context): Encoder {
    Encoder(
      e.scopes[ScopeKey(provider, c) := ScopedRun(c.runId, status, c.generation)],
      e.sequences[c.generation := LastSequence(e, c.generation) + 1])
  }

  function Encode(e: Encoder, provider: string, observation: Option<Observation>, c: Context): (r: (Encoder, Outcome))
    ensures !r.1.Emitted? ==> r.0 == e
  {
    if observation.None? || observation.value.status == Idle then (e, Silent)
    else
      var o := observation.value;
      var decision := Classify(CurrentRun(e, provider, c), RunState(c.runId, o.status));
      if decision == Unchanged || decision == RejectIllegal then (e, Silent)
      else
        var parsed := ParseEvent(Candidate(e, provider, o, c));
        if parsed.None? then (e, Invalid)
        else (Commit(e, provider, o.status, c), Emitted(parsed.value))
  }

  /** The encoder object: two maps that its methods update in place. */
  class AgentLifecycleTransitionEncoder {
    var currentByScope: map<string, ScopedRun>
    var sequenceByGeneration: map<string, nat>

    constructor ()
      ensures State() == FRESH
    {
      currentByScope, sequenceByGeneration := map[], map[];
    }

    function State(): Encoder
      reads this
    {
      Encoder(currentByScope, sequenceByGeneration)
    }

    method SeedActiveRun(provider: string, context: Context, status: Status)
      modifies this
      ensures State() == Seed(old(State()), provider, context, status)
    {
      var key := ScopeKey(provider, context);
      currentByScope := currentByScope[key := ScopedRun(context.runId, status, context.generation)];
    }

    method Observe(provider: string, observation: Option<Observation>, context: Context) returns (outcome: Outcome)
      modifies this
      ensures (State(), outcome) == Encode(old(State()), provider, observation, context)
    {
      if observation.None? || observation.value.status == Idle {
        return Silent;
      }
      var key := ScopeKey(provider, context);
      var current := None;
      if key in currentByScope && currentByScope[key].generation == context.generation {
        current := Some(RunState(currentByScope[key].runId, currentByScope[key].status));
      }
      var next := RunState(context.runId, observation.value.status);
      var decision := Classify(current, next);
      if decision == Unchanged || decision == RejectIllegal {
        return Silent;
      }
      var parsed := ParseEvent(Candidate(State(), provider, observation.value, context));
      if parsed.None? {
        return Invalid;
      }
      currentByScope := currentByScope[key := ScopedRun(next.runId, next.status, context.generation)];
      sequenceByGeneration := sequenceByGeneration[context.generation := parsed.value.sequence];
      return Emitted(parsed.value);
    }
  }

  // ----- event identities

  lemma LastColonSplits(x: string, a: string, y: string, b: string)
    requires x + ":" + a == y + ":" + b && AllDigits(a) && AllDigits(b)
    ensures x == y && a == b
  {
    var s := x + ":" + a;
    assert s[|x|] == ':' && s[|y|] == ':';
    assert s[|x| + 1..] == a && s[|y| + 1..] == b;
    assert |x| == |y| by {
      assert forall i :: |x| < i < |s| ==> s[i] == a[i - |x| - 1];
      assert forall i :: |y| < i < |s| ==> s[i] == b[i - |y| - 1];
    }
    assert x == s[..|x|] && y == s[..|y|];
  }

  /** The colon before the number is the last one, so an id determines its generation and number. */
  lemma EventIdInjective(g: string, m: nat, h: string, n: nat)
    requires EventId(g, m) == EventId(h, n)
    ensures g == h && m == n
  {
    hide Digits, Value;
    LastColonSplits("lifecycle:" + g, Digits(m), "lifecycle:" + h, Digits(n));
    ValueOfDigits(m);
    ValueOfDigits(n);
    assert ("lifecycle:" + g)[10..] == g && ("lifecycle:" + h)[10..] == h;
  }

  lemma EventIdTrimmed(g: string, n: nat)
    ensures Trimmed(EventId(g, n))
  {
    var s, d := EventId(g, n), Digits(n);
    assert s[|s| - 1] == d[|d| - 1] && s[0] == 'l';
  }

  /** What an emitted event says: its number follows the last one and its id names that number. */
  lemma EmittedEvent(e: Encoder, provider: string, o: Option<Observation>, c: Context)
    requires Encode(e, provider, o, c).1.Emitted?
    ensures
      var event := Encode(e, provider, o, c).1.event;
      && event.sequence == LastSequence(e, c.generation) + 1 <= MAX_SAFE_INTEGER
      && event.eventId == EventId(c.generation, event.sequence)
      && event.status == o.value.status
      && (Trimmed(c.generation) ==> event.generation == c.generation)
  {
    var event := Encode(e, provider, o, c).1.event;
    EventIdTrimmed(c.generation, event.sequence);
    var candidate := Candidate(e, provider, o.value, c);
    assert ParseEvent(candidate) == Some(event);
    TrimIsTrimmed(candidate.eventId);
  }

  // ----- whole traces

  datatype Call =
    | SeedCall(provider: string, context: Context, status: Status)
    | ObserveCall(provider: string, observation: Option<Observation>, context: Context)

  /** What a scope's history shows: a run seeded into it, or an event emitted for it. */
  datatype Item = Item(key: string, generation: string, runId: string, status: Status, event: Option<Event>)

  function Step(e: Encoder, call: Call): (Encoder, seq<Item>) {
    match call
    case SeedCall(provider, c, status) =>
      (Seed(e, provider, c, status), [Item(ScopeKey(provider, c), c.generation, c.runId, status, None)])
    case ObserveCall(provider, o, c) =>
      var (next, outcome) := Encode(e, provider, o, c);
      (next, if outcome.Emitted? then [Item(ScopeKey(provider, c), c.generation, c.runId, outcome.event.status, Some(outcome.event))] else [])
  }

  /** The encoder and the history after a sequence of calls on a new encoder. */
  function Replay(calls: seq<Call>): (Encoder, seq<Item>) {
    if calls == [] then (FRESH, []) else
      var (e, trace) := Replay(calls[..|calls| - 1]);
      var (next, items) := Step(e, calls[|calls| - 1]);
      (next, trace + items)
  }

  function OfScope(trace: seq<Item>, key: string): seq<Item> {
    if trace == [] then [] else
      var last := trace[|trace| - 1];
      OfScope(trace[..|trace| - 1], key) + if last.key == key then [last] else []
  }

  function EventsOf(trace: seq<Item>, generation: string): seq<Event> {
    if trace == [] then [] else
      var last := trace[|trace| - 1];
      EventsOf(trace[..|trace| - 1], generation) + if last.generation == generation && last.event.Some? then [last.event.value] else []
  }

  predicate Opens(b: Item) {
    b.event.None? || IsActive(b.status)
  }

  /** An event for b's run may come right after the scope was left in run a. */
  predicate Continues(a: ScopedRun, b: Item) {
    if a.generation == b.generation && a.runId == b.runId then IsActive(a.status) && a.status != b.status else IsActive(b.status)
  }

  function RunOf(i: Item): ScopedRun {
    ScopedRun(i.runId, i.status, i.generation)
  }

  /** b may come right after a in one scope. */
  predicate MayFollow(a: Item, b: Item) {
    b.event.None? || Continues(RunOf(a), b)
  }

  predicate LegalHistory(items: seq<Item>) {
    && (items != [] ==> Opens(items[0]))
    && forall i :: 0 < i < |items| ==> MayFollow(items[i - 1], items[i])
  }

  ghost predicate Remembers(e: Encoder, trace: seq<Item>, key: string) {
    var items := OfScope(trace, key);
    if key in e.scopes then
      items != [] && var last := items[|items| - 1]; e.scopes[key] == RunOf(last)
    else items == []
  }

  /** One call touches one scope, leaves it in the run it reports, and reports only what may follow. */
  lemma StepFacts(e: Encoder, call: Call)
    ensures
      var (next, items) := Step(e, call);
      if items == [] then next.scopes == e.scopes else
        && |items| == 1
        && next.scopes == e.scopes[items[0].key := RunOf(items[0])]
        && (items[0].event.Some? ==>
              if items[0].key in e.scopes then Continues(e.scopes[items[0].key], items[0]) else IsActive(items[0].status))
  {
    hide ParseEvent, Candidate, EventId, ScopeKey;
    if call.ObserveCall? && Step(e, call).1 != [] {
      EmittedEvent(e, call.provider, call.observation, call.context);
    }
  }

  lemma {:induction false} EncoderRemembers(calls: seq<Call>, key: string)
    ensures Remembers(Replay(calls).0, Replay(calls).1, key)
    ensures LegalHistory(OfScope(Replay(calls).1, key))
  {
    hide Step;
    if calls != [] {
      var n := |calls| - 1;
      EncoderRemembers(calls[..n], key);
      var (e, trace) := Replay(calls[..n]);
      var (next, items) := Step(e, calls[n]);
      StepFacts(e, calls[n]);
      if items != [] {
        assert (trace + items)[..|trace + items| - 1] == trace;
      } else {
        assert trace + items == trace;
      }
    }
  }

  /**
   In every scope the history is legal: a run opens active or seeded, one status never repeats in a row, and after
   a terminal event nothing follows until another run opens or a run is seeded.
   */
  lemma ScopeHistoriesAreLegal(calls: seq<Call>, key: string)
    ensures LegalHistory(OfScope(Replay(calls).1, key))
  {
    EncoderRemembers(calls, key);
  }

  /** The run this generation was last seen in, in the scope of a context, as its history shows it. */
  function LastSeen(trace: seq<Item>, provider: string, c: Context): Option<Item> {
    var items := OfScope(trace, ScopeKey(provider, c));
    if items != [] && items[|items| - 1].generation == c.generation then Some(items[|items| - 1]) else None
  }

  /** What may be reported next: another status of a run that is not over, or an active status of another run. */
  predicate IsNews(last: Option<Item>, runId: string, status: Status) {
    if last.Some? && last.value.runId == runId then last.value.status in {Running, Waiting} && status != last.value.status
    else status in {Running, Waiting}
  }

  /**
   Over every sequence of calls: an observation is reported if and only if there is one, it is not idle, it is news to its
   scope, and the event it makes is acceptable. Only an event that is not acceptable makes the call throw.
   */
  lemma EmittedExactly(calls: seq<Call>, provider: string, o: Option<Observation>, c: Context)
    ensures
      var (e, trace) := Replay(calls);
      var outcome := Encode(e, provider, o, c).1;
      var news := o.Some? && o.value.status != Idle && IsNews(LastSeen(trace, provider, c), c.runId, o.value.status);
      && (outcome.Emitted? <==> news && IsAcceptable(Candidate(e, provider, o.value, c)))
      && (outcome.Invalid? <==> news && !IsAcceptable(Candidate(e, provider, o.value, c)))
  {
    hide ParseEvent, Candidate, IsAcceptable, ScopeKey, Replay, OfScope, Classify, CurrentRun, IsNews, LegalHistory;
    var (e, trace) := Replay(calls);
    EncoderRemembers(calls, ScopeKey(provider, c));
    RemembersLast(e, trace, provider, c);
    if o.Some? && o.value.status != Idle {
      ClassifiesNews(LastSeen(trace, provider, c), c.runId, o.value.status);
      ParsedEventIsTrimmed(Candidate(e, provider, o.value, c));
    }
  }

  function SeenAs(last: Option<Item>): Option<RunState> {
    if last.Some? then Some(RunState(last.value.runId, last.value.status)) else None
  }

  lemma RemembersLast(e: Encoder, trace: seq<Item>, provider: string, c: Context)
    requires Remembers(e, trace, ScopeKey(provider, c))
    ensures CurrentRun(e, provider, c) == SeenAs(LastSeen(trace, provider, c))
  {
    hide ScopeKey, OfScope;
  }

  lemma ClassifiesNews(last: Option<Item>, runId: string, status: Status)
    requires status != Idle
    ensures Classify(SeenAs(last), RunState(runId, status)) in {ApplyNewRun, ApplySameRun} <==> IsNews(last, runId, status)
  {
  }

  /**
   What a reported event says: who and where the context says, with the observation's status and diagnostics, and the next
   number of its generation; every text trimmed.
   */
  lemma EmittedSays(calls: seq<Call>, provider: string, o: Option<Observation>, c: Context)
    requires Encode(Replay(calls).0, provider, o, c).1.Emitted?
    ensures
      var (e, trace) := Replay(calls);
      var event, number := Encode(e, provider, o, c).1.event, |EventsOf(trace, c.generation)| + 1;
      && event.sequence == number && event.eventId == EventId(c.generation, number)
      && event.serverId == Trim(c.serverId) && event.provider == provider && event.sessionId == Trim(c.sessionId)
      && event.runId == Trim(c.runId) && event.generation == Trim(c.generation)
      && (if c.agentId.Some? && c.agentId.value != "" then event.agentId == Some(Trim(c.agentId.value)) else event.agentId.None?)
      && event.status == o.value.status && event.occurredAt == c.occurredAt && event.origin == c.origin
      && IsParsedDiagnostics(event.diagnostics, o.value.diagnostics)
  {
    hide ParseEvent, ScopeKey, Replay, EventId, EventsOf, Trim, IsParsedDiagnostics, IsAcceptable, Classify, CurrentRun, Trimmed;
    var e := Replay(calls).0;
    NumberedWithoutGaps(calls, c.generation);
    EmittedEvent(e, provider, o, c);
    ParsedEventIsTrimmed(Candidate(e, provider, o.value, c));
  }

  /** One call reports at most one event, with the next number of its generation, and moves no other generation's. */
  lemma StepNumbers(e: Encoder, call: Call, generation: string)
    ensures
      var (next, items) := Step(e, call);
      var numbered := items != [] && items[0].generation == generation && items[0].event.Some?;
      && |items| <= 1
      && LastSequence(next, generation) == LastSequence(e, generation) + (if numbered then 1 else 0)
      && (numbered ==>
            && items[0].event.value.sequence == LastSequence(e, generation) + 1
            && items[0].event.value.eventId == EventId(generation, LastSequence(e, generation) + 1))
  {
    hide ParseEvent, Candidate, EventId, ScopeKey, Classify, CurrentRun;
    if call.ObserveCall? && Step(e, call).1 != [] {
      EmittedEvent(e, call.provider, call.observation, call.context);
    }
  }

  lemma EventsAppend(trace: seq<Item>, items: seq<Item>, generation: string)
    requires |items| <= 1
    ensures EventsOf(trace + items, generation) == EventsOf(trace, generation) +
            if items != [] && items[0].generation == generation && items[0].event.Some? then [items[0].event.value] else []
  {
    if items == [] {
      assert trace + items == trace;
    } else {
      assert (trace + items)[..|trace + items| - 1] == trace;
    }
  }

  lemma {:induction false} NumberedWithoutGaps(calls: seq<Call>, generation: string)
    ensures
      var (e, trace) := Replay(calls);
      var events := EventsOf(trace, generation);
      && |events| == LastSequence(e, generation)
      && forall i :: 0 <= i < |events| ==> events[i].sequence == i + 1 && events[i].eventId == EventId(generation, i + 1)
  {
    hide Step, EventId, LastSequence, EventsOf;
    if calls == [] {
      NothingNumbered(generation);
    } else {
      var n := |calls| - 1;
      NumberedWithoutGaps(calls[..n], generation);
      var (e, trace) := Replay(calls[..n]);
      StepNumbers(e, calls[n], generation);
      EventsAppend(trace, Step(e, calls[n]).1, generation);
    }
  }

  lemma NothingNumbered(generation: string)
    ensures EventsOf([], generation) == [] && LastSequence(FRESH, generation) == 0
  {
  }

  ghost predicate Increasing(e: Encoder, trace: seq<Item>) {
    && (forall i :: 0 <= i < |trace| && trace[i].event.Some? ==>
          && trace[i].event.value.sequence <= LastSequence(e, trace[i].generation)
          && trace[i].event.value.eventId == EventId(trace[i].generation, trace[i].event.value.sequence))
    && (forall i, j :: 0 <= i < j < |trace| && trace[i].event.Some? && trace[j].event.Some? && trace[i].generation == trace[j].generation ==>
          trace[i].event.value.sequence < trace[j].event.value.sequence)
  }

  lemma {:induction false} TraceIsIncreasing(calls: seq<Call>)
    ensures Increasing(Replay(calls).0, Replay(calls).1)
  {
    hide ParseEvent, Candidate, EventId, ScopeKey;
    if calls != [] {
      var n := |calls| - 1;
      TraceIsIncreasing(calls[..n]);
      var (e, trace) := Replay(calls[..n]);
      if calls[n].ObserveCall? && Step(e, calls[n]).1 != [] {
        EmittedEvent(e, calls[n].provider, calls[n].observation, calls[n].context);
      }
    }
  }

  /** No two events of one encoder share an id, whatever generations they belong to. */
  lemma EventIdsDistinct(calls: seq<Call>, i: nat, j: nat)
    requires i < j < |Replay(calls).1|
    requires Replay(calls).1[i].event.Some? && Replay(calls).1[j].event.Some?
    ensures Replay(calls).1[i].event.value.eventId != Replay(calls).1[j].event.value.eventId
  {
    var trace := Replay(calls).1;
    TraceIsIncreasing(calls);
    var a, b := trace[i].event.value, trace[j].event.value;
    if a.eventId == b.eventId {
      EventIdInjective(trace[i].generation, a.sequence, trace[j].generation, b.sequence);
      assert false;
    }
  }
}
