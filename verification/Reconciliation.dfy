/** Comparing the backend's checkpoint with the runs that are really active. */
module Reconciliation {
  import opened Options
  import opened Text
  import opened Decimal
  import opened LifecycleContract
  import opened OpenClawAdapter
  import opened TransitionEncoder

  datatype ActiveRunInfo = ActiveRunInfo(agentId: Option<string>, sessionId: string, runId: string, status: Status)

  datatype Correction = Active(run: ActiveRunInfo) | Disappeared(run: ActiveRunInfo)

  /** Where a run id first appears in a list of runs; the length of the list when it does not. */
  function IndexOf(runs: seq<ActiveRunInfo>, runId: string): (i: nat)
    ensures i <= |runs|
    ensures i < |runs| ==> runs[i].runId == runId
    ensures forall j :: 0 <= j < i ==> runs[j].runId != runId
  {
    if runs == [] || runs[0].runId == runId then 0 else 1 + IndexOf(runs[1..], runId)
  }

  predicate Has(runs: seq<ActiveRunInfo>, runId: string)
    ensures Has(runs, runId) <==> exists r :: r in runs && r.runId == runId
  {
    IndexOf(runs, runId) < |runs|
  }

  /** Setting a key of an insertion-ordered map: a known key keeps its place, a new one goes last. */
  function Put(runs: seq<ActiveRunInfo>, run: ActiveRunInfo): seq<ActiveRunInfo> {
    var i := IndexOf(runs, run.runId);
    if i < |runs| then runs[i := run] else runs + [run]
  }

  /** The insertion-ordered map from run id to run: the last run of an id wins. */
  function ByRun(runs: seq<ActiveRunInfo>): seq<ActiveRunInfo> {
    if runs == [] then [] else Put(ByRun(runs[..|runs| - 1]), runs[|runs| - 1])
  }

  function CheckpointStatus(checkpoint: seq<ActiveRunInfo>, run: ActiveRunInfo): ActiveRunInfo {
    var i := IndexOf(checkpoint, run.runId);
    if i < |checkpoint| then run.(status := checkpoint[i].status) else run
  }

  function ActiveCorrections(checkpoint: seq<ActiveRunInfo>, observed: seq<ActiveRunInfo>): seq<Correction> {
    seq(|observed|, i requires 0 <= i < |observed| => Active(CheckpointStatus(checkpoint, observed[i])))
  }

  function DisappearedCorrections(checkpoint: seq<ActiveRunInfo>, observed: seq<ActiveRunInfo>): seq<Correction> {
    if checkpoint == [] then [] else
      var last := checkpoint[|checkpoint| - 1];
      DisappearedCorrections(checkpoint[..|checkpoint| - 1], observed) + if Has(observed, last.runId) then [] else [Disappeared(last)]
  }

  /** The corrections, in the order they are made. */
  function Plan(checkpoint: seq<ActiveRunInfo>, observed: seq<ActiveRunInfo>): seq<Correction> {
    var c, o := ByRun(checkpoint), ByRun(observed);
    ActiveCorrections(c, o) + DisappearedCorrections(c, o)
  }

  method PlanAgentLifecycleReconciliation(checkpoint: seq<ActiveRunInfo>, observed: seq<ActiveRunInfo>)
    returns (corrections: seq<Correction>)
    ensures corrections == Plan(checkpoint, observed)
  {
    hide IndexOf, ByRun, Has;
    var checkpointByRun, observedByRun := ByRun(checkpoint), ByRun(observed);
    corrections := [];
    for i := 0 to |observedByRun|
      invariant corrections == ActiveCorrections(checkpointByRun, observedByRun)[..i]
    {
      corrections := corrections + [Active(CheckpointStatus(checkpointByRun, observedByRun[i]))];
    }
    for i := 0 to |checkpointByRun|
      invariant corrections == ActiveCorrections(checkpointByRun, observedByRun) + DisappearedCorrections(checkpointByRun[..i], observedByRun)
    {
      if !Has(observedByRun, checkpointByRun[i].runId) {
        corrections := corrections + [Disappeared(checkpointByRun[i])];
      }
      assert checkpointByRun[..i + 1][..i] == checkpointByRun[..i];
    }
    assert checkpointByRun[..|checkpointByRun|] == checkpointByRun;
  }

  // ----- the events the corrections give rise to

  function CorrectionContext(serverId: string, generation: string, run: ActiveRunInfo, now: int): Context {
    Context(serverId, run.agentId, run.sessionId, run.runId, generation, now, Origin.Reconciliation)
  }

  function CorrectionSignal(c: Correction): Signal {
    match c
    case Active(run) => ActiveRun(true, run.status == Waiting)
    case Disappeared(_) => Lifecycle(End, true, false, false, Some("reconciliation_missing_active_run"), None)
  }

  /** One turn of the correction loop: a run that is gone is seeded first, so that its end is legal. */
  function Correct(e: Encoder, serverId: string, generation: string, c: Correction, now: int): (Encoder, Outcome) {
    var context := CorrectionContext(serverId, generation, c.run, now);
    var seeded := if c.Disappeared? then Seed(e, PROVIDER, context, c.run.status) else e;
    Encode(seeded, PROVIDER, Observe(CorrectionSignal(c)), context)
  }

  /** The events of the first n corrections, in order; the loop reads the clock once for each. */
  function CorrectAll(e: Encoder, serverId: string, generation: string, cs: seq<Correction>, clock: nat -> int): (Encoder, seq<Event>) {
    if cs == [] then (e, []) else
      var n := |cs| - 1;
      var (before, events) := CorrectAll(e, serverId, generation, cs[..n], clock);
      var (after, outcome) := Correct(before, serverId, generation, cs[n], clock(n));
      (after, events + if outcome.Emitted? then [outcome.event] else [])
  }

  // ----- what a backend makes of them

  /** The active runs a list of runs stands for: the last status of each run id. */
  function ActiveSet(runs: seq<ActiveRunInfo>): map<string, Status> {
    if runs == [] then map[] else
      var last := runs[|runs| - 1];
      ActiveSet(runs[..|runs| - 1])[last.runId := last.status]
  }

  /** Applying one event to a set of active runs: an active status records the run, a terminal one removes it. */
  function ApplyEvent(active: map<string, Status>, e: Event): map<string, Status> {
    if IsActive(e.status) then active[e.runId := e.status] else active - {e.runId}
  }

  function ApplyEvents(active: map<string, Status>, events: seq<Event>): map<string, Status> {
    if events == [] then active else ApplyEvent(ApplyEvents(active, events[..|events| - 1]), events[|events| - 1])
  }

  /** What reconciliation is for: the observed runs, those the checkpoint knew keeping its status. */
  function Target(checkpoint: map<string, Status>, observed: map<string, Status>): map<string, Status> {
    map r | r in observed :: if r in checkpoint then checkpoint[r] else observed[r]
  }

  // ----- insertion-ordered maps

  predicate DistinctRuns(runs: seq<ActiveRunInfo>) {
    forall i, j :: 0 <= i < j < |runs| ==> runs[i].runId != runs[j].runId
  }

  lemma PutFacts(runs: seq<ActiveRunInfo>, run: ActiveRunInfo)
    requires DistinctRuns(runs)
    ensures DistinctRuns(Put(runs, run))
    ensures forall r :: r in Put(runs, run) <==> r == run || (r in runs && r.runId != run.runId)
  {
    var i := IndexOf(runs, run.runId);
    var after := Put(runs, run);
    assert after[i] == run;
    forall r | r in runs && r.runId != run.runId ensures r in after {
      var j :| 0 <= j < |runs| && runs[j] == r;
      assert after[j] == r;
    }
  }

  /** ByRun keeps one run for each id, with the status ActiveSet gives it, and adds no other run. */
  lemma {:induction false} ByRunIsMap(runs: seq<ActiveRunInfo>)
    ensures DistinctRuns(ByRun(runs))
    ensures forall r :: r in ByRun(runs) ==> r in runs
    ensures forall r :: r in ByRun(runs) ==> r.runId in ActiveSet(runs) && ActiveSet(runs)[r.runId] == r.status
    ensures forall k :: k in ActiveSet(runs) ==> Has(ByRun(runs), k)
  {
    hide Put, IndexOf, Has;
    if runs == [] {
      assert forall k :: k !in ActiveSet(runs);
    } else {
      var n := |runs| - 1;
      ByRunIsMap(runs[..n]);
      PutFacts(ByRun(runs[..n]), runs[n]);
    }
  }

  // ----- every correction is one event

  /** The status a correction reports for its run. */
  function Reported(c: Correction): Status {
    if c.Active? then c.run.status else Cancelled
  }

  predicate CleanRun(r: ActiveRunInfo) {
    && IsIdentifier(r.sessionId)
    && IsIdentifier(r.runId)
    && (r.agentId.None? || r.agentId.value == "" || IsIdentifier(r.agentId.value))
    && IsActive(r.status)
  }

  /** A generation id short enough that every event id built from it is an identifier. */
  predicate UsableGeneration(g: string) {
    IsIdentifier(g) && |g| <= 173
  }

  lemma EventIdFits(g: string, n: nat)
    requires UsableGeneration(g) && n <= MAX_SAFE_INTEGER
    ensures IsIdentifier(EventId(g, n))
  {
    PowersOf10();
    DigitsFit(n, 16);
    EventIdTrimmed(g, n);
  }

  /** Every run this encoder has in a scope for the generation is one of these. */
  ghost predicate KnowsOnly(e: Encoder, generation: string, runs: set<string>) {
    forall k :: k in e.scopes && e.scopes[k].generation == generation ==> e.scopes[k].runId in runs
  }

  predicate EventFor(event: Event, c: Correction, generation: string, sequence: nat) {
    && event.runId == c.run.runId
    && event.status == Reported(c)
    && event.sequence == sequence
    && event.generation == generation
  }

  lemma DiagnosticsParse(event: string, status: string, reason: Option<string>)
    requires Trimmed(event) && 1 <= |event| <= 128 && Trimmed(status) && 1 <= |status| <= 128
    requires reason.None? || (Trimmed(reason.value) && 1 <= |reason.value| <= 128)
    ensures ParseDiagnostics(Some(Diagnostics(Some(event), Some(status), reason))).Some?
  {
  }

  lemma CandidateParses(e: Encoder, o: Observation, c: Context)
    requires UsableGeneration(c.generation) && LastSequence(e, c.generation) < MAX_SAFE_INTEGER
    requires IsIdentifier(c.serverId) && IsIdentifier(c.sessionId) && IsIdentifier(c.runId)
    requires c.agentId.None? || c.agentId.value == "" || IsIdentifier(c.agentId.value)
    requires o.status != Idle && ParseDiagnostics(o.diagnostics).Some?
    ensures
      var p := ParseEvent(Candidate(e, PROVIDER, o, c));
      p.Some? && p.value.runId == c.runId && p.value.generation == c.generation
  {
    hide ParseDiagnostics, EventId, IsIdentifier, UsableGeneration, ParseBounded, IsProvider;
    var n := LastSequence(e, c.generation) + 1;
    EventIdFits(c.generation, n);
    assert IsIdentifier(c.generation) by { UsableIsIdentifier(c.generation); }
    IdentifierParses(EventId(c.generation, n));
    IdentifierParses(c.serverId);
    IdentifierParses(c.sessionId);
    IdentifierParses(c.runId);
    IdentifierParses(c.generation);
    if c.agentId.Some? && c.agentId.value != "" { IdentifierParses(c.agentId.value); }
    ProviderIsValid();
  }

  lemma ProviderIsValid()
    ensures IsProvider(PROVIDER)
  {
  }

  lemma UsableIsIdentifier(g: string)
    requires UsableGeneration(g)
    ensures IsIdentifier(g)
  {
  }

  lemma IdentifierParses(s: string)
    requires IsIdentifier(s)
    ensures ParseBounded(s, 200) == Some(s)
  {
  }

  /** What a correction observes: its reported status, which its scope may show next. */
  lemma CorrectionObserved(e: Encoder, generation: string, c: Correction, context: Context, known: set<string>)
    requires KnowsOnly(e, generation, known) && c.run.runId !in known && IsActive(c.run.status)
    requires context.generation == generation && context.runId == c.run.runId
    ensures
      var seeded := if c.Disappeared? then Seed(e, PROVIDER, context, c.run.status) else e;
      var o := Observe(CorrectionSignal(c));
      && o.Some? && o.value.status == Reported(c) && o.value.status != Idle
      && ParseDiagnostics(o.value.diagnostics).Some?
      && Classify(CurrentRun(seeded, PROVIDER, context), RunState(context.runId, o.value.status)) !in {Unchanged, RejectIllegal}
      && LastSequence(seeded, generation) == LastSequence(e, generation)
  {
    hide ScopeKey, LastSequence, KnowsOnly, Seed, CurrentRun, ParseDiagnostics, Trimmed;
    SignalObserved(c);
    SeedKeepsSequence(e, context, c.run.status, generation);
    ScopeBefore(e, generation, context, known);
    SeededScope(e, context, c.run.status);
  }

  lemma SignalObserved(c: Correction)
    requires IsActive(c.run.status)
    ensures
      var o := Observe(CorrectionSignal(c));
      o.Some? && o.value.status == Reported(c) && o.value.status != Idle && ParseDiagnostics(o.value.diagnostics).Some?
  {
    hide ParseDiagnostics;
    DiagnosticsParse("active_run", "active", None);
    DiagnosticsParse("lifecycle", "end", Some("reconciliation_missing_active_run"));
  }

  lemma ScopeBefore(e: Encoder, generation: string, context: Context, known: set<string>)
    requires KnowsOnly(e, generation, known) && context.generation == generation && context.runId !in known
    ensures
      var run := CurrentRun(e, PROVIDER, context);
      run.Some? ==> run.value.runId != context.runId
  {
    hide ScopeKey;
  }

  lemma SeededScope(e: Encoder, context: Context, status: Status)
    ensures CurrentRun(Seed(e, PROVIDER, context, status), PROVIDER, context) == Some(RunState(context.runId, status))
  {
    hide ScopeKey;
  }

  lemma SeedKeepsSequence(e: Encoder, context: Context, status: Status, generation: string)
    ensures LastSequence(Seed(e, PROVIDER, context, status), generation) == LastSequence(e, generation)
  {
  }

  /** The correction's scope is then in its run, every other scope is as it was, and the number has gone up by one. */
  lemma CommittedKnows(e: Encoder, c: Correction, context: Context, status: Status, known: set<string>)
    requires KnowsOnly(e, context.generation, known)
    ensures
      var seeded := if c.Disappeared? then Seed(e, PROVIDER, context, c.run.status) else e;
      var after := Commit(seeded, PROVIDER, status, context);
      && KnowsOnly(after, context.generation, known + {context.runId})
      && LastSequence(after, context.generation) == LastSequence(e, context.generation) + 1
  {
    hide ScopeKey;
  }

  lemma CorrectEmits(e: Encoder, serverId: string, generation: string, c: Correction, now: int, known: set<string>)
    requires UsableGeneration(generation) && IsIdentifier(serverId) && CleanRun(c.run)
    requires KnowsOnly(e, generation, known) && c.run.runId !in known
    requires LastSequence(e, generation) < MAX_SAFE_INTEGER
    ensures
      var (after, outcome) := Correct(e, serverId, generation, c, now);
      && outcome.Emitted?
      && EventFor(outcome.event, c, generation, LastSequence(e, generation) + 1)
      && LastSequence(after, generation) == LastSequence(e, generation) + 1
      && KnowsOnly(after, generation, known + {c.run.runId})
  {
    hide ParseEvent, Candidate, EventId, ScopeKey, IsIdentifier, ParseDiagnostics, KnowsOnly, LastSequence, Commit, Seed, CurrentRun,
         Classify, CorrectionSignal, Observe;
    var context := CorrectionContext(serverId, generation, c.run, now);
    var seeded := if c.Disappeared? then Seed(e, PROVIDER, context, c.run.status) else e;
    var o := Observe(CorrectionSignal(c));
    CorrectionObserved(e, generation, c, context, known);
    CandidateParses(seeded, o.value, context);
    EmittedEvent(seeded, PROVIDER, o, context);
    CommittedKnows(e, c, context, o.value.status, known);
  }

  predicate DistinctCorrections(cs: seq<Correction>) {
    forall i, j :: 0 <= i < j < |cs| ==> cs[i].run.runId != cs[j].run.runId
  }

  function RunIds(cs: seq<Correction>): set<string> {
    set c | c in cs :: c.run.runId
  }

  /** The encoder has seen nothing of this generation. */
  ghost predicate FreshFor(e: Encoder, generation: string) {
    KnowsOnly(e, generation, {}) && LastSequence(e, generation) == 0
  }

  predicate EventsMatch(events: seq<Event>, cs: seq<Correction>, generation: string) {
    && |events| == |cs|
    && forall i :: 0 <= i < |cs| ==> EventFor(events[i], cs[i], generation, i + 1)
  }

  lemma {:induction false} CorrectAllEmits(e: Encoder, serverId: string, generation: string, cs: seq<Correction>, clock: nat -> int)
    requires UsableGeneration(generation) && IsIdentifier(serverId) && FreshFor(e, generation)
    requires DistinctCorrections(cs) && |cs| <= MAX_SAFE_INTEGER
    requires forall c :: c in cs ==> CleanRun(c.run)
    ensures
      var (after, events) := CorrectAll(e, serverId, generation, cs, clock);
      && EventsMatch(events, cs, generation)
      && LastSequence(after, generation) == |cs|
      && KnowsOnly(after, generation, RunIds(cs))
  {
    hide Correct, UsableGeneration, IsIdentifier, CleanRun;
    if cs != [] {
      var n := |cs| - 1;
      CorrectAllEmits(e, serverId, generation, cs[..n], clock);
      var (before, events) := CorrectAll(e, serverId, generation, cs[..n], clock);
      assert cs[n].run.runId !in RunIds(cs[..n]);
      assert cs == cs[..n] + [cs[n]];
      assert RunIds(cs) == RunIds(cs[..n]) + {cs[n].run.runId};
      CorrectEmits(before, serverId, generation, cs[n], clock(n), RunIds(cs[..n]));
    }
  }

  // ----- folding those events over the checkpoint

  /** What events with distinct run ids leave behind: each decides its own run, every other run stays as it was. */
  ghost predicate Decided(before: map<string, Status>, cs: seq<Correction>, after: map<string, Status>) {
    && (forall c :: c in cs ==> if IsActive(Reported(c)) then c.run.runId in after && after[c.run.runId] == Reported(c) else c.run.runId !in after)
    && (forall r :: r !in RunIds(cs) ==> (r in after <==> r in before) && (r in after ==> after[r] == before[r]))
  }

  lemma {:induction false} FoldDecides(before: map<string, Status>, cs: seq<Correction>, events: seq<Event>, generation: string)
    requires EventsMatch(events, cs, generation) && DistinctCorrections(cs)
    ensures Decided(before, cs, ApplyEvents(before, events))
  {
    if cs != [] {
      var n := |cs| - 1;
      FoldDecides(before, cs[..n], events[..n], generation);
      assert cs == cs[..n] + [cs[n]];
      assert RunIds(cs) == RunIds(cs[..n]) + {cs[n].run.runId};
      var m := ApplyEvents(before, events[..n]);
      assert ApplyEvents(before, events) == ApplyEvent(m, events[n]);
      forall c | c in cs[..n] ensures c.run.runId != cs[n].run.runId {
        var i :| 0 <= i < n && cs[i] == c;
      }
    }
  }

  lemma {:induction false} DisappearedFacts(checkpoint: seq<ActiveRunInfo>, observed: seq<ActiveRunInfo>)
    requires DistinctRuns(checkpoint)
    ensures DistinctCorrections(DisappearedCorrections(checkpoint, observed))
    ensures forall c :: c in DisappearedCorrections(checkpoint, observed) <==>
                    c.Disappeared? && c.run in checkpoint && !Has(observed, c.run.runId)
  {
    hide Has;
    if checkpoint != [] {
      var n := |checkpoint| - 1;
      DisappearedFacts(checkpoint[..n], observed);
      assert checkpoint == checkpoint[..n] + [checkpoint[n]];
      forall r | r in checkpoint[..n] ensures r.runId != checkpoint[n].runId {
        var i :| 0 <= i < n && checkpoint[i] == r;
      }
    }
  }

  lemma ActiveFacts(checkpoint: seq<ActiveRunInfo>, observed: seq<ActiveRunInfo>)
    requires DistinctRuns(observed)
    ensures DistinctCorrections(ActiveCorrections(checkpoint, observed))
    ensures forall c :: c in ActiveCorrections(checkpoint, observed) ==>
                          c.Active? && exists o :: o in observed && c.run == CheckpointStatus(checkpoint, o)
    ensures forall o :: o in observed ==> Active(CheckpointStatus(checkpoint, o)) in ActiveCorrections(checkpoint, observed)
  {
    hide IndexOf;
    var a := ActiveCorrections(checkpoint, observed);
    forall c | c in a ensures c.Active? && exists o :: o in observed && c.run == CheckpointStatus(checkpoint, o) {
      var i :| 0 <= i < |a| && a[i] == c;
      assert observed[i] in observed;
    }
    forall o | o in observed ensures Active(CheckpointStatus(checkpoint, o)) in a {
      var i :| 0 <= i < |observed| && observed[i] == o;
      assert a[i] == Active(CheckpointStatus(checkpoint, o));
    }
  }

  lemma DistinctAppend(a: seq<Correction>, b: seq<Correction>)
    requires DistinctCorrections(a) && DistinctCorrections(b)
    requires forall x, y :: x in a && y in b ==> x.run.runId != y.run.runId
    ensures DistinctCorrections(a + b)
  {
    var cs := a + b;
    forall i, j | 0 <= i < j < |cs| ensures cs[i].run.runId != cs[j].run.runId {
      if i < |a| <= j {
        assert cs[i] in a && cs[j] in b;
      }
    }
  }

  lemma CheckpointStatusKeepsRun(checkpoint: seq<ActiveRunInfo>, run: ActiveRunInfo)
    ensures CheckpointStatus(checkpoint, run).runId == run.runId
  {
  }

  /** The corrections name each run once: every observed run as active, every other checkpoint run as gone. */
  lemma PlanFacts(checkpoint: seq<ActiveRunInfo>, observed: seq<ActiveRunInfo>)
    ensures
      var cs := Plan(checkpoint, observed);
      && DistinctCorrections(cs)
      && (forall c :: c in cs && c.Active? ==> exists o :: o in ByRun(observed) && c.run == CheckpointStatus(ByRun(checkpoint), o))
      && (forall o :: o in ByRun(observed) ==> Active(CheckpointStatus(ByRun(checkpoint), o)) in cs)
      && (forall c :: c in cs && c.Disappeared? ==> c.run in ByRun(checkpoint) && !Has(ByRun(observed), c.run.runId))
      && (forall r :: r in ByRun(checkpoint) && !Has(ByRun(observed), r.runId) ==> Disappeared(r) in cs)
  {
    hide ByRun, CheckpointStatus, ActiveCorrections, DisappearedCorrections, Has;
    var ck, ob := ByRun(checkpoint), ByRun(observed);
    ByRunIsMap(checkpoint);
    ByRunIsMap(observed);
    ActiveFacts(ck, ob);
    DisappearedFacts(ck, ob);
    var a, d := ActiveCorrections(ck, ob), DisappearedCorrections(ck, ob);
    forall x, y | x in a && y in d ensures x.run.runId != y.run.runId {
      var o :| o in ob && x.run == CheckpointStatus(ck, o);
      CheckpointStatusKeepsRun(ck, o);
    }
    DistinctAppend(a, d);
  }

  lemma CheckpointStatusIs(checkpoint: seq<ActiveRunInfo>, run: ActiveRunInfo)
    requires IsActive(run.status) && forall r :: r in checkpoint ==> IsActive(r.status)
    ensures
      var known := ActiveSet(checkpoint);
      var c := CheckpointStatus(ByRun(checkpoint), run);
      c == run.(status := if run.runId in known then known[run.runId] else run.status) && IsActive(c.status)
  {
    hide ByRun;
    ByRunIsMap(checkpoint);
    var ck := ByRun(checkpoint);
    var i := IndexOf(ck, run.runId);
    if i < |ck| {
      assert ck[i] in ck;
    }
  }

  lemma ActivePlanned(checkpoint: seq<ActiveRunInfo>, observed: seq<ActiveRunInfo>, k: string) returns (o: ActiveRunInfo)
    requires k in ActiveSet(observed)
    ensures o in observed && o.runId == k && o.status == ActiveSet(observed)[k]
    ensures Active(CheckpointStatus(ByRun(checkpoint), o)) in Plan(checkpoint, observed)
  {
    hide Plan, ByRun, ActiveSet, CheckpointStatus, DistinctCorrections;
    PlanFacts(checkpoint, observed);
    ByRunIsMap(observed);
    assert Has(ByRun(observed), k);
    o := HasRun(ByRun(observed), k);
  }

  lemma HasRun(runs: seq<ActiveRunInfo>, k: string) returns (o: ActiveRunInfo)
    requires Has(runs, k)
    ensures o in runs && o.runId == k
  {
    o := runs[IndexOf(runs, k)];
  }

  lemma DecidedFor(before: map<string, Status>, cs: seq<Correction>, after: map<string, Status>, c: Correction)
    requires Decided(before, cs, after) && c in cs && c.Active? && IsActive(c.run.status)
    ensures c.run.runId in after && after[c.run.runId] == c.run.status
  {
  }

  /** The runs in the target set are the observed ones; each has the status its active correction reports. */
  lemma ObservedAreKept(checkpoint: seq<ActiveRunInfo>, observed: seq<ActiveRunInfo>, after: map<string, Status>, k: string)
    requires forall r :: r in checkpoint || r in observed ==> IsActive(r.status)
    requires Decided(ActiveSet(checkpoint), Plan(checkpoint, observed), after)
    requires k in ActiveSet(observed)
    ensures k in after && after[k] == Target(ActiveSet(checkpoint), ActiveSet(observed))[k]
  {
    hide Plan, ByRun, ActiveSet, Has, CheckpointStatus, Decided, IsActive;
    var o := ActivePlanned(checkpoint, observed, k);
    CheckpointStatusIs(checkpoint, o);
    DecidedFor(ActiveSet(checkpoint), Plan(checkpoint, observed), after, Active(CheckpointStatus(ByRun(checkpoint), o)));
  }

  lemma OthersAreGone(checkpoint: seq<ActiveRunInfo>, observed: seq<ActiveRunInfo>, after: map<string, Status>, k: string)
    requires forall r :: r in checkpoint || r in observed ==> IsActive(r.status)
    requires Decided(ActiveSet(checkpoint), Plan(checkpoint, observed), after)
    requires k !in ActiveSet(observed)
    ensures k !in after
  {
    hide Plan, ByRun, ActiveSet, Has, CheckpointStatus;
    var cs := Plan(checkpoint, observed);
    PlanFacts(checkpoint, observed);
    ByRunIsMap(checkpoint);
    ByRunIsMap(observed);
    assert !Has(ByRun(observed), k);
    if k in ActiveSet(checkpoint) {
      var r :| r in ByRun(checkpoint) && r.runId == k;
      assert Disappeared(r) in cs;
    } else if k in RunIds(cs) {
      var c :| c in cs && c.run.runId == k;
      if c.Active? {
        var o :| o in ByRun(observed) && c.run == CheckpointStatus(ByRun(checkpoint), o);
        CheckpointStatusKeepsRun(ByRun(checkpoint), o);
      }
    }
  }

  lemma DecidedIsTarget(checkpoint: seq<ActiveRunInfo>, observed: seq<ActiveRunInfo>, after: map<string, Status>)
    requires forall r :: r in checkpoint || r in observed ==> IsActive(r.status)
    requires Decided(ActiveSet(checkpoint), Plan(checkpoint, observed), after)
    ensures after == Target(ActiveSet(checkpoint), ActiveSet(observed))
  {
    hide Plan, ActiveSet, Decided;
    var target := Target(ActiveSet(checkpoint), ActiveSet(observed));
    forall k ensures k in after <==> k in target {
      if k in ActiveSet(observed) {
        ObservedAreKept(checkpoint, observed, after, k);
      } else {
        OthersAreGone(checkpoint, observed, after, k);
      }
    }
    forall k | k in after ensures after[k] == target[k] {
      ObservedAreKept(checkpoint, observed, after, k);
    }
  }

  /**
   Reconciliation converges. On an encoder that has seen nothing of the generation, every correction is exactly one
   event, numbered from 1, and a backend that applies those events to its checkpoint is left with exactly the
   observed runs, those it already knew keeping the status it had for them.
   */
  lemma ReconciliationConverges(
    e: Encoder, serverId: string, generation: string, checkpoint: seq<ActiveRunInfo>, observed: seq<ActiveRunInfo>, clock: nat -> int)
    requires UsableGeneration(generation) && IsIdentifier(serverId) && FreshFor(e, generation)
    requires forall r :: r in checkpoint || r in observed ==> CleanRun(r)
    requires |Plan(checkpoint, observed)| <= MAX_SAFE_INTEGER
    ensures
      var cs := Plan(checkpoint, observed);
      var (after, events) := CorrectAll(e, serverId, generation, cs, clock);
      && EventsMatch(events, cs, generation)
      && ApplyEvents(ActiveSet(checkpoint), events) == Target(ActiveSet(checkpoint), ActiveSet(observed))
  {
    hide Plan, ByRun, CorrectAll, UsableGeneration, IsIdentifier, ActiveSet, CheckpointStatus;
    var cs := Plan(checkpoint, observed);
    PlanFacts(checkpoint, observed);
    ByRunIsMap(checkpoint);
    ByRunIsMap(observed);
    forall c | c in cs ensures CleanRun(c.run) {
      if c.Active? {
        var o :| o in ByRun(observed) && c.run == CheckpointStatus(ByRun(checkpoint), o);
        assert CleanRun(o);
        CheckpointStatusIs(checkpoint, o);
      }
    }
    CorrectAllEmits(e, serverId, generation, cs, clock);
    var events := CorrectAll(e, serverId, generation, cs, clock).1;
    FoldDecides(ActiveSet(checkpoint), cs, events, generation);
    DecidedIsTarget(checkpoint, observed, ApplyEvents(ActiveSet(checkpoint), events));
  }
}
