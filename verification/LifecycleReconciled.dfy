/** What reconciliation stores: the events that converge, in order, and nothing else. */
module LifecycleReconciled {
  import opened Options
  import opened Text
  import opened Decimal
  import opened LifecycleContract
  import opened OpenClawAdapter
  import opened TransitionEncoder
  import opened Reconciliation
  import opened LifecycleOutbox
  import opened LifecyclePipeline
  import opened LifecycleProtocol
  import opened LifecycleRefinement

  /** The events stored, in the order in which they were. */
  function StoredEvents(log: seq<Action>): seq<Event> {
    if log == [] then []
    else StoredEvents(log[..|log| - 1]) + if log[|log| - 1].Stored? then [log[|log| - 1].entry.event] else []
  }

  lemma StoredMore(log: seq<Action>, a: Action)
    ensures StoredEvents(log + [a]) == StoredEvents(log) + if a.Stored? then [a.entry.event] else []
  {
    assert (log + [a])[..|log|] == log;
  }

  /** No pending event has the id of a number that the generation has yet to reach. */
  ghost predicate NoIdAhead(pending: seq<Entry>, e: Encoder, generation: string) {
    forall p, k: nat :: p in pending && LastSequence(e, generation) < k ==> p.event.eventId != EventId(generation, k)
  }

  lemma {:induction false} InsertMembers(pending: seq<Entry>, e: Entry)
    ensures forall p :: p in Insert(pending, e) ==> p in pending || p == e
  {
    hide Before;
    if pending != [] {
      InsertMembers(pending[1..], e);
    }
  }

  /** Storing an event with the next id either throws or files and logs it. */
  lemma EnqueueFiles(w: World, env: Env, event: Event)
    requires forall p :: p in w.core.pending ==> p.event.eventId != event.eventId
    ensures
      var (after, threw) := Enqueue(w, env, event);
      !threw ==>
        && StoredEvents(after.core.log) == StoredEvents(w.core.log) + [event]
        && after.core.encoder == w.core.encoder
        && forall p :: p in after.core.pending ==> p in w.core.pending || p.event == event
  {
    hide Insert, StoredEvents, FileName;
    var entry := MakeEntry(env.digest, w.core.clock, event);
    StoredMore(w.core.log, Stored(entry));
    InsertMembers(w.core.pending, entry);
  }

  lemma OneIsStored(w: World, env: Env, s: SourceState, c: Correction)
    requires Trimmed(s.generation) && NoIdAhead(w.core.pending, w.core.encoder, s.generation)
    requires !ApplyCorrections(w, env, s, [c]).1
    ensures
      var after := ApplyCorrections(w, env, s, [c]).0;
      var (e, outcome) := Correct(w.core.encoder, s.serverId, s.generation, c, w.core.clock);
      && after.core.encoder == e && NoIdAhead(after.core.pending, e, s.generation)
      && StoredEvents(after.core.log) == StoredEvents(w.core.log) + if outcome.Emitted? then [outcome.event] else []
  {
    hide Correct, Enqueue, EventId, StoredEvents;
    var (e, outcome) := Correct(w.core.encoder, s.serverId, s.generation, c, w.core.clock);
    CorrectFits(w.core.encoder, s, c, w.core.clock);
    var encoded := SetEncoder(w, e);
    assert [c][1..] == [];
    if outcome.Emitted? {
      EnqueueFiles(encoded, env, outcome.event);
      IdsAheadDiffer(s.generation, outcome.event.sequence);
      var stored := Enqueue(encoded, env, outcome.event).0;
      assert ApplyCorrections(stored, env, s, []) == (stored, false);
    } else {
      assert StoredEvents(w.core.log) + [] == StoredEvents(w.core.log);
      assert ApplyCorrections(encoded, env, s, []) == (encoded, false);
    }
  }

  lemma IdsAheadDiffer(generation: string, n: nat)
    ensures forall k: nat :: n < k ==> EventId(generation, k) != EventId(generation, n)
  {
    hide EventId;
    forall k: nat | n < k ensures EventId(generation, k) != EventId(generation, n) {
      if EventId(generation, k) == EventId(generation, n) {
        EventIdInjective(generation, k, generation, n);
      }
    }
  }

  /** A loop that does not throw is its front and then its last correction. */
  lemma {:induction false} LastCorrection(w: World, env: Env, s: SourceState, cs: seq<Correction>)
    requires cs != [] && !ApplyCorrections(w, env, s, cs).1
    ensures
      var (front, threw) := ApplyCorrections(w, env, s, cs[..|cs| - 1]);
      !threw && ApplyCorrections(w, env, s, cs) == ApplyCorrections(front, env, s, [cs[|cs| - 1]])
    decreases |cs|
  {
    hide Correct, Enqueue;
    var n := |cs| - 1;
    if n == 0 {
      assert cs == [cs[0]] && cs[..0] == [];
    } else {
      var (e, outcome) := Correct(w.core.encoder, s.serverId, s.generation, cs[0], w.core.clock);
      var next := if outcome.Emitted? then Enqueue(SetEncoder(w, e), env, outcome.event).0 else SetEncoder(w, e);
      LastCorrection(next, env, s, cs[1..]);
      assert cs[1..][..n - 1] == cs[..n][1..];
    }
  }

  /** The loop over the corrections stores, in order, the events that correcting one after the other gives. */
  lemma {:induction false} CorrectionsAreStored(w: World, env: Env, s: SourceState, cs: seq<Correction>, clock: nat -> int)
    requires Trimmed(s.generation) && NoIdAhead(w.core.pending, w.core.encoder, s.generation)
    requires !ApplyCorrections(w, env, s, cs).1
    requires forall k :: 0 <= k < |cs| ==> clock(k) == ApplyCorrections(w, env, s, cs[..k]).0.core.clock
    ensures
      var after := ApplyCorrections(w, env, s, cs).0;
      var (e, events) := CorrectAll(w.core.encoder, s.serverId, s.generation, cs, clock);
      && after.core.encoder == e && NoIdAhead(after.core.pending, e, s.generation)
      && StoredEvents(after.core.log) == StoredEvents(w.core.log) + events
  {
    hide Correct, Enqueue, StoredEvents, NoIdAhead, ApplyCorrections;
    if cs == [] {
      NoCorrections(w, env, s);
      assert StoredEvents(w.core.log) + [] == StoredEvents(w.core.log);
    } else {
      var n := |cs| - 1;
      LastCorrection(w, env, s, cs);
      assert forall k :: 0 <= k < n ==> cs[..n][..k] == cs[..k];
      CorrectionsAreStored(w, env, s, cs[..n], clock);
      OneIsStored(ApplyCorrections(w, env, s, cs[..n]).0, env, s, cs[n]);
    }
  }

  lemma NoCorrections(w: World, env: Env, s: SourceState)
    ensures ApplyCorrections(w, env, s, []) == (w, false)
  {
  }

  /**
   What the relay stores converges. With an encoder that has seen nothing of the generation, when the loop over the
   planned corrections does not throw, the events it has stored are one for each correction, numbered from 1 in order,
   and a backend that applies them to its checkpoint is left with exactly the observed runs.
   */
  lemma StoredCorrectionsConverge(
    w: World, env: Env, s: SourceState, checkpoint: seq<ActiveRunInfo>, observed: seq<ActiveRunInfo>) returns (events: seq<Event>)
    requires UsableGeneration(s.generation) && IsIdentifier(s.serverId) && FreshFor(w.core.encoder, s.generation)
    requires forall r :: r in checkpoint || r in observed ==> CleanRun(r)
    requires |Plan(checkpoint, observed)| <= MAX_SAFE_INTEGER
    requires NoIdAhead(w.core.pending, w.core.encoder, s.generation)
    requires !ApplyCorrections(w, env, s, Plan(checkpoint, observed)).1
    ensures
      && StoredEvents(ApplyCorrections(w, env, s, Plan(checkpoint, observed)).0.core.log) == StoredEvents(w.core.log) + events
      && EventsMatch(events, Plan(checkpoint, observed), s.generation)
      && ApplyEvents(ActiveSet(checkpoint), events) == Target(ActiveSet(checkpoint), ActiveSet(observed))
  {
    hide Plan, FreshFor, Trimmed, CleanRun, ApplyCorrections, StoredEvents, NoIdAhead, EventsMatch, ApplyEvents, ActiveSet, Target, CorrectAll;
    var cs := Plan(checkpoint, observed);
    var clock: nat -> int := (k: nat) => if k < |cs| then ApplyCorrections(w, env, s, cs[..k]).0.core.clock else 0;
    CorrectionsAreStored(w, env, s, cs, clock);
    ReconciliationConverges(w.core.encoder, s.serverId, s.generation, checkpoint, observed, clock);
    events := CorrectAll(w.core.encoder, s.serverId, s.generation, cs, clock).1;
  }
}
