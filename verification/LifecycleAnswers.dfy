/** What the relay's single operations come to, said of the answers they get. */
module LifecycleAnswers {
  import opened Options
  import opened LifecycleContract
  import opened OpenClawAdapter
  import opened TransitionEncoder
  import opened Reconciliation
  import opened LifecycleOutbox
  import opened LifecyclePipeline

  // ----- a drain

  /** The i-th entry of a drain is accepted and removed; each entry before it took two calls. */
  predicate GoesThrough(w: World, env: Env, i: nat) {
    env.answers(w.tick + 2 * i).submit.Accepted? && env.answers(w.tick + 2 * i + 1).file.Done?
  }

  /** How many entries of n go through before one does not. */
  function Through(w: World, env: Env, n: nat, i: nat): (k: nat)
    requires i <= n
    ensures i <= k <= n && (forall j :: i <= j < k ==> GoesThrough(w, env, j)) && (k < n ==> !GoesThrough(w, env, k))
    decreases n - i
  {
    if i < n && GoesThrough(w, env, i) then Through(w, env, n, i + 1) else i
  }

  function Exchanges(entries: seq<Entry>): seq<Action> {
    if entries == [] then [] else [Submitted(entries[0], Accepted), Removed(entries[0])] + Exchanges(entries[1..])
  }

  /** What is logged of the entry that does not go through. */
  function Stopping(e: Entry, submit: SubmitAnswer, file: FileAnswer): seq<Action> {
    [Submitted(e, submit)] +
    if file.FailedBefore? then []
    else if submit.Accepted? then [Removed(e)]
    else if submit.Rejected? && submit.status in {400, 422} then [Action.Quarantined(e)]
    else []
  }

  /** How a drain of these entries ends when k of them have gone through. */
  predicate EndsSo(w: World, env: Env, entries: seq<Entry>, k: nat, after: World, result: DrainResult, acknowledged: nat)
    requires k <= |entries|
  {
    var done := w.core.log + Exchanges(entries[..k]);
    if k == |entries| then
      && result == Drained(acknowledged + k, |after.core.pending|, false, false)
      && after.core.log == done + [DrainEnded(|after.core.pending|, false)]
    else
      var submit, file := env.answers(w.tick + 2 * k).submit, env.answers(w.tick + 2 * k + 1).file;
      var refused := submit.Rejected? && submit.status in {400, 422};
      var gap := submit.Rejected? && submit.gap;
      var tried := if submit.Accepted? || refused then file else FileAnswer.Done;
      var stopped := done + Stopping(entries[k], submit, tried);
      if refused && !file.Done? then result == DrainThrew && after.core.log == stopped
      else
        && result == Drained(acknowledged + k, |after.core.pending|, true, gap)
        && after.core.log == stopped + [DrainEnded(|after.core.pending|, gap)]
  }

  lemma OneGoesThrough(w: World, env: Env, e: Entry)
    requires GoesThrough(w, env, 0)
    ensures
      var (removed, threw) := Acknowledge(Submit(w, env, e).0, env, e);
      && Submit(w, env, e).1 == Accepted && !threw && removed.tick == w.tick + 2
      && removed.core.log == w.core.log + [Submitted(e, Accepted), Removed(e)]
  {
    hide RemoveName;
  }

  lemma OneStops(w: World, env: Env, entries: seq<Entry>, acknowledged: nat)
    requires entries != [] && !GoesThrough(w, env, 0)
    ensures
      var (after, result) := DrainLoop(w, env, entries, acknowledged);
      EndsSo(w, env, entries, 0, after, result, acknowledged)
  {
    hide Submit, Acknowledge, Quarantine, Stopping;
    var e := entries[0];
    assert entries[..0] == [] && w.core.log + [] == w.core.log;
    OneFails(w, env, e);
    StoppingAre(w, env, e);
  }

  lemma OneFails(w: World, env: Env, e: Entry)
    ensures
      var (submitted, answer) := Submit(w, env, e);
      var file := env.answers(w.tick + 1).file;
      var (removed, kept) := Acknowledge(submitted, env, e);
      var (moved, stays) := Quarantine(submitted, env, e);
      && answer == env.answers(w.tick).submit && submitted.core.log == w.core.log + [Submitted(e, answer)]
      && kept == stays == (file != FileAnswer.Done)
      && removed.core.log == submitted.core.log + (if file.FailedBefore? then [] else [Removed(e)])
      && moved.core.log == submitted.core.log + (if file.FailedBefore? then [] else [Action.Quarantined(e)])
  {
    hide RemoveName;
    var submitted := Submit(w, env, e).0;
    assert submitted.core.log + [] == submitted.core.log;
  }

  lemma StoppingAre(w: World, env: Env, e: Entry)
    ensures
      var answer, file := env.answers(w.tick).submit, env.answers(w.tick + 1).file;
      && (answer.Accepted? ==>
            w.core.log + Stopping(e, answer, file) ==
              w.core.log + [Submitted(e, answer)] + (if file.FailedBefore? then [] else [Removed(e)]))
      && (Permanent(answer) ==>
            w.core.log + Stopping(e, answer, file) ==
              w.core.log + [Submitted(e, answer)] + (if file.FailedBefore? then [] else [Action.Quarantined(e)]))
      && (!answer.Accepted? && !Permanent(answer) ==>
            w.core.log + Stopping(e, answer, FileAnswer.Done) == w.core.log + [Submitted(e, answer)])
  {
  }

  lemma NothingToDrain(w: World, env: Env, acknowledged: nat)
    ensures
      var (after, result) := DrainLoop(w, env, [], acknowledged);
      EndsSo(w, env, [], 0, after, result, acknowledged)
  {
    assert w.core.log + [] == w.core.log;
  }

  lemma EndsSoLater(
    w: World, v: World, env: Env, entries: seq<Entry>, k: nat, after: World, result: DrainResult, acknowledged: nat)
    requires entries != [] && k < |entries| && v.tick == w.tick + 2
    requires v.core.log == w.core.log + [Submitted(entries[0], Accepted), Removed(entries[0])]
    requires EndsSo(v, env, entries[1..], k, after, result, acknowledged + 1)
    ensures EndsSo(w, env, entries, k + 1, after, result, acknowledged)
  {
    hide Stopping;
    assert entries[..k + 1][1..] == entries[1..][..k];
    assert w.core.log + Exchanges(entries[..k + 1]) == v.core.log + Exchanges(entries[1..][..k]);
  }

  lemma {:induction false} DrainLoopAnswers(w: World, env: Env, entries: seq<Entry>, acknowledged: nat) returns (k: nat)
    ensures k <= |entries| && (forall i :: 0 <= i < k ==> GoesThrough(w, env, i)) && (k < |entries| ==> !GoesThrough(w, env, k))
    ensures
      var (after, result) := DrainLoop(w, env, entries, acknowledged);
      EndsSo(w, env, entries, k, after, result, acknowledged)
    decreases |entries|
  {
    hide Submit, Acknowledge, EndsSo;
    if entries == [] {
      NothingToDrain(w, env, acknowledged);
      k := 0;
    } else if GoesThrough(w, env, 0) {
      OneGoesThrough(w, env, entries[0]);
      var removed := Acknowledge(Submit(w, env, entries[0]).0, env, entries[0]).0;
      var later := DrainLoopAnswers(removed, env, entries[1..], acknowledged + 1);
      var (after, result) := DrainLoop(w, env, entries, acknowledged);
      EndsSoLater(w, removed, env, entries, later, after, result, acknowledged);
      k := later + 1;
      forall i | 0 <= i < k ensures GoesThrough(w, env, i) {
        if i > 0 {
          assert GoesThrough(removed, env, i - 1);
        }
      }
    } else {
      OneStops(w, env, entries, acknowledged);
      k := 0;
    }
  }

  /**
   A drain submits the pending entries in order for as long as they go through, that is for as long as each is accepted and
   its file removed. If all do it is not blocked and leaves what came in meanwhile, which is nothing. The first that does
   not stops it: one refused with 400 or 422 is moved away, and makes the drain throw if that fails; a gap is reported just
   if its refusal says so.
   */
  lemma DrainAnswers(w: World, env: Env)
    ensures
      var (after, result) := Drain(w, env);
      EndsSo(w, env, w.core.pending, Through(w, env, |w.core.pending|, 0), after, result, 0)
  {
    hide DrainLoop, EndsSo;
    var k := DrainLoopAnswers(w, env, w.core.pending, 0);
    var n, m := |w.core.pending|, Through(w, env, |w.core.pending|, 0);
    assert k == m by {
      assert k < m ==> GoesThrough(w, env, k);
      assert m < k ==> GoesThrough(w, env, m);
    }
  }

  // ----- storing and registering

  predicate DistinctIdentities(pending: seq<Entry>) {
    forall i, j :: 0 <= i < j < |pending| ==> !SameIdentity(pending[i].event, pending[j].event)
  }

  lemma {:induction false} ExistingIsTheOne(pending: seq<Entry>, event: Event)
    requires DistinctIdentities(pending)
    ensures forall p :: p in pending && SameIdentity(p.event, event) ==> Existing(pending, event) == Some(p)
  {
    if pending != [] && !SameIdentity(pending[0].event, event) {
      ExistingIsTheOne(pending[1..], event);
    } else if pending != [] {
      forall p | p in pending && SameIdentity(p.event, event) ensures p == pending[0] {
        var i :| 0 <= i < |pending| && pending[i] == p;
        assert i > 0 ==> !SameIdentity(pending[0].event, pending[i].event);
      }
    }
  }

  /**
   Storing an event. If one with its server and event id is pending, nothing is stored, and the call throws exactly if that
   is another event. Otherwise it throws if the outbox is full; and if it is not, the event is stored and logged unless
   writing fails beforehand, and the call throws if writing fails at all.
   */
  lemma EnqueueAnswers(w: World, env: Env, event: Event)
    requires DistinctIdentities(w.core.pending)
    ensures
      var (after, threw) := Enqueue(w, env, event);
      var file := env.answers(w.tick).file;
      var known := exists p :: p in w.core.pending && SameIdentity(p.event, event);
      && (known ==> after == w && (threw <==> exists p :: p in w.core.pending && SameIdentity(p.event, event) && p.event != event))
      && (!known && |w.core.pending| >= env.maxPending ==> after == w && threw)
      && (!known && |w.core.pending| < env.maxPending ==>
            && threw == (file != FileAnswer.Done)
            && after.core.log == w.core.log + (if file.FailedBefore? then [] else [Stored(MakeEntry(env.digest, w.core.clock, event))])
            && after.core.pending == (if file.FailedBefore? then w.core.pending
                                      else Insert(w.core.pending, MakeEntry(env.digest, w.core.clock, event))))
  {
    hide Insert, Existing, SameIdentity;
    ExistingIsTheOne(w.core.pending, event);
    assert w.core.log + [] == w.core.log;
  }

  /**
   Registering the current generation. It counts as registered, and is logged so, exactly if the backend grants it for the
   relay's own server; the backend's active runs are passed on exactly if the state could then be saved as well.
   */
  lemma RegisterAnswers(w: World, env: Env)
    requires w.core.current.Some? && !w.core.current.value.registered
    ensures
      var (after, response) := RegisterCurrent(w, env);
      var s, answer := w.core.current.value, env.answers(w.tick).register;
      var granted := answer.Granted? && answer.serverId == s.serverId;
      && after.core.current.Some? && after.core.current.value == s.(registered := granted, updatedAt := after.core.current.value.updatedAt)
      && after.core.log == w.core.log + (if granted then [Registered(s.generation)] else [])
      && response == (if granted && env.answers(w.tick + 1).file.Done? then Some(answer.activeRuns) else None)
  {
    assert w.core.log + [] == w.core.log;
  }

  // ----- the retry

  function Rank(t: Trigger): nat {
    if t == SequenceGap then 2 else if t == Anomaly then 1 else 0
  }

  function ScheduleAll(w: World, triggers: seq<Trigger>): World {
    if triggers == [] then w else ScheduleRetry(ScheduleAll(w, triggers[..|triggers| - 1]), triggers[|triggers| - 1])
  }

  function DelayMs(attempt: nat): nat {
    if attempt == 0 then 1_000 else if attempt == 1 then 2_000 else if attempt == 2 then 5_000
    else if attempt == 3 then 10_000 else if attempt == 4 then 30_000 else 60_000
  }

  /**
   However often a retry is asked for before its timer fires, there is one timer, with the delay of the attempt that armed it,
   and the trigger kept for it is the weightiest of those asked for. When it fires, that is what the relay is activated with.
   */
  lemma {:induction false} RetryKeepsTheWeightiest(w: World, env: Env, triggers: seq<Trigger>)
    requires triggers != [] && w.timer.None? && w.retry.None?
    ensures
      var after := ScheduleAll(w, triggers);
      && after.timer == Some(DelayMs(w.attempt)) && after.attempt == w.attempt + 1
      && after.retry.Some? && after.retry.value in triggers && (forall t :: t in triggers ==> Rank(t) <= Rank(after.retry.value))
      && after == w.(timer := after.timer, attempt := after.attempt, retry := after.retry)
      && React(after, env, TimerFires) == w.(attempt := after.attempt, queue := w.queue + [ActivateOp(after.retry.value)])
  {
    hide RunOperation;
    var n := |triggers| - 1;
    if n == 0 {
      assert triggers[..0] == [];
    } else {
      RetryKeepsTheWeightiest(w, env, triggers[..n]);
      assert triggers == triggers[..n] + [triggers[n]];
    }
  }
}
