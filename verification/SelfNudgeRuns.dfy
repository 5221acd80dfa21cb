/**
 * The runner over all firings of its timer: every nudge sent backs off, the count of nudges falls behind by at most one,
 * and one tick that throws ends all nudging.
 */
module SelfNudgeRuns {
  import opened Options
  import opened SelfNudge
  import opened SelfNudgeProofs

  // ----- one firing

  /** A firing that does not leave the request: it evaluates it, or evaluates nothing. */
  predicate Continues(f: Firing, key: Key, base: int) {
    match f
    case Disabled => false
    case Evaluation(t) => GoesOn(t, key, base)
    case _ => true
  }

  predicate AllContinue(firings: seq<Firing>, key: Key, base: int) {
    forall i :: 0 <= i < |firings| ==> Continues(firings[i], key, base)
  }

  /** Nothing has been counted for the request since it became the current one. */
  predicate Fresh(s: NudgeState, key: Key) {
    Begun(s, key).consecutiveNudges == 0 && Begun(s, key).lastNudgeAt.None?
  }

  /** The firing sends a nudge. */
  predicate Sends(r: Runner, max: nat, pollMs: int, f: Firing) {
    |NudgeTimes(Fired(r, max, pollMs, f).world.log)| > |NudgeTimes(r.world.log)|
  }

  /** Where the wait for the next nudge starts, as a tick sees it. */
  function Anchor(s: NudgeState, t: Tick): int
    requires t.latestUser.Some?
  {
    if s.lastNudgeAt.Some? then s.lastNudgeAt.value else Activity(t)
  }

  /** What a tick for the request does: a nudge waits its time whether it comes to be counted or not. */
  lemma TickSends(r: Runner, max: nat, pollMs: int, t: Tick, key: Key, base: int)
    requires r.timer.Some? && GoesOn(t, key, base)
    ensures
      var s := Begun(r.world.state, key);
      var v := Fired(r, max, pollMs, Evaluation(t));
      var sent := Sends(r, max, pollMs, Evaluation(t));
      && t.latestUser.Some? && v.world.state.current == Some(key)
      && NudgeTimes(v.world.log) == NudgeTimes(r.world.log) + (if sent then [t.now] else [])
      && (sent ==> t.now - Anchor(s, t) >= WaitMs(t.baseTimeoutMs, s.consecutiveNudges))
      && (|| (v.world.state.consecutiveNudges == s.consecutiveNudges && v.world.state.lastNudgeAt == s.lastNudgeAt)
          || (sent && v.world.state.consecutiveNudges == s.consecutiveNudges + 1 && v.world.state.lastNudgeAt == Some(t.now)))
      && (sent && v.timer.Some? ==> v.world.state.consecutiveNudges == s.consecutiveNudges + 1)
  {
    hide Marked, MarkedNotice, WaitMs, Activity, Settled, IsFinal, Find, Stale, NudgeTimes, NoticeFails;
    TimesMore(r.world.log, Nudge(key, t.messages, t.now));
    TimesMore(r.world.log, FinalNotice(key, t.now));
  }

  lemma NoEvaluation(r: Runner, max: nat, pollMs: int, f: Firing)
    requires r.timer.None? || f in {NoGateway, NotIdle, NoTranscript}
    ensures Fired(r, max, pollMs, f).world == r.world && !Sends(r, max, pollMs, f)
    ensures r.timer.Some? <==> Fired(r, max, pollMs, f).timer.Some?
  {
  }

  // ----- over a run

  /** The tick that sent the first nudge of a run, if one did. */
  function FirstSending(r: Runner, max: nat, pollMs: int, firings: seq<Firing>): Option<Tick> {
    if firings == [] then None
    else
      var n := |firings| - 1;
      var before := FirstSending(r, max, pollMs, firings[..n]);
      if before.Some? then before
      else if firings[n].Evaluation? && Sends(RunOn(r, max, pollMs, firings[..n]), max, pollMs, firings[n]) then Some(firings[n].tick)
      else None
  }

  lemma {:induction false} FirstSendingAmong(r: Runner, max: nat, pollMs: int, firings: seq<Firing>)
    ensures var first := FirstSending(r, max, pollMs, firings);
            first.Some? ==> Evaluation(first.value) in firings
  {
    if firings != [] {
      FirstSendingAmong(r, max, pollMs, firings[..|firings| - 1]);
    }
  }

  /** A run on one request up to some point: what it sent, and where its count stands. */
  predicate Chain(r: Runner, max: nat, pollMs: int, firings: seq<Firing>, key: Key, base: int, times: seq<int>) {
    var v := RunOn(r, max, pollMs, firings);
    var s := Begun(v.world.state, key);
    var first := FirstSending(r, max, pollMs, firings);
    && NudgeTimes(v.world.log) == NudgeTimes(r.world.log) + times
    && (v.timer.Some? ==> Counted(s, times))
    && s.consecutiveNudges <= |times| <= s.consecutiveNudges + 1
    && (if times == [] then first.None?
        else first.Some? && first.value.latestUser.Some? && TimesBackOff(times, Activity(first.value), base))
  }

  /** Each of the nudges has been counted. */
  predicate Counted(s: NudgeState, times: seq<int>) {
    s.consecutiveNudges == |times| && s.lastNudgeAt == if times == [] then None else Some(times[|times| - 1])
  }

  lemma ChainStarts(r: Runner, max: nat, pollMs: int, key: Key, base: int)
    requires Fresh(r.world.state, key)
    ensures Chain(r, max, pollMs, [], key, base, [])
  {
    assert NudgeTimes(r.world.log) + [] == NudgeTimes(r.world.log);
  }

  lemma Last(r: Runner, max: nat, pollMs: int, firings: seq<Firing>)
    requires firings != []
    ensures
      var n := |firings| - 1;
      var before := RunOn(r, max, pollMs, firings[..n]);
      var first := FirstSending(r, max, pollMs, firings[..n]);
      && RunOn(r, max, pollMs, firings) == Fired(before, max, pollMs, firings[n])
      && FirstSending(r, max, pollMs, firings) ==
           (if first.Some? then first
            else if firings[n].Evaluation? && Sends(before, max, pollMs, firings[n]) then Some(firings[n].tick) else None)
  {
    hide Fired, Sends;
  }

  lemma ChainGoesOn(r: Runner, max: nat, pollMs: int, firings: seq<Firing>, key: Key, base: int, times: seq<int>) returns (more: seq<int>)
    requires firings != [] && Continues(firings[|firings| - 1], key, base)
    requires Chain(r, max, pollMs, firings[..|firings| - 1], key, base, times)
    ensures Chain(r, max, pollMs, firings, key, base, more)
  {
    hide Fired, Sends, Activity, GoesOn, WaitMs, Triangle, TimesBackOff, NudgeTimes, RunOn, FirstSending;
    var n := |firings| - 1;
    var before := RunOn(r, max, pollMs, firings[..n]);
    Last(r, max, pollMs, firings);
    if before.timer.None? || !firings[n].Evaluation? {
      NoEvaluation(before, max, pollMs, firings[n]);
      more := times;
    } else {
      var t := firings[n].tick;
      TickSends(before, max, pollMs, t, key, base);
      if Sends(before, max, pollMs, firings[n]) {
        more := times + [t.now];
        var first := FirstSending(r, max, pollMs, firings).value;
        SendBacksOff(Begun(before.world.state, key), t, times, Activity(first), key, base);
        assert NudgeTimes(r.world.log) + times + [t.now] == NudgeTimes(r.world.log) + more;
      } else {
        more := times;
        assert times + [] == times;
        assert NudgeTimes(before.world.log) + [] == NudgeTimes(before.world.log);
      }
    }
  }

  /** One more nudge, sent when its wait has passed, keeps the bound. */
  lemma SendBacksOff(s: NudgeState, t: Tick, times: seq<int>, anchor: int, key: Key, base: int)
    requires GoesOn(t, key, base) && t.latestUser.Some? && Counted(s, times)
    requires t.now - Anchor(s, t) >= WaitMs(t.baseTimeoutMs, s.consecutiveNudges)
    requires if times == [] then anchor == Activity(t) else TimesBackOff(times, anchor, base)
    ensures TimesBackOff(times + [t.now], anchor, base)
  {
    hide Activity, WaitMs, GoesOn;
    var k := |times|;
    assert Base(t.baseTimeoutMs) >= base by { GoesOnFacts(t, key, base); }
    WaitGrows(t.baseTimeoutMs, base, k);
    Distribute(base, Triangle(k), k + 1);
    if times != [] {
      assert times[k - 1] >= anchor + base * Triangle(k - 1 + 1);
    }
  }

  lemma {:induction false} RunIsChain(r: Runner, max: nat, pollMs: int, firings: seq<Firing>, key: Key, base: int) returns (times: seq<int>)
    requires AllContinue(firings, key, base) && Fresh(r.world.state, key)
    ensures Chain(r, max, pollMs, firings, key, base, times)
  {
    hide Chain, Continues, Fresh;
    if firings == [] {
      ChainStarts(r, max, pollMs, key, base);
      times := [];
    } else {
      var before := RunIsChain(r, max, pollMs, firings[..|firings| - 1], key, base);
      times := ChainGoesOn(r, max, pollMs, firings, key, base, before);
    }
  }

  /**
   * The bound on the nudges the user receives, in every run of the runner and whatever throws. From the moment a
   * request becomes current, and while no other does, the k-th nudge sent comes at least base * k(k+1)/2 after the
   * activity that anchored the first.
   */
  lemma SentNudgesBackOff(r: Runner, max: nat, pollMs: int, firings: seq<Firing>, key: Key, base: int, k: nat)
    requires AllContinue(firings, key, base) && Fresh(r.world.state, key)
    requires 1 <= k && |NudgeTimes(r.world.log)| + k <= |NudgeTimes(RunOn(r, max, pollMs, firings).world.log)|
    ensures
      var first := FirstSending(r, max, pollMs, firings);
      && first.Some? && Evaluation(first.value) in firings && first.value.latestUser.Some?
      && 2 * (NudgeTimes(RunOn(r, max, pollMs, firings).world.log)[|NudgeTimes(r.world.log)| + k - 1] - Activity(first.value))
           >= base * (k * (k + 1))
  {
    hide RunOn, Activity, FirstSending, AllContinue, NudgeTimes, Triangle, Fresh;
    var times := RunIsChain(r, max, pollMs, firings, key, base);
    FirstSendingAmong(r, max, pollMs, firings);
    TriangleIs(k);
    Doubled(base, Triangle(k));
    assert times[k - 1] >= Activity(FirstSending(r, max, pollMs, firings).value) + base * Triangle(k - 1 + 1);
  }

  /**
   * In every run of the runner on one request: as long as it goes on each nudge sent is counted, and when it has
   * stopped at most the last one is not.
   */
  lemma {:induction false} RunnerCounts(r: Runner, max: nat, pollMs: int, firings: seq<Firing>, key: Key, base: int)
    requires AllContinue(firings, key, base) && Fresh(r.world.state, key)
    ensures
      var v := RunOn(r, max, pollMs, firings);
      var sent, counted := |NudgeTimes(v.world.log)| - |NudgeTimes(r.world.log)|, Begun(v.world.state, key).consecutiveNudges;
      counted <= sent <= counted + 1 && (v.timer.Some? ==> sent == counted)
  {
    hide RunOn, FirstSending, AllContinue, NudgeTimes, Fresh;
    var times := RunIsChain(r, max, pollMs, firings, key, base);
  }

  // ----- the timer

  /** The firing evaluates a tick that throws. */
  predicate ThrowsAt(r: Runner, max: nat, f: Firing) {
    f.Evaluation? && Delay(r.world, max, f.tick).None?
  }

  predicate NoneThrows(r: Runner, max: nat, pollMs: int, firings: seq<Firing>) {
    forall i :: 0 <= i < |firings| ==> !ThrowsAt(RunOn(r, max, pollMs, firings[..i]), max, firings[i])
  }

  /** A runner without a timer stays as it is, whatever it would have found. */
  lemma {:induction false} StoppedStays(r: Runner, max: nat, pollMs: int, firings: seq<Firing>)
    requires r.timer.None?
    ensures RunOn(r, max, pollMs, firings) == r
  {
    if firings != [] {
      StoppedStays(r, max, pollMs, firings[..|firings| - 1]);
    }
  }

  /** In every run of a started runner: it goes on if and only if no tick so far threw. */
  lemma {:induction false} GoesOnExactly(r: Runner, max: nat, pollMs: int, firings: seq<Firing>)
    requires r.timer.Some?
    ensures RunOn(r, max, pollMs, firings).timer.Some? <==> NoneThrows(r, max, pollMs, firings)
  {
    hide Ticked, Delay;
    if firings != [] {
      var n := |firings| - 1;
      GoesOnExactly(r, max, pollMs, firings[..n]);
      assert forall i :: 0 <= i < n ==> firings[..n][..i] == firings[..i] && firings[..n][i] == firings[i];
    }
  }

  lemma {:induction false} RunOnJoins(r: Runner, max: nat, pollMs: int, before: seq<Firing>, later: seq<Firing>)
    ensures RunOn(r, max, pollMs, before + later) == RunOn(RunOn(r, max, pollMs, before), max, pollMs, later)
  {
    hide Fired;
    if later == [] {
      assert before + later == before;
    } else {
      RunOnJoins(r, max, pollMs, before, later[..|later| - 1]);
      assert (before + later)[..|before + later| - 1] == before + later[..|later| - 1];
    }
  }

  /**
   * One tick that throws ends all nudging: whatever the timer would have found afterwards, for this request or any
   * other, nothing is sent and nothing changes until the runner is started again.
   */
  lemma OneThrowEndsNudging(r: Runner, max: nat, pollMs: int, firings: seq<Firing>, i: nat)
    requires i < |firings| && ThrowsAt(RunOn(r, max, pollMs, firings[..i]), max, firings[i])
    ensures RunOn(r, max, pollMs, firings) == RunOn(r, max, pollMs, firings[..i + 1])
    ensures RunOn(r, max, pollMs, firings).timer.None?
  {
    hide Ticked, Delay;
    assert firings == firings[..i + 1] + firings[i + 1..] && firings[..i + 1][..i] == firings[..i];
    RunOnJoins(r, max, pollMs, firings[..i + 1], firings[i + 1..]);
    StoppedStays(RunOn(r, max, pollMs, firings[..i + 1]), max, pollMs, firings[i + 1..]);
  }

  /** The tick found its wait not over yet, or sent a nudge and counted it. */
  predicate Waits(w: World, max: nat, t: Tick)
    requires t.latestUser.Some?
  {
    var s := Begun(w.state, KeyOf(t));
    t.now - Anchor(s, t) < WaitMs(t.baseTimeoutMs, s.consecutiveNudges) || Ticked(w, max, t).state.lastNudgeAt == Some(t.now)
  }

  /**
   * A tick that has to wait asks to be called when the wait is over. The next tick for the request, called no earlier
   * than asked and with no activity since, finds it over; called on time, it comes at the very end of the wait or
   * the least delay after the one before.
   */
  lemma WakesWhenDue(w: World, max: nat, t: Tick, u: Tick, key: Key, base: int)
    requires GoesOn(t, key, base) && GoesOn(u, key, base) && u.baseTimeoutMs == t.baseTimeoutMs && Activity(u) == Activity(t)
    requires Waits(w, max, t) && Delay(w, max, t).Some?
    requires u.now >= t.now + Scheduled(Delay(w, max, t).value)
    ensures
      var s := Ticked(w, max, t).state;
      var due := Anchor(s, u) + WaitMs(u.baseTimeoutMs, s.consecutiveNudges);
      && Begun(s, KeyOf(u)) == s && u.now >= due
      && (u.now == t.now + Scheduled(Delay(w, max, t).value) ==> u.now == Max(due, t.now + MIN_DELAY_MS))
  {
    hide Marked, MarkedNotice, Activity, Settled, IsFinal, Find, Stale, NoticeFails, KeyOf;
    assert t.latestUser.Some? && u.latestUser.Some? && KeyOf(t) == key && KeyOf(u) == key;
  }

  // ----- a run that stops

  const QUESTION := Message(User, "q", 0, None, false)
  const SAMPLE_KEY := Key("tg:1", UserPrint(AtLine(0), User, "q"))

  /** A tick on a request nobody has answered; the model decides to nudge, or cannot be reached. */
  function SampleTick(now: int, decision: Option<Decision>): Tick {
    Tick(now, 1000, "tg:1", Some(QUESTION), 0, [QUESTION], true, decision, false, None, true, false, false, false, false, false, false)
  }

  const STARTED := Runner(World(NudgeState(None, 0, None, None), [], []), Some(MIN_DELAY_MS))
  const UNREACHED: seq<Firing> := [Evaluation(SampleTick(1000, None)), Evaluation(SampleTick(2000, Some(Decision(true, 0))))]

  lemma SampleActivity(now: int, decision: Option<Decision>)
    ensures Activity(SampleTick(now, decision)) == 0 && KeyOf(SampleTick(now, decision)) == SAMPLE_KEY
  {
    assert [QUESTION][..0] == [];
    assert LatestAssistantActivity([QUESTION], QUESTION).None?;
  }

  lemma UnreachedThrows()
    ensures Delay(STARTED.world, 100, SampleTick(1000, None)).None?
  {
    hide LatestAssistantActivity, Activity;
    SampleActivity(1000, None);
  }

  lemma ReachedWouldNudge(w: World)
    requires w == Ticked(STARTED.world, 100, SampleTick(1000, None))
    ensures |Ticked(w, 100, SampleTick(2000, Some(Decision(true, 0)))).log| == 1 && w.log == []
  {
    hide LatestAssistantActivity, Activity, Kept;
    SampleActivity(1000, None);
    SampleActivity(2000, Some(Decision(true, 0)));
  }

  /**
   * Such a run: at the first tick the model cannot be reached. A second tick, a second later, would send a nudge;
   * it does not take place, and nothing is sent.
   */
  lemma UnreachedModelEndsNudging()
    ensures
      var v := RunOn(STARTED, 100, 10_000, UNREACHED);
      && v.timer.None? && v.world.log == []
      && |Ticked(v.world, 100, UNREACHED[1].tick).log| == 1
  {
    hide Ticked, Delay;
    UnreachedThrows();
    assert UNREACHED[..0] == [];
    OneThrowEndsNudging(STARTED, 100, 10_000, UNREACHED, 0);
    assert UNREACHED[..1] == [UNREACHED[0]] && UNREACHED[..1][..0] == [];
    ReachedWouldNudge(Ticked(STARTED.world, 100, SampleTick(1000, None)));
  }
}
