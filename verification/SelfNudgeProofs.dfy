/** Nudges back off, never repeat themselves, and stop for good once a request is closed. */
module SelfNudgeProofs {
  import opened Options
  import opened SelfNudge

  // ----- the index

  predicate DistinctKeys(records: seq<Record>) {
    forall i, j :: 0 <= i < j < |records| ==> records[i].key != records[j].key
  }

  lemma {:induction false} FindIs(records: seq<Record>, r: Record)
    requires DistinctKeys(records) && r in records
    ensures Find(records, r.key) == Some(r)
  {
    if records[0] != r {
      assert r in records[1..];
      FindIs(records[1..], r);
      var i :| 0 <= i < |records| && records[i] == r;
    }
  }

  lemma {:induction false} FoundIs(records: seq<Record>, key: Key)
    ensures Find(records, key).Some? ==> Find(records, key).value in records && Find(records, key).value.key == key
    ensures Find(records, key).None? ==> forall r :: r in records ==> r.key != key
  {
    if records != [] && records[0].key != key {
      FoundIs(records[1..], key);
    }
  }

  lemma {:induction false} SetFacts(records: seq<Record>, r: Record)
    requires DistinctKeys(records)
    ensures DistinctKeys(SetRecord(records, r))
    ensures forall x :: x in SetRecord(records, r) <==> x == r || (x in records && x.key != r.key)
    ensures |SetRecord(records, r)| == if Find(records, r.key).Some? then |records| else |records| + 1
  {
    if records != [] {
      if records[0].key == r.key {
        assert SetRecord(records, r) == records[0 := r];
        assert forall x :: x in records[1..] <==> x in records && x.key != r.key by {
          assert forall i :: 0 < i < |records| ==> records[i].key != records[0].key;
          assert records == [records[0]] + records[1..];
        }
      } else {
        SetFacts(records[1..], r);
        var rest := SetRecord(records[1..], r);
        assert records == [records[0]] + records[1..];
        forall i | 0 <= i < |rest| ensures rest[i].key != records[0].key {
          assert rest[i] in rest;
          if rest[i] in records[1..] {
            var j :| 0 <= j < |records[1..]| && records[1..][j] == rest[i];
            assert records[j + 1] == rest[i];
          }
        }
      }
    }
  }

  predicate LatestFirst(records: seq<Record>) {
    forall i, j :: 0 <= i < j < |records| ==> records[i].analyzedAt >= records[j].analyzedAt
  }

  lemma {:induction false} InsertSplits(records: seq<Record>, r: Record) returns (k: nat)
    requires LatestFirst(records)
    ensures k <= |records| && InsertByTime(records, r) == records[..k] + [r] + records[k..]
    ensures forall i :: 0 <= i < k ==> records[i].analyzedAt >= r.analyzedAt
    ensures forall i :: k <= i < |records| ==> records[i].analyzedAt < r.analyzedAt
  {
    if records == [] || r.analyzedAt > records[0].analyzedAt {
      k := 0;
    } else {
      k := InsertSplits(records[1..], r);
      assert records[..k + 1] == [records[0]] + records[1..][..k] && records[k + 1..] == records[1..][k..];
      k := k + 1;
    }
  }

  lemma InsertFacts(records: seq<Record>, r: Record)
    requires LatestFirst(records)
    ensures LatestFirst(InsertByTime(records, r)) && |InsertByTime(records, r)| == |records| + 1
    ensures forall x :: x in InsertByTime(records, r) <==> x in records || x == r
    ensures DistinctKeys(records) && (forall x :: x in records ==> x.key != r.key) ==> DistinctKeys(InsertByTime(records, r))
  {
    hide InsertByTime;
    var k := InsertSplits(records, r);
    assert records == records[..k] + records[k..];
  }

  lemma {:induction false} SortFacts(records: seq<Record>)
    ensures LatestFirst(SortByTime(records)) && |SortByTime(records)| == |records|
    ensures forall x :: x in SortByTime(records) <==> x in records
    ensures DistinctKeys(records) ==> DistinctKeys(SortByTime(records))
  {
    hide InsertByTime, LatestFirst;
    if records != [] {
      var n := |records| - 1;
      SortFacts(records[..n]);
      InsertFacts(SortByTime(records[..n]), records[n]);
      assert records == records[..n] + [records[n]];
      if DistinctKeys(records) {
        assert forall x :: x in records[..n] ==> x.key != records[n].key;
      }
    } else {
      assert LatestFirst([]) by { NoneLatestFirst(); }
    }
  }

  lemma NoneLatestFirst()
    ensures LatestFirst([])
  {
  }

  function CountFrom(records: seq<Record>, time: int): nat {
    if records == [] then 0 else CountFrom(records[..|records| - 1], time) + if records[|records| - 1].analyzedAt >= time then 1 else 0
  }

  lemma {:induction false} CountConcat(a: seq<Record>, b: seq<Record>, time: int)
    ensures CountFrom(a + b, time) == CountFrom(a, time) + CountFrom(b, time)
  {
    if b == [] {
      assert a + b == a;
    } else {
      CountConcat(a, b[..|b| - 1], time);
      assert (a + b)[..|a + b| - 1] == a + b[..|b| - 1];
    }
  }

  lemma {:induction false} CountInsert(records: seq<Record>, r: Record, time: int)
    ensures CountFrom(InsertByTime(records, r), time) == CountFrom(records, time) + CountFrom([r], time)
  {
    if records == [] {
    } else if r.analyzedAt > records[0].analyzedAt {
      CountConcat([r], records, time);
    } else {
      CountInsert(records[1..], r, time);
      CountConcat([records[0]], InsertByTime(records[1..], r), time);
      CountConcat([records[0]], records[1..], time);
      assert records == [records[0]] + records[1..];
    }
  }

  lemma {:induction false} CountSort(records: seq<Record>, time: int)
    ensures CountFrom(SortByTime(records), time) == CountFrom(records, time)
  {
    if records != [] {
      var n := |records| - 1;
      CountSort(records[..n], time);
      CountInsert(SortByTime(records[..n]), records[n], time);
      CountConcat(records[..n], [records[n]], time);
      assert records == records[..n] + [records[n]];
    }
  }

  lemma {:induction false} CountAll(records: seq<Record>, time: int)
    requires forall i :: 0 <= i < |records| ==> records[i].analyzedAt >= time
    ensures CountFrom(records, time) == |records|
  {
    if records != [] {
      CountAll(records[..|records| - 1], time);
    }
  }

  /** A save keeps a record when no more than the limit have been analyzed as late as it, itself included. */
  lemma KeptWhenLate(records: seq<Record>, max: nat, r: Record)
    requires r in records && CountFrom(records, r.analyzedAt) <= max
    ensures r in Kept(records, max)
  {
    hide SortByTime, CountFrom;
    var sorted := SortByTime(records);
    SortFacts(records);
    var i :| 0 <= i < |sorted| && sorted[i] == r;
    if |sorted| > max && i >= max {
      var front, back := sorted[..i + 1], sorted[i + 1..];
      CountAll(front, r.analyzedAt);
      CountConcat(front, back, r.analyzedAt);
      assert sorted == front + back;
      CountSort(records, r.analyzedAt);
      assert false;
    } else if |sorted| > max {
      assert sorted[..max][i] == r;
    }
  }

  lemma KeptFacts(records: seq<Record>, max: nat)
    requires DistinctKeys(records)
    ensures DistinctKeys(Kept(records, max)) && |Kept(records, max)| <= max
    ensures forall r :: r in Kept(records, max) ==> r in records
    ensures |records| <= max ==> forall r :: r in records ==> r in Kept(records, max)
    ensures |records| <= max ==> |Kept(records, max)| == |records|
  {
    hide SortByTime, LatestFirst;
    SortFacts(records);
  }

  /** Keeping some records: each one looked up is as it was set, or was dropped. */
  lemma StoredFind(records: seq<Record>, max: nat, r: Record, key: Key)
    requires DistinctKeys(records)
    ensures var after := Kept(SetRecord(records, r), max);
            && DistinctKeys(after)
            && (Find(after, key).None? || Find(after, key) == if key == r.key then Some(r) else Find(records, key))
            && (|SetRecord(records, r)| <= max ==> Find(after, key) == if key == r.key then Some(r) else Find(records, key))
            && (|SetRecord(records, r)| <= max ==> |after| == |SetRecord(records, r)|)
  {
    hide Kept, SetRecord, Find, DistinctKeys;
    var all := SetRecord(records, r);
    var after := Kept(all, max);
    SetFacts(records, r);
    KeptFacts(all, max);
    FoundIs(after, key);
    FoundIs(records, key);
    if Find(after, key).Some? && key != r.key {
      FindIs(records, Find(after, key).value);
    }
    if |all| <= max {
      if key == r.key {
        FindIs(after, r);
      } else if Find(records, key).Some? {
        FindIs(after, Find(records, key).value);
      }
    }
  }

  // ----- one tick, for one request

  /** What a tick does to the record of a request and to what has been sent for it. */
  predicate Effect(w: World, v: World, max: nat, t: Tick, key: Key) {
    && DistinctKeys(v.records)
    && |w.log| <= |v.log| <= |w.log| + 1 && v.log[..|w.log|] == w.log
    && (|v.log| > |w.log| ==>
          v.log[|w.log|].at == t.now && t.latestUser.Some? && v.log[|w.log|].key == KeyOf(t)
          && (Find(w.records, KeyOf(t)).Some? ==> Find(w.records, KeyOf(t)).value.shouldNudge)
          && (v.log[|w.log|].Nudge? && Find(w.records, KeyOf(t)).Some? ==>
                Find(w.records, KeyOf(t)).value.analysis != Some(v.log[|w.log|].analysis)))
    && (Find(v.records, key).Some? ==>
          if Find(w.records, key).Some? && !Find(w.records, key).value.shouldNudge then
            Find(v.records, key) == Find(w.records, key)
          else if |v.log| > |w.log| && v.log[|w.log|].Nudge? && v.log[|w.log|].key == key then
            Find(v.records, key).value.shouldNudge && Find(v.records, key).value.analysis == Some(v.log[|w.log|].analysis)
          else
            Find(v.records, key).value.shouldNudge ==> Find(v.records, key) == Find(w.records, key))
  }

  lemma MarkedFind(records: seq<Record>, max: nat, marked: Key, analysis: seq<Message>, shouldNudge: bool, now: int, key: Key)
    requires DistinctKeys(records)
    ensures var after := Marked(records, max, marked, analysis, shouldNudge, now);
            && DistinctKeys(after)
            && (Find(after, key).Some? && key != marked ==> Find(after, key) == Find(records, key))
            && (Find(after, key).Some? && key == marked ==>
                  var r := Find(after, key).value;
                  && r.analysis == Some(analysis) && r.shouldNudge == shouldNudge && r.analyzedAt == now
                  && r.noticeSentAt == (if Find(records, key).Some? then Find(records, key).value.noticeSentAt else None))
  {
    hide Kept, SetRecord, DistinctKeys;
    var existing := Find(records, marked);
    StoredFind(records, max, Record(marked, Some(analysis), shouldNudge, now, if existing.Some? then existing.value.noticeSentAt else None), key);
  }

  lemma NoticeFind(records: seq<Record>, max: nat, marked: Key, now: int, key: Key)
    requires DistinctKeys(records)
    ensures var after := MarkedNotice(records, max, marked, now);
            && DistinctKeys(after)
            && (Find(after, key).Some? && key != marked ==> Find(after, key) == Find(records, key))
            && (Find(after, key).Some? && key == marked ==>
                  Find(records, key).Some? && Find(after, key).value == Find(records, key).value.(noticeSentAt := Some(now)))
  {
    hide Kept, SetRecord, DistinctKeys;
    var existing := Find(records, marked);
    FoundIs(records, marked);
    if existing.Some? {
      StoredFind(records, max, existing.value.(noticeSentAt := Some(now)), key);
    }
  }

  lemma TickEffect(w: World, max: nat, t: Tick, key: Key)
    requires DistinctKeys(w.records)
    ensures Effect(w, Ticked(w, max, t), max, t, key)
  {
    hide Marked, MarkedNotice, DistinctKeys, WaitMs, Activity, Settled, IsFinal, KeyOf, Stale, Find;
    if t.latestUser.Some? {
      var k := KeyOf(t);
      MarkedFind(w.records, max, k, t.messages, true, t.now, key);
      MarkedFind(w.records, max, k, t.messages, false, t.now, key);
      NoticeFind(Marked(w.records, max, k, t.messages, false, t.now), max, k, t.now, key);
    }
  }

  // ----- consecutive nudges

  function LastNudge(log: seq<Sent>, key: Key): Option<seq<Message>> {
    if log == [] then None
    else
      var last := log[|log| - 1];
      if last.Nudge? && last.key == key then Some(last.analysis) else LastNudge(log[..|log| - 1], key)
  }

  /** The record of a nudged request is about the last nudge, or closed. */
  predicate Remembers(w: World, key: Key) {
    && DistinctKeys(w.records)
    && (LastNudge(w.log, key).Some? && Find(w.records, key).Some? ==>
          !Find(w.records, key).value.shouldNudge || Find(w.records, key).value.analysis == LastNudge(w.log, key))
  }

  lemma EffectRemembers(w: World, v: World, max: nat, t: Tick, key: Key)
    requires Remembers(w, key) && Effect(w, v, max, t, key)
    ensures Remembers(v, key)
  {
    hide DistinctKeys, KeyOf, Find;
    if |v.log| == |w.log| {
      assert v.log == w.log;
    } else {
      assert v.log[..|v.log| - 1] == w.log;
    }
  }

  lemma {:induction false} RunRemembers(w: World, max: nat, ticks: seq<Tick>, key: Key)
    requires Remembers(w, key)
    ensures Remembers(Run(w, max, ticks), key)
  {
    hide Remembers, Ticked, Effect;
    if ticks != [] {
      var n := |ticks| - 1;
      RunRemembers(w, max, ticks[..n], key);
      RemembersDistinct(Run(w, max, ticks[..n]), key);
      TickEffect(Run(w, max, ticks[..n]), max, ticks[n], key);
      EffectRemembers(Run(w, max, ticks[..n]), Run(w, max, ticks), max, ticks[n], key);
    }
  }

  lemma RemembersDistinct(w: World, key: Key)
    requires Remembers(w, key)
    ensures DistinctKeys(w.records)
  {
  }

  /**
   * In any run, whatever the other requests do and whatever throws: while the record of a request is retained,
   * a nudge for it is never about the same analysis as the nudge before it, and none is sent once it is closed.
   */
  lemma ConsecutiveNudgesDiffer(w: World, max: nat, ticks: seq<Tick>, t: Tick, key: Key)
    requires Remembers(w, key)
    requires Find(Run(w, max, ticks).records, key).Some?
    ensures var before := Run(w, max, ticks);
            var after := Ticked(before, max, t);
            |after.log| > |before.log| && after.log[|before.log|].key == key ==>
              && Find(before.records, key).value.shouldNudge
              && (after.log[|before.log|].Nudge? ==> Some(after.log[|before.log|].analysis) != LastNudge(before.log, key))
  {
    hide Ticked, Run, DistinctKeys;
    RunRemembers(w, max, ticks, key);
    TickEffect(Run(w, max, ticks), max, t, key);
  }

  /** The analyses a request has been nudged about, in order. */
  function Analyses(log: seq<Sent>, key: Key): seq<seq<Message>> {
    if log == [] then []
    else
      var last := log[|log| - 1];
      Analyses(log[..|log| - 1], key) + if last.Nudge? && last.key == key then [last.analysis] else []
  }

  lemma {:induction false} LastAnalysis(log: seq<Sent>, key: Key)
    ensures var all := Analyses(log, key);
            LastNudge(log, key) == if all == [] then None else Some(all[|all| - 1])
  {
    if log != [] {
      LastAnalysis(log[..|log| - 1], key);
    }
  }

  /** There is room for one more request, and a request that has been nudged is still on record. */
  predicate Roomy(w: World, max: nat, key: Key) {
    && DistinctKeys(w.records) && |w.records| <= max
    && (Find(w.records, key).None? ==> |w.records| < max && LastNudge(w.log, key).None?)
  }

  lemma MarkedRoomy(records: seq<Record>, max: nat, key: Key, analysis: seq<Message>, shouldNudge: bool, now: int)
    requires DistinctKeys(records) && |records| <= max && (Find(records, key).None? ==> |records| < max)
    ensures var after := Marked(records, max, key, analysis, shouldNudge, now);
            DistinctKeys(after) && |after| <= max && Find(after, key).Some?
  {
    hide Kept, SetRecord, DistinctKeys;
    var existing := Find(records, key);
    var r := Record(key, Some(analysis), shouldNudge, now, if existing.Some? then existing.value.noticeSentAt else None);
    SetFacts(records, r);
    StoredFind(records, max, r, key);
  }

  lemma NoticeRoomy(records: seq<Record>, max: nat, key: Key, now: int)
    requires DistinctKeys(records) && |records| <= max && Find(records, key).Some?
    ensures var after := MarkedNotice(records, max, key, now);
            DistinctKeys(after) && |after| <= max && Find(after, key).Some?
  {
    hide Kept, SetRecord, DistinctKeys;
    FoundIs(records, key);
    var r := Find(records, key).value.(noticeSentAt := Some(now));
    SetFacts(records, r);
    StoredFind(records, max, r, key);
  }

  lemma TickRoomy(w: World, max: nat, t: Tick, key: Key)
    requires Roomy(w, max, key) && (t.latestUser.Some? ==> KeyOf(t) == key)
    ensures Roomy(Ticked(w, max, t), max, key)
  {
    hide Marked, MarkedNotice, DistinctKeys, WaitMs, Activity, Settled, IsFinal, KeyOf, Stale, Find;
    var v := Ticked(w, max, t);
    MarkedRoomy(w.records, max, key, t.messages, true, t.now);
    MarkedRoomy(w.records, max, key, t.messages, false, t.now);
    NoticeRoomy(Marked(w.records, max, key, t.messages, false, t.now), max, key, t.now);
    assert |v.log| > |w.log| ==> v.log[..|v.log| - 1] == w.log;
  }

  /** On one request, with room for its record in the index, no two nudges in a row are about the same analysis. */
  lemma {:induction false} NudgesInARowDiffer(w: World, max: nat, ticks: seq<Tick>, key: Key)
    requires w.log == [] && DistinctKeys(w.records) && |w.records| < max
    requires forall i :: 0 <= i < |ticks| && ticks[i].latestUser.Some? ==> KeyOf(ticks[i]) == key
    ensures var v := Run(w, max, ticks);
            && Roomy(v, max, key) && Remembers(v, key)
            && var all := Analyses(v.log, key); forall i :: 0 <= i < |all| - 1 ==> all[i] != all[i + 1]
  {
    hide Ticked, DistinctKeys, Find, KeyOf, Kept;
    if ticks != [] {
      var n := |ticks| - 1;
      var t := ticks[n];
      NudgesInARowDiffer(w, max, ticks[..n], key);
      var before, after := Run(w, max, ticks[..n]), Run(w, max, ticks);
      TickRoomy(before, max, t, key);
      TickEffect(before, max, t, key);
      EffectRemembers(before, after, max, t, key);
      LastAnalysis(before.log, key);
      if |after.log| == |before.log| {
        assert after.log == before.log;
      } else {
        assert after.log[..|after.log| - 1] == before.log;
      }
    }
  }

  // ----- closed requests

  predicate RetainedThroughout(w: World, max: nat, ticks: seq<Tick>, key: Key) {
    forall i :: 0 <= i <= |ticks| ==> Find(Run(w, max, ticks[..i]).records, key).Some?
  }

  predicate SentFor(log: seq<Sent>, from: nat, key: Key) {
    exists i :: from <= i < |log| && log[i].key == key
  }

  /** A closed decision that is retained is absorbing: it never changes, and nothing more is sent for its request. */
  lemma {:induction false} ClosedIsAbsorbing(w: World, max: nat, ticks: seq<Tick>, key: Key)
    requires DistinctKeys(w.records) && RetainedThroughout(w, max, ticks, key)
    requires Find(w.records, key).Some? && !Find(w.records, key).value.shouldNudge
    ensures var v := Run(w, max, ticks);
            && DistinctKeys(v.records) && Find(v.records, key) == Find(w.records, key)
            && |v.log| >= |w.log| && !SentFor(v.log, |w.log|, key)
  {
    hide Ticked, DistinctKeys, Find, KeyOf;
    if ticks != [] {
      var n := |ticks| - 1;
      assert forall i :: 0 <= i <= n ==> ticks[..n][..i] == ticks[..i];
      assert ticks[..|ticks|] == ticks;
      ClosedIsAbsorbing(w, max, ticks[..n], key);
      TickEffect(Run(w, max, ticks[..n]), max, ticks[n], key);
    }
  }

  /**
   * A request is closed only by the model's own decision, while the agent is idle, and a final decision only
   * when its answer has been seen to reach the user; without that it is turned into a nudge. A nudge is sent
   * only for a decision to nudge or such a private final, while the agent is idle.
   */
  lemma DecisionsAreJustified(w: World, max: nat, t: Tick, key: Key)
    requires DistinctKeys(w.records)
    ensures var v := Ticked(w, max, t);
            && (Find(v.records, key).Some? && !Find(v.records, key).value.shouldNudge
                && (Find(w.records, key).None? || Find(w.records, key).value.shouldNudge) ==>
                  && t.latestUser.Some? && KeyOf(t) == key && t.idleFirst && t.idleSecond
                  && t.decision.Some? && !t.decision.value.shouldNudge
                  && (IsFinal(t.decision.value) && t.finalityKnown ==> t.visible == Some(true)))
            && (|v.log| > |w.log| && v.log[|w.log|].Nudge? ==>
                  && t.latestUser.Some? && t.idleFirst && t.idleSecond && t.decision.Some?
                  && (t.decision.value.shouldNudge || (IsFinal(t.decision.value) && t.finalityKnown && t.visible == Some(false))))
  {
    hide Marked, MarkedNotice, DistinctKeys, WaitMs, Activity, IsFinal, KeyOf, Stale, Find;
    if t.latestUser.Some? {
      var k := KeyOf(t);
      MarkedFind(w.records, max, k, t.messages, true, t.now, key);
      MarkedFind(w.records, max, k, t.messages, false, t.now, key);
      NoticeFind(Marked(w.records, max, k, t.messages, false, t.now), max, k, t.now, key);
    }
  }

  // ----- exactly what a tick sends

  /** The latest user message is at most a day old, and the wait since the last nudge for it, or the activity, is over. */
  predicate WaitIsOver(w: World, t: Tick) {
    && t.latestUser.Some?
    && (t.latestUser.value.timestamp.Some? ==> t.now - t.latestUser.value.timestamp.value <= 86_400_000)
    && var same := w.state.current == Some(KeyOf(t));
       var counted := if same then w.state.consecutiveNudges else 0;
       var since := if same && w.state.lastNudgeAt.Some? then w.state.lastNudgeAt.value else Activity(t);
       t.now - since >= (if t.baseTimeoutMs < 1000 then 1000 else t.baseTimeoutMs) * (counted + 1)
  }

  /** The index has no record that closes the request, and none about the same messages. */
  predicate IsOpen(w: World, t: Tick)
    requires t.latestUser.Some?
  {
    var r := Find(w.records, KeyOf(t));
    r.Some? ==> r.value.shouldNudge && r.value.analysis != Some(t.messages)
  }

  /** The agent is due a decision, and idle before and after it is made. */
  predicate Reaches(w: World, t: Tick) {
    WaitIsOver(w, t) && IsOpen(w, t) && t.idleFirst && t.idleSecond
  }

  /** Whether it is decided to nudge: a final answer that has not been seen to reach the user is nudged about. */
  function Verdict(t: Tick): Option<bool> {
    if t.decision.None? then None
    else if t.decision.value.finalConfidence > 90 && t.finalityKnown && t.visible != Some(true) then
      if t.visible.None? then None else Some(true)
    else Some(t.decision.value.shouldNudge)
  }

  /** A final answer is announced once for a request. */
  predicate Announces(w: World, t: Tick)
    requires t.latestUser.Some?
  {
    && t.finalNoticeEnabled && t.decision.Some? && t.decision.value.finalConfidence > 90
    && !(w.state.current == Some(KeyOf(t)) && w.state.lastFinalNotice == Some(KeyOf(t).request))
  }

  /**
   In any state: a tick sends a nudge if and only if the wait is over, the request is open, the agent is idle throughout,
   it is decided to nudge, and sending does not throw; it is counted if the index could be saved. It sends the final notice
   if and only if all that holds, it is decided not to nudge, the index could be saved, and the answer is to be announced.
   It sends nothing else, and where it does not get so far it leaves the index alone.
   */
  lemma TickSendsExactly(w: World, max: nat, t: Tick)
    ensures
      var v := Ticked(w, max, t);
      var nudges := Reaches(w, t) && Verdict(t) == Some(true) && !t.sendThrows;
      var announces := Reaches(w, t) && Verdict(t) == Some(false) && !t.saveThrows && Announces(w, t);
      && v.log == w.log + (if nudges then [Nudge(KeyOf(t), t.messages, t.now)] else if announces then [FinalNotice(KeyOf(t), t.now)] else [])
      && (nudges ==> v.records == Marked(w.records, max, KeyOf(t), t.messages, true, t.now))
      && (nudges && !t.saveThrows ==>
            && v.state.consecutiveNudges == (if w.state.current == Some(KeyOf(t)) then w.state.consecutiveNudges else 0) + 1
            && v.state.lastNudgeAt == Some(t.now))
      && (Reaches(w, t) && Verdict(t) == Some(false) && !announces ==>
            v.records == Marked(w.records, max, KeyOf(t), t.messages, false, t.now))
      && (!Reaches(w, t) || Verdict(t).None? ==> v.records == w.records)
  {
    hide Marked, MarkedNotice, Activity, Find, KeyOf;
    assert w.log + [] == w.log;
  }

  /** The request a tick finds: there is a latest user message, and it is at most a day old. */
  predicate HasRequest(t: Tick) {
    t.latestUser.Some? && (t.latestUser.value.timestamp.Some? ==> t.now - t.latestUser.value.timestamp.value <= 86_400_000)
  }

  /** The wait a tick asks for when the request has been nudged about so often. */
  function WaitAfter(t: Tick, counted: nat): int {
    (if t.baseTimeoutMs < 1000 then 1000 else t.baseTimeoutMs) * (counted + 1)
  }

  /** The closing decision is announced: everything up to the announcement went well. */
  predicate ComesToAnnounce(w: World, t: Tick) {
    Reaches(w, t) && Verdict(t) == Some(false) && !t.saveThrows && Announces(w, t)
  }

  /** Something throws on the way through the tick: the decision, what is sent, or a save. */
  predicate Throws(w: World, max: nat, t: Tick) {
    && WaitIsOver(w, t) && IsOpen(w, t) && t.idleFirst
    && (|| Verdict(t).None?
        || (t.idleSecond && Verdict(t) == Some(true) && (t.sendThrows || t.saveThrows || t.nudgeNoticeThrows))
        || (t.idleSecond && Verdict(t) == Some(false) && t.saveThrows)
        || (ComesToAnnounce(w, t) && t.noticeThrows)
        || (ComesToAnnounce(w, t) && t.noticeSaveThrows && Find(Marked(w.records, max, KeyOf(t), t.messages, false, t.now), KeyOf(t)).Some?))
  }

  /**
   In any state: a tick comes to its end if and only if nothing throws. It then asks for the next when the wait is over,
   after a nudge for the next wait, which is one step longer, and otherwise for the plain timeout.
   */
  lemma TickEndsExactly(w: World, max: nat, t: Tick)
    ensures
      var delay := Delay(w, max, t);
      && (delay.None? <==> Throws(w, max, t))
      && (delay.Some? ==>
            if !HasRequest(t) then delay.value == t.baseTimeoutMs
            else
              var same := w.state.current == Some(KeyOf(t));
              var counted := if same then w.state.consecutiveNudges else 0;
              var since := if same && w.state.lastNudgeAt.Some? then w.state.lastNudgeAt.value else Activity(t);
              if !WaitIsOver(w, t) then t.now + delay.value == since + WaitAfter(t, counted)
              else if Reaches(w, t) && Verdict(t) == Some(true) then delay.value == WaitAfter(t, counted + 1)
              else delay.value == t.baseTimeoutMs)
  {
    hide Marked, MarkedNotice, Activity, Find, KeyOf;
  }

  /**
   In any state: what a tick remembers of the final notice. It is remembered once announced, read off a record that closes
   the request, kept while the request stays the same, and forgotten with it.
   */
  lemma NoticeIsRemembered(w: World, max: nat, t: Tick)
    requires DistinctKeys(w.records)
    ensures
      var v := Ticked(w, max, t);
      if !HasRequest(t) then v.state == NudgeState(None, 0, None, w.state.lastFinalNotice)
      else
        var key := KeyOf(t);
        var r := Find(w.records, key);
        && v.state.current == Some(key)
        && v.state.lastFinalNotice ==
             (if WaitIsOver(w, t) && r.Some? && !r.value.shouldNudge then
                if r.value.noticeSentAt.None? || r.value.noticeSentAt.value == 0 then None else Some(key.request)
              else if ComesToAnnounce(w, t) && !t.noticeThrows then Some(key.request)
              else if w.state.current == Some(key) then w.state.lastFinalNotice
              else None)
        && (ComesToAnnounce(w, t) && t.noticeThrows ==> v.records == Marked(w.records, max, key, t.messages, false, t.now))
        && (ComesToAnnounce(w, t) && !t.noticeThrows ==>
              Find(v.records, key).Some? ==> Find(v.records, key).value.noticeSentAt == Some(t.now))
  {
    hide Marked, MarkedNotice, Activity, Find, KeyOf, DistinctKeys;
    if HasRequest(t) {
      var marked := Marked(w.records, max, KeyOf(t), t.messages, false, t.now);
      MarkedFind(w.records, max, KeyOf(t), t.messages, false, t.now, KeyOf(t));
      NoticeFind(marked, max, KeyOf(t), t.now, KeyOf(t));
    }
  }

  /** A message that shows the assistant at work on the request `user`. */
  ghost predicate ShowsWork(m: Message, user: Message) {
    && m.role == Assistant
    && !m.notice
    && m.lineIndex > user.lineIndex
    && m.timestamp.Some?
  }

  /** The last activity on a request is the file's time or the latest of the assistant's messages behind it, whichever is later. */
  lemma {:induction false} ActivityIsTheLatest(t: Tick)
    requires t.latestUser.Some?
    ensures t.mtimeMs <= Activity(t)
    ensures forall i :: 0 <= i < |t.messages| && ShowsWork(t.messages[i], t.latestUser.value) ==> t.messages[i].timestamp.value <= Activity(t)
    ensures Activity(t) != t.mtimeMs ==>
      exists i :: 0 <= i < |t.messages| && ShowsWork(t.messages[i], t.latestUser.value) && t.messages[i].timestamp == Some(Activity(t))
    decreases |t.messages|
  {
    if t.messages != [] {
      var before := t.(messages := t.messages[..|t.messages| - 1]);
      ActivityIsTheLatest(before);
      assert forall i :: 0 <= i < |before.messages| ==> t.messages[i] == before.messages[i];
      var m := t.messages[|t.messages| - 1];
      if ShowsWork(m, t.latestUser.value) && m.timestamp.value > Activity(before) {
        assert t.messages[|t.messages| - 1].timestamp == Some(Activity(t));
      } else if Activity(t) != t.mtimeMs {
        var i :| 0 <= i < |before.messages| && ShowsWork(before.messages[i], t.latestUser.value)
          && before.messages[i].timestamp == Some(Activity(before));
        assert ShowsWork(t.messages[i], t.latestUser.value);
      }
    }
  }

  /** Two ticks see the same request if and only if session, role, text and time agree; where the message has no time, its line stands in for it. */
  lemma RequestsAreTheSame(t: Tick, u: Tick)
    requires t.latestUser.Some? && u.latestUser.Some?
    ensures
      var m, n := t.latestUser.value, u.latestUser.value;
      KeyOf(t) == KeyOf(u) <==>
        && t.sessionKey == u.sessionKey && m.role == n.role && m.text == n.text && m.timestamp == n.timestamp
        && (m.timestamp.None? ==> m.lineIndex == n.lineIndex)
  {
    var m, n := t.latestUser.value, u.latestUser.value;
    if m.timestamp.Some? {
      assert KeyOf(t).request.position == AtTime(m.timestamp.value);
    } else {
      assert KeyOf(t).request.position == AtLine(m.lineIndex);
    }
  }

  // ----- backing off

  /** A tick that goes on with the same request. */
  predicate GoesOn(t: Tick, key: Key, base: int) {
    t.latestUser.Some? && !Stale(t.latestUser.value, t.now) && KeyOf(t) == key && Base(t.baseTimeoutMs) >= base
  }

  predicate Uninterrupted(ticks: seq<Tick>, key: Key, base: int) {
    forall i :: 0 <= i < |ticks| ==> GoesOn(ticks[i], key, base)
  }

  /** The tick that counted the first nudge of the run, if one did. */
  function FirstNudge(w: World, max: nat, ticks: seq<Tick>): Option<Tick> {
    if ticks == [] then None
    else
      var before := FirstNudge(w, max, ticks[..|ticks| - 1]);
      if before.Some? then before
      else if Run(w, max, ticks).state.consecutiveNudges == 1 then Some(ticks[|ticks| - 1])
      else None
  }

  function Triangle(k: nat): nat {
    if k == 0 then 0 else k + Triangle(k - 1)
  }

  lemma {:induction false} TriangleIs(k: nat)
    ensures 2 * Triangle(k) == k * (k + 1)
  {
    if k > 0 {
      TriangleIs(k - 1);
    }
  }

  /** A tick for the same request counts a nudge only after the wait has passed since the last one, or the activity. */
  lemma TickWaits(w: World, max: nat, t: Tick, key: Key, base: int)
    requires GoesOn(t, key, base) && (w.state.current == Some(key) || (w.state.consecutiveNudges == 0 && w.state.lastNudgeAt.None?))
    ensures var v := Ticked(w, max, t);
            && v.state.current == Some(key)
            && (|| (v.state.consecutiveNudges == w.state.consecutiveNudges && v.state.lastNudgeAt == w.state.lastNudgeAt)
                || (&& v.state.consecutiveNudges == w.state.consecutiveNudges + 1 && v.state.lastNudgeAt == Some(t.now)
                    && t.now - (if w.state.lastNudgeAt.Some? then w.state.lastNudgeAt.value else Activity(t))
                       >= WaitMs(t.baseTimeoutMs, w.state.consecutiveNudges)))
  {
    hide Marked, MarkedNotice, WaitMs, Activity, Settled, IsFinal, Find, Stale;
  }

  lemma WaitGrows(base: int, atLeast: int, k: nat)
    requires Base(base) >= atLeast
    ensures WaitMs(base, k) >= atLeast * (k + 1)
  {
  }

  predicate BacksOff(w: World, max: nat, ticks: seq<Tick>, key: Key, base: int) {
    var s := Run(w, max, ticks).state;
    var first := FirstNudge(w, max, ticks);
    if s.consecutiveNudges == 0 then s.lastNudgeAt.None? && first.None?
    else
      && s.lastNudgeAt.Some? && first.Some? && first.value.latestUser.Some?
      && s.lastNudgeAt.value >= Activity(first.value) + base * Triangle(s.consecutiveNudges)
  }

  lemma {:induction false} RunBacksOff(w: World, max: nat, ticks: seq<Tick>, key: Key, base: int)
    requires Uninterrupted(ticks, key, base) && w.state.consecutiveNudges == 0 && w.state.lastNudgeAt.None?
    ensures BacksOff(w, max, ticks, key, base)
    ensures ticks != [] ==> Run(w, max, ticks).state.current == Some(key)
  {
    hide Ticked, Activity, WaitMs, GoesOn;
    if ticks != [] {
      var n := |ticks| - 1;
      var t := ticks[n];
      RunBacksOff(w, max, ticks[..n], key, base);
      var before := Run(w, max, ticks[..n]);
      TickWaits(before, max, t, key, base);
      var k := before.state.consecutiveNudges;
      assert Base(t.baseTimeoutMs) >= base && t.latestUser.Some? by { GoesOnFacts(t, key, base); }
      WaitGrows(t.baseTimeoutMs, base, k);
      Distribute(base, Triangle(k), k + 1);
    }
  }

  lemma GoesOnFacts(t: Tick, key: Key, base: int)
    requires GoesOn(t, key, base)
    ensures Base(t.baseTimeoutMs) >= base && t.latestUser.Some?
  {
  }

  lemma Distribute(a: int, b: int, c: int)
    ensures a * (b + c) == a * b + a * c
  {
  }

  /**
   * Over any uninterrupted sequence of ticks on one request, whatever the model answers and whatever throws: the
   * k-th nudge counted comes at least base * k(k+1)/2 after the activity that anchored the first.
   */
  lemma NudgesBackOff(w: World, max: nat, ticks: seq<Tick>, key: Key, base: int)
    requires Uninterrupted(ticks, key, base) && w.state.consecutiveNudges == 0 && w.state.lastNudgeAt.None?
    requires Run(w, max, ticks).state.consecutiveNudges > 0
    ensures var s := Run(w, max, ticks).state;
            var k := s.consecutiveNudges;
            && FirstNudge(w, max, ticks).Some? && FirstNudge(w, max, ticks).value in ticks
            && FirstNudge(w, max, ticks).value.latestUser.Some? && s.lastNudgeAt.Some?
            && 2 * (s.lastNudgeAt.value - Activity(FirstNudge(w, max, ticks).value)) >= base * (k * (k + 1))
  {
    hide Run, Activity;
    RunBacksOff(w, max, ticks, key, base);
    var k := Run(w, max, ticks).state.consecutiveNudges;
    TriangleIs(k);
    FirstAmong(w, max, ticks);
    Doubled(base, Triangle(k));
  }

  lemma Doubled(a: int, b: int)
    ensures a * (2 * b) == 2 * (a * b)
  {
  }

  lemma {:induction false} FirstAmong(w: World, max: nat, ticks: seq<Tick>)
    ensures FirstNudge(w, max, ticks).Some? ==> FirstNudge(w, max, ticks).value in ticks
  {
    if ticks != [] {
      FirstAmong(w, max, ticks[..|ticks| - 1]);
    }
  }

  // ----- nudges sent

  /** When the nudges of a log were sent, in order. */
  function NudgeTimes(log: seq<Sent>): seq<int> {
    if log == [] then []
    else NudgeTimes(log[..|log| - 1]) + if log[|log| - 1].Nudge? then [log[|log| - 1].at] else []
  }

  /** The tick sends a nudge and then fails to save the index: the nudge is out, and is not counted. */
  predicate Uncounted(w: World, max: nat, t: Tick) {
    var v := Ticked(w, max, t);
    |v.log| > |w.log| && v.log[|w.log|].Nudge? && t.saveThrows
  }

  function UncountedIn(w: World, max: nat, ticks: seq<Tick>): nat {
    if ticks == [] then 0
    else
      var before := ticks[..|ticks| - 1];
      UncountedIn(w, max, before) + if Uncounted(Run(w, max, before), max, ticks[|ticks| - 1]) then 1 else 0
  }

  /** Each nudge is counted when the index could be saved after it. */
  predicate AllCounted(w: World, max: nat, ticks: seq<Tick>) {
    forall i :: 0 <= i < |ticks| ==> !Uncounted(Run(w, max, ticks[..i]), max, ticks[i])
  }

  lemma TimesMore(log: seq<Sent>, sent: Sent)
    ensures NudgeTimes(log + [sent]) == NudgeTimes(log) + if sent.Nudge? then [sent.at] else []
  {
    assert (log + [sent])[..|log|] == log;
  }

  /** What one tick for the same request sends and counts. */
  lemma TickCounts(w: World, max: nat, t: Tick, key: Key, base: int)
    requires GoesOn(t, key, base)
    requires w.state.current == Some(key) || (w.state.consecutiveNudges == 0 && w.state.lastNudgeAt.None?)
    ensures
      var v := Ticked(w, max, t);
      var counted := v.state.consecutiveNudges == w.state.consecutiveNudges + 1;
      && (counted || v.state.consecutiveNudges == w.state.consecutiveNudges)
      && !(counted && Uncounted(w, max, t))
      && NudgeTimes(v.log) == NudgeTimes(w.log) + (if counted || Uncounted(w, max, t) then [t.now] else [])
  {
    hide Marked, MarkedNotice, WaitMs, Activity, Settled, IsFinal, Find, Stale, NudgeTimes;
    var v := Ticked(w, max, t);
    TimesMore(w.log, Nudge(key, t.messages, t.now));
    TimesMore(w.log, FinalNotice(key, t.now));
  }

  /** The nudges sent are the nudges counted and those after which saving the index failed. */
  lemma {:induction false} NudgesAccounted(w: World, max: nat, ticks: seq<Tick>, key: Key, base: int)
    requires Uninterrupted(ticks, key, base) && w.state.consecutiveNudges == 0 && w.state.lastNudgeAt.None?
    ensures |NudgeTimes(Run(w, max, ticks).log)|
         == |NudgeTimes(w.log)| + Run(w, max, ticks).state.consecutiveNudges + UncountedIn(w, max, ticks)
  {
    hide Ticked, GoesOn, Uncounted, NudgeTimes;
    if ticks != [] {
      var n := |ticks| - 1;
      NudgesAccounted(w, max, ticks[..n], key, base);
      RunBacksOff(w, max, ticks[..n], key, base);
      TickCounts(Run(w, max, ticks[..n]), max, ticks[n], key, base);
    }
  }

  lemma {:induction false} NoneUncounted(w: World, max: nat, ticks: seq<Tick>)
    ensures UncountedIn(w, max, ticks) == 0 <==> AllCounted(w, max, ticks)
  {
    hide Uncounted, Run;
    if ticks != [] {
      var n := |ticks| - 1;
      NoneUncounted(w, max, ticks[..n]);
      assert forall i :: 0 <= i < n ==> ticks[..n][..i] == ticks[..i] && ticks[..n][i] == ticks[i];
    }
  }

  /**
   * Over any uninterrupted sequence of ticks: every nudge sent is counted if and only if no tick that sends one
   * fails to save the index afterwards.
   */
  lemma CountedExactly(w: World, max: nat, ticks: seq<Tick>, key: Key, base: int)
    requires Uninterrupted(ticks, key, base) && w.state.consecutiveNudges == 0 && w.state.lastNudgeAt.None?
    ensures |NudgeTimes(Run(w, max, ticks).log)| == |NudgeTimes(w.log)| + Run(w, max, ticks).state.consecutiveNudges
       <==> AllCounted(w, max, ticks)
  {
    hide *;
    NudgesAccounted(w, max, ticks, key, base);
    NoneUncounted(w, max, ticks);
  }

  predicate TimesBackOff(times: seq<int>, anchor: int, base: int) {
    forall j :: 0 <= j < |times| ==> times[j] >= anchor + base * Triangle(j + 1)
  }
}
