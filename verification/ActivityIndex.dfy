/** The conversation activity index: per-session maxima, and the fifty latest visible deliveries. */
module ActivityIndex {
  import opened Options

  datatype Kind = Final | Tool | Block | TerminalError | TerminalNoReply

  datatype Evidence = Evidence(
    evidenceId: string,
    kind: Kind,
    sourceRequestId: Option<string>,
    correlationMessageId: Option<string>,
    deliveredAt: int,
    recordedAt: int)

  const MAX_DELIVERIES: nat := 50

  // ----- the order of the list

  /** a is strictly later than b: the comparison that puts the latest first. */
  predicate Later(a: Evidence, b: Evidence) {
    a.deliveredAt > b.deliveredAt || (a.deliveredAt == b.deliveredAt && a.recordedAt > b.recordedAt)
  }

  predicate LatestFirst(s: seq<Evidence>) {
    forall i, j :: 0 <= i < j < |s| ==> !Later(s[j], s[i])
  }

  /** x goes after everything that is not strictly earlier than it. */
  function InsertLatest(s: seq<Evidence>, x: Evidence): seq<Evidence> {
    if s == [] then [x] else if Later(x, s[0]) then [x] + s else [s[0]] + InsertLatest(s[1..], x)
  }

  /** The stable sort of a list, latest first. */
  function StableSort(s: seq<Evidence>): seq<Evidence> {
    if s == [] then [] else InsertLatest(StableSort(s[..|s| - 1]), s[|s| - 1])
  }

  function AtTime(s: seq<Evidence>, deliveredAt: int, recordedAt: int): seq<Evidence> {
    if s == [] then [] else
      AtTime(s[..|s| - 1], deliveredAt, recordedAt) +
      if s[|s| - 1].deliveredAt == deliveredAt && s[|s| - 1].recordedAt == recordedAt then [s[|s| - 1]] else []
  }

  function Take(s: seq<Evidence>): seq<Evidence> {
    if |s| <= MAX_DELIVERIES then s else s[..MAX_DELIVERIES]
  }

  lemma {:induction false} InsertSplits(s: seq<Evidence>, x: Evidence) returns (k: nat)
    requires LatestFirst(s)
    ensures k <= |s| && InsertLatest(s, x) == s[..k] + [x] + s[k..]
    ensures forall i :: 0 <= i < k ==> !Later(x, s[i])
    ensures forall i :: k <= i < |s| ==> Later(x, s[i])
  {
    if s == [] || Later(x, s[0]) {
      k := 0;
      assert forall i :: 0 < i < |s| ==> !Later(s[i], s[0]);
    } else {
      var j := InsertSplits(s[1..], x);
      k := j + 1;
      assert s[..k] == [s[0]] + s[1..][..j] && s[k..] == s[1..][j..];
    }
  }

  /** The sort is a sort: same elements, latest first. */
  lemma {:induction false} StableSortSorts(s: seq<Evidence>)
    ensures multiset(StableSort(s)) == multiset(s) && |StableSort(s)| == |s|
    ensures LatestFirst(StableSort(s))
  {
    hide InsertLatest;
    if s != [] {
      var n := |s| - 1;
      StableSortSorts(s[..n]);
      var before := StableSort(s[..n]);
      assert s == s[..n] + [s[n]];
      InsertSorted(before, s[n]);
    }
  }

  lemma InsertSorted(s: seq<Evidence>, x: Evidence)
    requires LatestFirst(s)
    ensures LatestFirst(InsertLatest(s, x))
    ensures multiset(InsertLatest(s, x)) == multiset(s) + multiset{x} && |InsertLatest(s, x)| == |s| + 1
  {
    hide InsertLatest;
    var k := InsertSplits(s, x);
    assert s == s[..k] + s[k..];
  }

  /** By delivery, the latest first, and among those of one moment by recording, the latest first. */
  predicate ByTimes(s: seq<Evidence>) {
    forall i, j :: 0 <= i < j < |s| ==>
      s[i].deliveredAt > s[j].deliveredAt || (s[i].deliveredAt == s[j].deliveredAt && s[i].recordedAt >= s[j].recordedAt)
  }

  lemma LatestFirstIs(s: seq<Evidence>)
    ensures LatestFirst(s) <==> ByTimes(s)
  {
  }

  lemma SortsByTimes(s: seq<Evidence>)
    ensures ByTimes(StableSort(s))
  {
    hide LatestFirst, ByTimes, StableSort;
    StableSortSorts(s);
    LatestFirstIs(StableSort(s));
  }

  /** The sort is stable: deliveries of equal times keep their order. */
  lemma {:induction false} StableSortIsStable(s: seq<Evidence>, deliveredAt: int, recordedAt: int)
    ensures AtTime(StableSort(s), deliveredAt, recordedAt) == AtTime(s, deliveredAt, recordedAt)
  {
    hide InsertLatest;
    if s != [] {
      var n := |s| - 1;
      StableSortIsStable(s[..n], deliveredAt, recordedAt);
      StableSortSorts(s[..n]);
      InsertAtTime(StableSort(s[..n]), s[n], deliveredAt, recordedAt);
      assert s == s[..n] + [s[n]];
      AtTimeConcat(s[..n], [s[n]], deliveredAt, recordedAt);
    }
  }

  lemma InsertAtTime(s: seq<Evidence>, x: Evidence, deliveredAt: int, recordedAt: int)
    requires LatestFirst(s)
    ensures AtTime(InsertLatest(s, x), deliveredAt, recordedAt)
         == AtTime(s, deliveredAt, recordedAt) + AtTime([x], deliveredAt, recordedAt)
  {
    hide InsertLatest, LatestFirst, AtTime;
    var k := InsertSplits(s, x);
    AtTimeConcat(s[..k] + [x], s[k..], deliveredAt, recordedAt);
    AtTimeConcat(s[..k], [x], deliveredAt, recordedAt);
    AtTimeConcat(s[..k], s[k..], deliveredAt, recordedAt);
    assert s == s[..k] + s[k..];
    NoneAtTime(s[k..], x);
    NeverAtTime([x], deliveredAt, recordedAt);
  }

  lemma NeverAtTime(one: seq<Evidence>, deliveredAt: int, recordedAt: int)
    requires |one| == 1
    ensures AtTime(one, deliveredAt, recordedAt)
         == if one[0].deliveredAt == deliveredAt && one[0].recordedAt == recordedAt then one else []
  {
    assert one[..0] == [];
  }

  lemma {:induction false} AtTimeConcat(a: seq<Evidence>, b: seq<Evidence>, deliveredAt: int, recordedAt: int)
    ensures AtTime(a + b, deliveredAt, recordedAt) == AtTime(a, deliveredAt, recordedAt) + AtTime(b, deliveredAt, recordedAt)
  {
    if b == [] {
      assert a + b == a;
    } else {
      var n := |b| - 1;
      AtTimeConcat(a, b[..n], deliveredAt, recordedAt);
      assert (a + b)[..|a + b| - 1] == a + b[..n];
    }
  }

  lemma {:induction false} NoneAtTime(s: seq<Evidence>, x: Evidence)
    requires forall i :: 0 <= i < |s| ==> Later(x, s[i])
    ensures AtTime(s, x.deliveredAt, x.recordedAt) == []
  {
    if s != [] {
      NoneAtTime(s[..|s| - 1], x);
    }
  }

  /** Where an insertion splits is determined by the times alone. */
  lemma {:induction false} InsertAt(s: seq<Evidence>, x: Evidence, k: nat)
    requires k <= |s|
    requires forall i :: 0 <= i < k ==> !Later(x, s[i])
    requires k < |s| ==> Later(x, s[k])
    ensures InsertLatest(s, x) == s[..k] + [x] + s[k..]
  {
    if k > 0 {
      InsertAt(s[1..], x, k - 1);
      assert s[..k] == [s[0]] + s[1..][..k - 1] && s[k..] == s[1..][k - 1..];
    }
  }

  lemma {:induction false} SortOfSorted(s: seq<Evidence>)
    requires LatestFirst(s)
    ensures StableSort(s) == s
  {
    hide InsertLatest;
    if s != [] {
      var n := |s| - 1;
      SortOfSorted(s[..n]);
      InsertAt(s[..n], s[n], n);
      assert s[..n][..n] == s[..n] && s[..n][n..] == [];
      assert s == s[..n] + [s[n]];
    }
  }

  /** Dropping all but the latest before or after an insertion comes to the same. */
  lemma TakeInsert(s: seq<Evidence>, x: Evidence)
    requires LatestFirst(s)
    ensures Take(InsertLatest(Take(s), x)) == Take(InsertLatest(s, x))
  {
    hide InsertLatest;
    if |s| > MAX_DELIVERIES {
      var k := InsertSplits(s, x);
      var t := s[..MAX_DELIVERIES];
      var j := if k < MAX_DELIVERIES then k else MAX_DELIVERIES;
      InsertAt(t, x, j);
      assert t[..j] == s[..j];
      assert Take(InsertLatest(s, x)) == (s[..k] + [x] + s[k..])[..MAX_DELIVERIES];
    }
  }

  // ----- merging one delivery

  function PlaceOf(s: seq<Evidence>, id: string): (i: nat)
    ensures i <= |s| && (i < |s| ==> s[i].evidenceId == id)
    ensures forall j :: 0 <= j < i ==> s[j].evidenceId != id
  {
    if s == [] || s[0].evidenceId == id then 0 else 1 + PlaceOf(s[1..], id)
  }

  /** Setting a key of an insertion-ordered map. */
  function Put(s: seq<Evidence>, e: Evidence): seq<Evidence> {
    var i := PlaceOf(s, e.evidenceId);
    if i < |s| then s[i := e] else s + [e]
  }

  function ById(s: seq<Evidence>): seq<Evidence> {
    if s == [] then [] else Put(ById(s[..|s| - 1]), s[|s| - 1])
  }

  /** The list after one more delivery; a delivery already listed is replaced. */
  function MergeVisibleDeliveries(existing: seq<Evidence>, next: Option<Evidence>): seq<Evidence> {
    if next.None? then existing else Take(StableSort(Put(ById(existing), next.value)))
  }

  predicate DistinctIds(s: seq<Evidence>) {
    forall i, j :: 0 <= i < j < |s| ==> s[i].evidenceId != s[j].evidenceId
  }

  lemma {:induction false} ByIdOfDistinct(s: seq<Evidence>)
    requires DistinctIds(s)
    ensures ById(s) == s
  {
    if s != [] {
      var n := |s| - 1;
      ByIdOfDistinct(s[..n]);
      assert PlaceOf(s[..n], s[n].evidenceId) == n;
      assert s == s[..n] + [s[n]];
    }
  }

  /** The list after a whole history of deliveries, one at a time. */
  function Incremental(history: seq<Evidence>): seq<Evidence> {
    if history == [] then [] else MergeVisibleDeliveries(Incremental(history[..|history| - 1]), Some(history[|history| - 1]))
  }

  lemma PermutationDistinct(a: seq<Evidence>, b: seq<Evidence>)
    requires multiset(a) == multiset(b) && DistinctIds(b)
    ensures DistinctIds(a)
  {
    forall i, j | 0 <= i < j < |a| ensures a[i].evidenceId != a[j].evidenceId {
      assert a[i] in multiset(b) && a[j] in multiset(b);
      if a[i] == a[j] {
        TwiceInSequence(a, i, j);
        OnceInDistinct(b, a[i]);
      } else {
        var k :| 0 <= k < |b| && b[k] == a[i];
        var l :| 0 <= l < |b| && b[l] == a[j];
      }
    }
  }

  lemma TwiceInSequence(a: seq<Evidence>, i: nat, j: nat)
    requires i < j < |a| && a[i] == a[j]
    ensures multiset(a)[a[i]] >= 2
  {
    assert a == a[..i] + [a[i]] + a[i + 1..j] + [a[j]] + a[j + 1..];
  }

  lemma {:induction false} OnceInDistinct(b: seq<Evidence>, x: Evidence)
    requires DistinctIds(b)
    ensures multiset(b)[x] <= 1
  {
    if b != [] {
      var n := |b| - 1;
      assert b == b[..n] + [b[n]];
      OnceInDistinct(b[..n], x);
      if b[n] == x {
        assert x !in b[..n];
      }
    }
  }

  /** A delivery with a new id is put at the end. */
  lemma PutNew(s: seq<Evidence>, x: Evidence)
    requires forall i :: 0 <= i < |s| ==> s[i].evidenceId != x.evidenceId
    ensures Put(s, x) == s + [x]
  {
    var i := PlaceOf(s, x.evidenceId);
  }

  /** One more delivery, with a new id, into a list that is the latest of some history. */
  lemma MergeNew(sorted: seq<Evidence>, x: Evidence)
    requires LatestFirst(sorted) && DistinctIds(sorted)
    requires forall i :: 0 <= i < |sorted| ==> sorted[i].evidenceId != x.evidenceId
    ensures MergeVisibleDeliveries(Take(sorted), Some(x)) == Take(InsertLatest(sorted, x))
  {
    hide InsertLatest, ById, Put;
    var stored := Take(sorted);
    ByIdOfDistinct(stored);
    PutNew(stored, x);
    SortOfSorted(stored);
    assert (stored + [x])[..|stored|] == stored;
    TakeInsert(sorted, x);
  }

  /** Keeping the fifty latest as deliveries arrive gives the fifty latest of the whole history, stably sorted. */
  lemma {:induction false} IncrementalIsBatch(history: seq<Evidence>)
    requires DistinctIds(history)
    ensures Incremental(history) == Take(StableSort(history))
  {
    hide InsertLatest, MergeVisibleDeliveries, Take;
    if history != [] {
      var n := |history| - 1;
      var sorted := StableSort(history[..n]);
      IncrementalIsBatch(history[..n]);
      StableSortSorts(history[..n]);
      PermutationDistinct(sorted, history[..n]);
      NewIn(sorted, history);
      MergeNew(sorted, history[n]);
    } else {
      assert Take([]) == [] by { TakeAll([]); }
    }
  }

  lemma TakeAll(s: seq<Evidence>)
    requires |s| <= MAX_DELIVERIES
    ensures Take(s) == s
  {
  }

  lemma NewIn(sorted: seq<Evidence>, history: seq<Evidence>)
    requires history != [] && DistinctIds(history) && multiset(sorted) == multiset(history[..|history| - 1])
    ensures forall i :: 0 <= i < |sorted| ==> sorted[i].evidenceId != history[|history| - 1].evidenceId
  {
    var n := |history| - 1;
    forall i | 0 <= i < |sorted| ensures sorted[i].evidenceId != history[n].evidenceId {
      assert sorted[i] in multiset(history[..n]);
      var k :| 0 <= k < n && history[..n][k] == sorted[i];
    }
  }

  lemma {:induction false} PlaceOfSplits(s: seq<Evidence>, e: Evidence)
    requires DistinctIds(s)
    ensures DistinctIds(Put(s, e))
    ensures forall x :: x in Put(s, e) <==> x == e || (x in s && x.evidenceId != e.evidenceId)
    ensures |Put(s, e)| == |s| + (if exists x :: x in s && x.evidenceId == e.evidenceId then 0 else 1)
  {
    var i, r := PlaceOf(s, e.evidenceId), Put(s, e);
    forall x ensures x in r <==> x == e || (x in s && x.evidenceId != e.evidenceId) {
      if x in r && x != e {
        var k :| 0 <= k < |r| && r[k] == x;
        assert k < |s| && k != i && s[k] == x;
      }
      if x in s && x.evidenceId != e.evidenceId {
        var k :| 0 <= k < |s| && s[k] == x;
        assert r[k] == x;
      }
      if x == e {
        assert r[i] == e;
      }
    }
    if i < |s| {
      assert s[i] in s;
    }
  }

  /**
   Merging one delivery into a list without repeated ids: it takes the place of a delivery with its id, and is added
   otherwise; at most the fifty latest are kept, in order, and what is dropped is not later than anything kept.
   */
  lemma MergeReplaces(existing: seq<Evidence>, e: Evidence)
    requires DistinctIds(existing)
    ensures
      var r := MergeVisibleDeliveries(existing, Some(e));
      var all := Put(existing, e);
      && DistinctIds(r) && LatestFirst(r)
      && |r| == (if |all| < MAX_DELIVERIES then |all| else MAX_DELIVERIES)
      && (forall x :: x in all <==> x == e || (x in existing && x.evidenceId != e.evidenceId))
      && (forall x :: x in r ==> x in all)
      && (forall x, y :: x in all && x !in r && y in r ==> !Later(x, y))
  {
    hide StableSort, Put, Later, ById;
    ByIdOfDistinct(existing);
    PlaceOfSplits(existing, e);
    var all, sorted := Put(existing, e), StableSort(Put(existing, e));
    StableSortSorts(all);
    PermutationDistinct(sorted, all);
    assert forall x :: x in sorted <==> x in multiset(sorted);
    assert forall x :: x in all <==> x in multiset(all);
    assert |multiset(sorted)| == |sorted| && |multiset(all)| == |all|;
    TakenAreLatest(sorted);
  }

  lemma TakenAreLatest(sorted: seq<Evidence>)
    requires LatestFirst(sorted) && DistinctIds(sorted)
    ensures DistinctIds(Take(sorted)) && LatestFirst(Take(sorted)) && forall x :: x in Take(sorted) ==> x in sorted
    ensures forall x, y :: x in sorted && x !in Take(sorted) && y in Take(sorted) ==> !Later(x, y)
  {
    hide Later;
    var r := Take(sorted);
    forall x, y | x in sorted && x !in r && y in r ensures !Later(x, y) {
      var i :| 0 <= i < |sorted| && sorted[i] == x;
      var j :| 0 <= j < |r| && r[j] == y;
      assert forall k :: 0 <= k < |r| ==> sorted[k] == r[k] && r[k] in r;
      assert sorted[j] == y;
    }
  }

  // ----- the latest visible finality

  datatype Query = Query(sourceRequestId: Option<string>, correlationMessageId: Option<string>, after: Option<int>)

  /** Whether a delivery answers the query; an absent or empty id in the query asks for nothing. */
  predicate Answers(q: Query, e: Evidence) {
    && (e.kind.Final? || e.kind.TerminalError? || e.kind.TerminalNoReply?)
    && (q.sourceRequestId.None? || q.sourceRequestId.value == "" || e.sourceRequestId == q.sourceRequestId)
    && (q.correlationMessageId.None? || q.correlationMessageId.value == "" || e.correlationMessageId == q.correlationMessageId)
    && (q.after.None? || e.deliveredAt >= q.after.value)
  }

  function Candidates(s: seq<Evidence>, q: Query): seq<Evidence> {
    if s == [] then [] else Candidates(s[..|s| - 1], q) + if Answers(q, s[|s| - 1]) then [s[|s| - 1]] else []
  }

  function FindLatestVisibleFinality(deliveries: seq<Evidence>, q: Query): Option<Evidence> {
    var candidates := StableSort(Candidates(deliveries, q));
    if candidates == [] then None else Some(candidates[0])
  }

  /** Candidates keep their relative order. */
  lemma {:induction false} CandidatesSorted(s: seq<Evidence>, q: Query)
    requires LatestFirst(s)
    ensures LatestFirst(Candidates(s, q))
    ensures forall e :: e in Candidates(s, q) <==> e in s && Answers(q, e)
  {
    if s != [] {
      var n := |s| - 1;
      CandidatesSorted(s[..n], q);
      assert s == s[..n] + [s[n]];
      var before := Candidates(s[..n], q);
      forall i | 0 <= i < |before| ensures !Later(s[n], before[i]) {
        assert before[i] in s[..n];
      }
    }
  }

  /** The first delivery of a sorted list that answers the query is the one found. */
  lemma {:induction false} FindsFirst(s: seq<Evidence>, q: Query, k: nat)
    requires LatestFirst(s) && k <= |s|
    requires forall i :: 0 <= i < k ==> !Answers(q, s[i])
    requires k < |s| ==> Answers(q, s[k])
    ensures FindLatestVisibleFinality(s, q) == if k < |s| then Some(s[k]) else None
  {
    hide StableSort;
    CandidatesSorted(s, q);
    SortOfSorted(Candidates(s, q));
    CandidatesHead(s, q, k);
  }

  lemma {:induction false} CandidatesHead(s: seq<Evidence>, q: Query, k: nat)
    requires k <= |s|
    requires forall i :: 0 <= i < k ==> !Answers(q, s[i])
    requires k < |s| ==> Answers(q, s[k])
    ensures if k < |s| then Candidates(s, q) != [] && Candidates(s, q)[0] == s[k] else Candidates(s, q) == []
  {
    if s != [] {
      var n := |s| - 1;
      CandidatesHead(s[..n], q, if k < n then k else n);
    }
  }

  function FirstAnswer(s: seq<Evidence>, q: Query): (k: nat)
    ensures k <= |s| && (k < |s| ==> Answers(q, s[k]))
    ensures forall i :: 0 <= i < k ==> !Answers(q, s[i])
  {
    if s == [] || Answers(q, s[0]) then 0 else 1 + FirstAnswer(s[1..], q)
  }

  lemma TakeIsSorted(s: seq<Evidence>)
    requires LatestFirst(s)
    ensures LatestFirst(Take(s))
  {
  }

  lemma NoneIsLater(s: seq<Evidence>, q: Query, k: nat)
    requires LatestFirst(s) && k < |s| && forall i :: 0 <= i < k ==> !Answers(q, s[i])
    ensures forall d :: d in s && Answers(q, d) ==> !Later(d, s[k])
  {
    hide Answers;
  }

  /**
   * What keeping only fifty deliveries costs: a query over the stored list gives the answer the whole
   * history gives exactly when fewer than fifty deliveries come before that answer, and nothing otherwise.
   */
  lemma FinalityOfHistory(history: seq<Evidence>, q: Query)
    requires DistinctIds(history)
    ensures var all := FindLatestVisibleFinality(history, q);
            var before := FirstAnswer(StableSort(history), q);
            && (all.Some? <==> before < |history|)
            && FindLatestVisibleFinality(Incremental(history), q) == if before < MAX_DELIVERIES then all else None
    ensures forall e :: FindLatestVisibleFinality(history, q) == Some(e) ==>
              e in history && Answers(q, e) && forall d :: d in history && Answers(q, d) ==> !Later(d, e)
  {
    hide InsertLatest, MergeVisibleDeliveries, Answers, StableSort, Candidates, LatestFirst, DistinctIds, Later;
    var sorted := StableSort(history);
    var stored := Incremental(history);
    StableSortSorts(history);
    IncrementalIsBatch(history);
    var k := FirstAnswer(sorted, q);
    FindsFirst(sorted, q, k);
    TakeIsSorted(sorted);
    FindsFirst(stored, q, if k < |stored| then k else |stored|);
    SameFound(history, q);
    if k < |sorted| {
      NoneIsLater(sorted, q, k);
    }
    assert forall e :: e in sorted <==> e in multiset(sorted);
    assert forall e :: e in history <==> e in multiset(history);
  }

  /** What a query asks for: a closing delivery, with the ids it names, and not before the time it names. */
  predicate Matches(e: Evidence, q: Query) {
    && e.kind !in {Tool, Block}
    && (q.sourceRequestId !in {None, Some("")} ==> e.sourceRequestId == q.sourceRequestId)
    && (q.correlationMessageId !in {None, Some("")} ==> e.correlationMessageId == q.correlationMessageId)
    && (q.after.Some? ==> q.after.value <= e.deliveredAt)
  }

  /** In any list, a delivery that matches is found if there is one, and none that matches is later than it. */
  lemma FindsTheLatestMatch(deliveries: seq<Evidence>, q: Query)
    ensures
      var found := FindLatestVisibleFinality(deliveries, q);
      && (found.None? <==> forall d :: d in deliveries ==> !Matches(d, q))
      && (found.Some? ==>
            && found.value in deliveries && Matches(found.value, q)
            && forall d :: d in deliveries && Matches(d, q) ==> !Later(d, found.value))
  {
    hide StableSort, Answers, Matches, Later;
    var candidates := Candidates(deliveries, q);
    forall d ensures Matches(d, q) <==> Answers(q, d) {
      MatchesAnswers(d, q);
    }
    CandidatesAre(deliveries, q);
    StableSortSorts(candidates);
    assert forall e :: e in StableSort(candidates) <==> e in multiset(candidates);
    assert forall e :: e in candidates <==> e in multiset(candidates);
    assert |StableSort(candidates)| == |candidates|;
    if candidates != [] {
      FirstIsLatest(StableSort(candidates));
    }
  }

  lemma MatchesAnswers(e: Evidence, q: Query)
    ensures Matches(e, q) <==> Answers(q, e)
  {
  }

  lemma {:induction false} CandidatesAre(s: seq<Evidence>, q: Query)
    ensures forall e :: e in Candidates(s, q) <==> e in s && Answers(q, e)
  {
    hide Answers;
    if s != [] {
      CandidatesAre(s[..|s| - 1], q);
      assert s == s[..|s| - 1] + [s[|s| - 1]];
    }
  }

  lemma FirstIsLatest(s: seq<Evidence>)
    requires LatestFirst(s) && s != []
    ensures forall e :: e in s ==> !Later(e, s[0])
  {
    forall e | e in s ensures !Later(e, s[0]) {
      var i :| 0 <= i < |s| && s[i] == e;
      assert i > 0 ==> !Later(s[i], s[0]);
    }
  }

  /** Sorting the list first does not change what is found in it. */
  lemma SameFound(s: seq<Evidence>, q: Query)
    ensures FindLatestVisibleFinality(StableSort(s), q) == FindLatestVisibleFinality(s, q)
  {
    hide StableSort, Answers, Candidates, InsertLatest;
    StableSortSorts(s);
    CandidatesSorted(StableSort(s), q);
    SortOfSorted(Candidates(StableSort(s), q));
    SortCandidates(s, q);
  }

  /** Filtering commutes with the stable sort. */
  lemma {:induction false} SortCandidates(s: seq<Evidence>, q: Query)
    ensures StableSort(Candidates(s, q)) == Candidates(StableSort(s), q)
  {
    hide Answers, InsertLatest;
    if s != [] {
      var n := |s| - 1;
      SortCandidates(s[..n], q);
      StableSortSorts(s[..n]);
      InsertCandidate(StableSort(s[..n]), s[n], q);
      if Answers(q, s[n]) {
        assert Candidates(s, q)[..|Candidates(s, q)| - 1] == Candidates(s[..n], q);
      } else {
        assert Candidates(s, q) == Candidates(s[..n], q);
      }
    }
  }

  lemma InsertCandidate(s: seq<Evidence>, x: Evidence, q: Query)
    requires LatestFirst(s)
    ensures Candidates(InsertLatest(s, x), q) == if Answers(q, x) then InsertLatest(Candidates(s, q), x) else Candidates(s, q)
  {
    hide Answers, InsertLatest, Candidates;
    var k := InsertSplits(s, x);
    CandidatesConcat(s[..k] + [x], s[k..], q);
    CandidatesConcat(s[..k], [x], q);
    CandidatesConcat(s[..k], s[k..], q);
    assert s == s[..k] + s[k..];
    CandidateOne(x, q);
    var front, back := Candidates(s[..k], q), Candidates(s[k..], q);
    CandidatesSorted(s[..k], q);
    CandidatesSorted(s[k..], q);
    if Answers(q, x) {
      forall i | 0 <= i < |front| ensures !Later(x, front[i]) {
        assert front[i] in s[..k];
      }
      if back != [] {
        assert back[0] in s[k..];
      }
      InsertAt(front + back, x, |front|);
    }
  }

  lemma CandidateOne(x: Evidence, q: Query)
    ensures Candidates([x], q) == if Answers(q, x) then [x] else []
  {
    assert [x][..0] == [];
  }

  lemma {:induction false} CandidatesConcat(a: seq<Evidence>, b: seq<Evidence>, q: Query)
    ensures Candidates(a + b, q) == Candidates(a, q) + Candidates(b, q)
  {
    if b == [] {
      assert a + b == a;
    } else {
      var n := |b| - 1;
      CandidatesConcat(a, b[..n], q);
      assert (a + b)[..|a + b| - 1] == a + b[..n];
    }
  }

  // ----- the records

  function MaxDefined(a: Option<int>, b: Option<int>): Option<int> {
    if a.None? then b else if b.None? then a else Some(if a.value < b.value then b.value else a.value)
  }

  /** m is the largest of the values that are there; absent when none is. */
  predicate Largest(m: Option<int>, values: seq<Option<int>>) {
    && (m.Some? ==> m in values)
    && forall v :: v in values && v.Some? ==> m.Some? && v.value <= m.value
  }

  datatype Entry = Entry(
    sessionKey: string,
    userAt: Option<int>,
    assistantAt: Option<int>,
    transcriptAt: Option<int>,
    inboundAt: Option<int>,
    outboundAt: Option<int>,
    updatedAt: int,
    delivery: Option<Evidence>)

  datatype Record = Record(
    userAt: Option<int>,
    assistantAt: Option<int>,
    transcriptAt: Option<int>,
    inboundAt: Option<int>,
    outboundAt: Option<int>,
    deliveries: seq<Evidence>,
    updatedAt: int)

  /** What a session that has no record yet contributes to its first one. */
  const NOTHING := Record(None, None, None, None, None, [], 0)

  function Merged(previous: Record, e: Entry): Record {
    Record(
      MaxDefined(previous.userAt, e.userAt),
      MaxDefined(previous.assistantAt, e.assistantAt),
      MaxDefined(previous.transcriptAt, e.transcriptAt),
      MaxDefined(previous.inboundAt, e.inboundAt),
      MaxDefined(previous.outboundAt, e.outboundAt),
      MergeVisibleDeliveries(previous.deliveries, e.delivery),
      if previous.updatedAt < e.updatedAt then e.updatedAt else previous.updatedAt)
  }

  function Previous(records: map<string, Record>, sessionKey: string): Record {
    if sessionKey in records then records[sessionKey] else NOTHING
  }

  function Recorded(records: map<string, Record>, entries: seq<Entry>): map<string, Record> {
    if entries == [] then records else
      var before := Recorded(records, entries[..|entries| - 1]);
      var e := entries[|entries| - 1];
      before[e.sessionKey := Merged(Previous(before, e.sessionKey), e)]
  }

  class ConversationActivityIndex {
    var records: map<string, Record>

    constructor ()
      ensures records == map[]
    {
      records := map[];
    }

    method MergeRecord(input: Entry) returns (record: Record)
      modifies this
      ensures records == old(records)[input.sessionKey := record]
      ensures records == Recorded(old(records), [input])
    {
      var previous := NOTHING;
      if input.sessionKey in records {
        previous := records[input.sessionKey];
      }
      record := Merged(previous, input);
      assert [input][..0] == [];
      records := records[input.sessionKey := record];
    }

    method Find(sessionKey: string, q: Query) returns (found: Option<Evidence>)
      ensures found == FindLatestVisibleFinality(Previous(records, sessionKey).deliveries, q)
    {
      if sessionKey !in records || records[sessionKey].deliveries == [] {
        return None;
      }
      return FindLatestVisibleFinality(records[sessionKey].deliveries, q);
    }
  }

  // ----- what the records hold after any run

  function Of(entries: seq<Entry>, key: string): seq<Entry> {
    if entries == [] then [] else
      Of(entries[..|entries| - 1], key) + if entries[|entries| - 1].sessionKey == key then [entries[|entries| - 1]] else []
  }

  function Deliveries(entries: seq<Entry>): seq<Evidence> {
    if entries == [] then [] else
      Deliveries(entries[..|entries| - 1]) +
      if entries[|entries| - 1].delivery.Some? then [entries[|entries| - 1].delivery.value] else []
  }

  function UserAt(e: Entry): Option<int> { e.userAt }
  function AssistantAt(e: Entry): Option<int> { e.assistantAt }
  function TranscriptAt(e: Entry): Option<int> { e.transcriptAt }
  function InboundAt(e: Entry): Option<int> { e.inboundAt }
  function OutboundAt(e: Entry): Option<int> { e.outboundAt }
  function UpdatedAt(e: Entry): Option<int> { Some(e.updatedAt) }

  function Each(entries: seq<Entry>, f: Entry -> Option<int>): seq<Option<int>> {
    seq(|entries|, i requires 0 <= i < |entries| => f(entries[i]))
  }

  /** The record is the summary of a session's entries: every time is a maximum, every list the latest fifty. */
  predicate Summarises(r: Record, entries: seq<Entry>) {
    && Largest(r.userAt, Each(entries, UserAt))
    && Largest(r.assistantAt, Each(entries, AssistantAt))
    && Largest(r.transcriptAt, Each(entries, TranscriptAt))
    && Largest(r.inboundAt, Each(entries, InboundAt))
    && Largest(r.outboundAt, Each(entries, OutboundAt))
    && Largest(Some(r.updatedAt), [Some(0)] + Each(entries, UpdatedAt))
    && r.deliveries == Incremental(Deliveries(entries))
  }

  lemma LargestGrows(m: Option<int>, values: seq<Option<int>>, v: Option<int>)
    requires Largest(m, values)
    ensures Largest(MaxDefined(m, v), values + [v])
  {
  }

  lemma EachGrows(entries: seq<Entry>, e: Entry, f: Entry -> Option<int>)
    ensures Each(entries + [e], f) == Each(entries, f) + [f(e)]
  {
  }

  lemma LatestGrows(r: Record, entries: seq<Entry>, e: Entry)
    requires Largest(Some(r.updatedAt), [Some(0)] + Each(entries, UpdatedAt))
    ensures Largest(Some(Merged(r, e).updatedAt), [Some(0)] + Each(entries + [e], UpdatedAt))
  {
    hide Largest, Each;
    EachGrows(entries, e, UpdatedAt);
    LargestGrows(Some(r.updatedAt), [Some(0)] + Each(entries, UpdatedAt), UpdatedAt(e));
    assert [Some(0)] + Each(entries, UpdatedAt) + [UpdatedAt(e)] == [Some(0)] + Each(entries + [e], UpdatedAt);
  }

  lemma DeliveriesGrow(entries: seq<Entry>, e: Entry)
    ensures Incremental(Deliveries(entries + [e])) == MergeVisibleDeliveries(Incremental(Deliveries(entries)), e.delivery)
  {
    hide Take, StableSort, Put, ById;
    var next := entries + [e];
    assert next[..|next| - 1] == entries;
    var d := Deliveries(next);
    if e.delivery.Some? {
      assert d[..|d| - 1] == Deliveries(entries);
    } else {
      assert d == Deliveries(entries);
    }
  }

  lemma MergedSummarises(r: Record, entries: seq<Entry>, e: Entry)
    requires Summarises(r, entries)
    ensures Summarises(Merged(r, e), entries + [e])
  {
    hide Largest, MaxDefined, MergeVisibleDeliveries, Each, Incremental, Deliveries;
    EachGrows(entries, e, UserAt);
    EachGrows(entries, e, AssistantAt);
    EachGrows(entries, e, TranscriptAt);
    EachGrows(entries, e, InboundAt);
    EachGrows(entries, e, OutboundAt);
    LargestGrows(r.userAt, Each(entries, UserAt), e.userAt);
    LargestGrows(r.assistantAt, Each(entries, AssistantAt), e.assistantAt);
    LargestGrows(r.transcriptAt, Each(entries, TranscriptAt), e.transcriptAt);
    LargestGrows(r.inboundAt, Each(entries, InboundAt), e.inboundAt);
    LargestGrows(r.outboundAt, Each(entries, OutboundAt), e.outboundAt);
    LatestGrows(r, entries, e);
    DeliveriesGrow(entries, e);
  }

  /**
   * After any run over any sessions, a session has a record exactly when it had an entry, and the record
   * summarises that session's own entries: maxima, and the fifty latest of its whole delivery history.
   */
  lemma {:induction false} RecordsSummarise(entries: seq<Entry>, key: string)
    ensures key in Recorded(map[], entries) <==> Of(entries, key) != []
    ensures Summarises(Previous(Recorded(map[], entries), key), Of(entries, key))
    ensures DistinctIds(Deliveries(Of(entries, key))) ==>
              Previous(Recorded(map[], entries), key).deliveries == Take(StableSort(Deliveries(Of(entries, key))))
  {
    hide Summarises, Merged, Incremental, DistinctIds;
    if entries == [] {
      SummariseNothing();
    } else {
      var n := |entries| - 1;
      RecordsSummarise(entries[..n], key);
      if entries[n].sessionKey == key {
        MergedSummarises(Previous(Recorded(map[], entries[..n]), key), Of(entries[..n], key), entries[n]);
      } else {
        assert Previous(Recorded(map[], entries), key) == Previous(Recorded(map[], entries[..n]), key);
        assert Of(entries, key) == Of(entries[..n], key);
      }
    }
    DeliveriesSummarised(Previous(Recorded(map[], entries), key), Of(entries, key));
  }

  lemma SummariseNothing()
    ensures Summarises(NOTHING, [])
  {
  }

  lemma DeliveriesSummarised(r: Record, entries: seq<Entry>)
    requires Summarises(r, entries)
    ensures DistinctIds(Deliveries(entries)) ==> r.deliveries == Take(StableSort(Deliveries(entries)))
  {
    hide Largest, StableSort, Take, Incremental;
    if DistinctIds(Deliveries(entries)) {
      IncrementalIsBatch(Deliveries(entries));
    }
  }

  lemma LargestUnique(m: Option<int>, n: Option<int>, a: seq<Option<int>>, b: seq<Option<int>>)
    requires Largest(m, a) && Largest(n, b) && forall v :: v in a <==> v in b
    ensures m == n
  {
  }

  /** The maxima do not depend on the order in which a session's entries arrive. */
  lemma MaximaIgnoreOrder(a: seq<Entry>, b: seq<Entry>, key: string)
    requires forall e :: e in Of(a, key) <==> e in Of(b, key)
    ensures var x := Previous(Recorded(map[], a), key);
            var y := Previous(Recorded(map[], b), key);
            x == y.(deliveries := x.deliveries)
  {
    hide *;
    RecordsSummarise(a, key);
    RecordsSummarise(b, key);
    SummaryIgnoresOrder(Previous(Recorded(map[], a), key), Of(a, key), Previous(Recorded(map[], b), key), Of(b, key));
  }

  lemma SummaryIgnoresOrder(x: Record, p: seq<Entry>, y: Record, q: seq<Entry>)
    requires Summarises(x, p) && Summarises(y, q) && forall e :: e in p <==> e in q
    ensures x == y.(deliveries := x.deliveries)
  {
    hide Largest, Each, Incremental, Deliveries;
    SameLargest(x.userAt, y.userAt, p, q, UserAt);
    SameLargest(x.assistantAt, y.assistantAt, p, q, AssistantAt);
    SameLargest(x.transcriptAt, y.transcriptAt, p, q, TranscriptAt);
    SameLargest(x.inboundAt, y.inboundAt, p, q, InboundAt);
    SameLargest(x.outboundAt, y.outboundAt, p, q, OutboundAt);
    SameEach(p, q, UpdatedAt);
    LargestUnique(Some(x.updatedAt), Some(y.updatedAt), [Some(0)] + Each(p, UpdatedAt), [Some(0)] + Each(q, UpdatedAt));
  }

  lemma SameLargest(m: Option<int>, n: Option<int>, p: seq<Entry>, q: seq<Entry>, f: Entry -> Option<int>)
    requires Largest(m, Each(p, f)) && Largest(n, Each(q, f)) && forall e :: e in p <==> e in q
    ensures m == n
  {
    SameEach(p, q, f);
    LargestUnique(m, n, Each(p, f), Each(q, f));
  }

  lemma SameEach(p: seq<Entry>, q: seq<Entry>, f: Entry -> Option<int>)
    requires forall e :: e in p <==> e in q
    ensures forall v :: v in Each(p, f) <==> v in Each(q, f)
  {
    forall v | v in Each(p, f) ensures v in Each(q, f) {
      var i :| 0 <= i < |p| && Each(p, f)[i] == v;
      assert p[i] in q;
      var j :| 0 <= j < |q| && q[j] == p[i];
      assert Each(q, f)[j] == v;
    }
    forall v | v in Each(q, f) ensures v in Each(p, f) {
      var i :| 0 <= i < |q| && Each(q, f)[i] == v;
      assert q[i] in p;
      var j :| 0 <= j < |p| && p[j] == q[i];
      assert Each(p, f)[j] == v;
    }
  }
}
