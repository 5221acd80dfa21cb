/** The durable outbox: one file for each pending event, listed in the order of the file names. */
module LifecycleOutbox {
  import opened Options
  import opened Decimal
  import opened LifecycleContract

  datatype Entry = Entry(fileName: string, enqueuedAt: nat, event: Event)

  type Digest = (string, string) -> string

  /** Timestamp, sequence number and a digest of the event's identity. */
  function FileName(digest: Digest, enqueuedAt: nat, event: Event): string {
    PadStart(Digits(enqueuedAt), 13) + "-" + (PadStart(Digits(event.sequence), 16) + "-" + (digest(event.serverId, event.eventId) + ".json"))
  }

  function MakeEntry(digest: Digest, enqueuedAt: nat, event: Event): Entry {
    Entry(FileName(digest, enqueuedAt, event), enqueuedAt, event)
  }

  /** Different events have different digests. */
  ghost predicate Injective(digest: Digest) {
    forall s, e, t, f :: digest(s, e) == digest(t, f) ==> s == t && e == f
  }

  // ----- file names

  lemma FirstDashSplits(x: string, a: string, y: string, b: string)
    requires x + "-" + a == y + "-" + b && AllDigits(x) && AllDigits(y)
    ensures x == y && a == b
  {
    var s := x + "-" + a;
    assert s[|x|] == '-' && s[|y|] == '-';
    assert forall i :: 0 <= i < |x| ==> s[i] == x[i];
    assert forall i :: 0 <= i < |y| ==> s[i] == y[i];
    assert |x| == |y|;
    assert x == s[..|x|] && y == s[..|y|];
    assert a == s[|x| + 1..] && b == s[|y| + 1..];
  }

  lemma PadStartDigits(n: nat, width: nat)
    ensures AllDigits(PadStart(Digits(n), width)) && Value(PadStart(Digits(n), width)) == n
  {
    hide Digits;
    ValueOfDigits(n);
    if |Digits(n)| <= width {
      PadStartValue(Digits(n), width);
    }
  }

  /** A file name determines when its event was stored, its number and its digest. */
  lemma FileNameInjective(digest: Digest, t: nat, e: Event, u: nat, f: Event)
    requires FileName(digest, t, e) == FileName(digest, u, f)
    ensures t == u && e.sequence == f.sequence && digest(e.serverId, e.eventId) == digest(f.serverId, f.eventId)
  {
    hide PadStart, Digits, Value;
    PadStartDigits(t, 13);
    PadStartDigits(u, 13);
    PadStartDigits(e.sequence, 16);
    PadStartDigits(f.sequence, 16);
    var d, d2 := digest(e.serverId, e.eventId), digest(f.serverId, f.eventId);
    var m, n := PadStart(Digits(e.sequence), 16), PadStart(Digits(f.sequence), 16);
    var a, b := m + "-" + (d + ".json"), n + "-" + (d2 + ".json");
    FirstDashSplits(PadStart(Digits(t), 13), a, PadStart(Digits(u), 13), b);
    FirstDashSplits(m, d + ".json", n, d2 + ".json");
    assert d == (d + ".json")[..|d|];
    assert |d| == |d2|;
  }

  /**
   File-name order is numeric order: by time, then by sequence number, then by digest, for every time below 10^13
   milliseconds and every safe-integer sequence number.
   */
  lemma FileNameOrder(digest: Digest, t: nat, e: Event, u: nat, f: Event)
    requires t < 10_000_000_000_000 && u < 10_000_000_000_000
    requires e.sequence <= MAX_SAFE_INTEGER && f.sequence <= MAX_SAFE_INTEGER
    ensures Before(FileName(digest, t, e), FileName(digest, u, f)) <==>
            || t < u
            || (t == u && e.sequence < f.sequence)
            || (t == u && e.sequence == f.sequence && Before(digest(e.serverId, e.eventId) + ".json", digest(f.serverId, f.eventId) + ".json"))
  {
    hide PadStart, Digits, Power10, Before;
    PowersOf10();
    PaddedOrder(t, u, 13);
    PaddedOrder(e.sequence, f.sequence, 16);
    PaddedValue(t, 13);
    PaddedValue(u, 13);
    PaddedValue(e.sequence, 16);
    PaddedValue(f.sequence, 16);
    var d, d2 := digest(e.serverId, e.eventId) + ".json", digest(f.serverId, f.eventId) + ".json";
    var a, b := PadStart(Digits(t), 13), PadStart(Digits(u), 13);
    var m, n := PadStart(Digits(e.sequence), 16), PadStart(Digits(f.sequence), 16);
    BeforeConcat(a, b, "-" + (m + "-" + d), "-" + (n + "-" + d2));
    assert a + ("-" + (m + "-" + d)) == FileName(digest, t, e) && b + ("-" + (n + "-" + d2)) == FileName(digest, u, f);
    BeforeConcat("-", "-", m + "-" + d, n + "-" + d2);
    BeforeConcat(m, n, "-" + d, "-" + d2);
    assert m + ("-" + d) == m + "-" + d && n + ("-" + d2) == n + "-" + d2;
    BeforeConcat("-", "-", d, d2);
    BeforeTotal("-", "-");
    BeforeTotal(m, n);
    BeforeTotal(a, b);
  }

  // ----- the listing

  ghost predicate Ascending(pending: seq<Entry>) {
    forall i, j :: 0 <= i < j < |pending| ==> Before(pending[i].fileName, pending[j].fileName)
  }

  /** Renaming a file into the directory: it takes its place in name order, over a file of the same name. */
  function Insert(pending: seq<Entry>, e: Entry): seq<Entry> {
    if pending == [] then [e]
    else if pending[0].fileName == e.fileName then [e] + pending[1..]
    else if Before(e.fileName, pending[0].fileName) then [e] + pending
    else [pending[0]] + Insert(pending[1..], e)
  }

  function RemoveName(pending: seq<Entry>, fileName: string): seq<Entry> {
    if pending == [] then []
    else if pending[0].fileName == fileName then RemoveName(pending[1..], fileName)
    else [pending[0]] + RemoveName(pending[1..], fileName)
  }

  predicate SameIdentity(e: Event, f: Event) {
    e.serverId == f.serverId && e.eventId == f.eventId
  }

  /** The first pending entry with this event's identity. */
  function Existing(pending: seq<Entry>, event: Event): (r: Option<Entry>)
    ensures r.Some? ==> r.value in pending && SameIdentity(r.value.event, event)
    ensures r.None? ==> forall e :: e in pending ==> !SameIdentity(e.event, event)
  {
    if pending == [] then None
    else if SameIdentity(pending[0].event, event) then Some(pending[0])
    else Existing(pending[1..], event)
  }

  ghost predicate Fresh(pending: seq<Entry>, fileName: string) {
    forall e :: e in pending ==> e.fileName != fileName
  }

  /** Where a new name goes: everything before it in the result has a smaller name, everything after a larger one. */
  lemma {:induction false} InsertSplits(pending: seq<Entry>, e: Entry) returns (k: nat)
    requires Ascending(pending) && Fresh(pending, e.fileName)
    ensures k <= |pending| && Insert(pending, e) == pending[..k] + [e] + pending[k..]
    ensures forall i :: 0 <= i < k ==> Before(pending[i].fileName, e.fileName)
    ensures forall i :: k <= i < |pending| ==> Before(e.fileName, pending[i].fileName)
  {
    hide Before;
    if pending == [] {
      k := 0;
    } else {
      BeforeTotal(e.fileName, pending[0].fileName);
      assert pending[0] in pending;
      if Before(e.fileName, pending[0].fileName) {
        k := 0;
        forall i | 0 < i < |pending| ensures Before(e.fileName, pending[i].fileName) {
          BeforeTransitive(e.fileName, pending[0].fileName, pending[i].fileName);
        }
      } else {
        var j := InsertSplits(pending[1..], e);
        k := j + 1;
        assert pending[..k] == [pending[0]] + pending[1..][..j] && pending[k..] == pending[1..][j..];
      }
    }
  }

  lemma InsertFacts(pending: seq<Entry>, e: Entry)
    requires Ascending(pending) && Fresh(pending, e.fileName)
    ensures Ascending(Insert(pending, e))
    ensures |Insert(pending, e)| == |pending| + 1
    ensures multiset(Insert(pending, e)) == multiset(pending) + multiset{e}
    ensures forall f :: f in Insert(pending, e) <==> f == e || f in pending
  {
    hide Before, Insert, Ascending;
    var k := InsertSplits(pending, e);
    assert pending == pending[..k] + pending[k..];
    SplicedAscends(pending, e, k);
  }

  lemma SplicedAscends(pending: seq<Entry>, e: Entry, k: nat)
    requires Ascending(pending) && k <= |pending|
    requires forall i :: 0 <= i < k ==> Before(pending[i].fileName, e.fileName)
    requires forall i :: k <= i < |pending| ==> Before(e.fileName, pending[i].fileName)
    ensures Ascending(pending[..k] + [e] + pending[k..])
  {
    hide Before;
    var after := pending[..k] + [e] + pending[k..];
    assert forall i :: 0 <= i < k ==> after[i] == pending[i];
    assert after[k] == e;
    assert forall i :: k < i < |after| ==> after[i] == pending[i - 1];
  }

  lemma {:induction false} RemoveAbsent(pending: seq<Entry>, fileName: string)
    requires Fresh(pending, fileName)
    ensures RemoveName(pending, fileName) == pending
  {
    if pending != [] {
      assert pending[0] in pending;
      RemoveAbsent(pending[1..], fileName);
    }
  }

  /** In a listing without repeated names, unlinking the first file leaves the rest of the listing. */
  lemma RemoveFirst(pending: seq<Entry>)
    requires Ascending(pending) && pending != []
    ensures RemoveName(pending, pending[0].fileName) == pending[1..]
  {
    hide Before;
    forall e | e in pending[1..] ensures e.fileName != pending[0].fileName {
      var i :| 0 < i < |pending| && pending[i] == e;
      BeforeTotal(pending[0].fileName, pending[i].fileName);
    }
    RemoveAbsent(pending[1..], pending[0].fileName);
  }

  // ----- the directory behind the listing

  predicate IsLeast(m: string, names: set<string>) {
    m in names && forall n <- names :: n == m || Before(m, n)
  }

  lemma {:induction false} LeastExists(names: set<string>)
    requires names != {}
    ensures exists m :: IsLeast(m, names)
  {
    hide Before;
    var x :| x in names;
    if names == {x} {
      assert IsLeast(x, names);
    } else {
      LeastExists(names - {x});
      var m :| IsLeast(m, names - {x});
      BeforeTotal(x, m);
      if Before(x, m) {
        forall n | n in names ensures n == x || Before(x, n) {
          if n != x && n != m { BeforeTransitive(x, m, n); }
        }
        assert IsLeast(x, names);
      } else {
        assert IsLeast(m, names);
      }
    }
  }

  lemma LeastUnique(names: set<string>)
    ensures forall m, n :: IsLeast(m, names) && IsLeast(n, names) ==> m == n
  {
    hide Before;
    forall m, n | IsLeast(m, names) && IsLeast(n, names) ensures m == n {
      BeforeTotal(m, n);
    }
  }

  ghost predicate AscendingNames(names: seq<string>) {
    forall i, j :: 0 <= i < j < |names| ==> Before(names[i], names[j])
  }

  /** The names of a directory, sorted. */
  function SortedNames(names: set<string>): (r: seq<string>)
    ensures forall n :: n in r <==> n in names
    ensures |r| == |names|
    ensures AscendingNames(r)
  {
    if names == {} then [] else
      LeastExists(names);
      LeastUnique(names);
      var m :| IsLeast(m, names);
      var rest := SortedNames(names - {m});
      assert forall i :: 0 <= i < |rest| ==> rest[i] in names - {m};
      [m] + rest
  }

  /** Each file of the directory is filed under its own name. */
  ghost predicate Filed(files: map<string, Entry>) {
    forall n :: n in files ==> files[n].fileName == n
  }

  /** The directory read in name order. */
  function Listing(files: map<string, Entry>): (r: seq<Entry>)
    ensures |r| == |files|
  {
    var names := SortedNames(files.Keys);
    seq(|names|, i requires 0 <= i < |names| => files[names[i]])
  }

  lemma ListingFacts(files: map<string, Entry>)
    requires Filed(files)
    ensures Ascending(Listing(files))
    ensures forall e :: e in Listing(files) <==> e.fileName in files && files[e.fileName] == e
  {
    hide Before, SortedNames;
    var names, listing := SortedNames(files.Keys), Listing(files);
    forall e: Entry | e.fileName in files && files[e.fileName] == e ensures e in listing {
      assert e.fileName in names;
      var i :| 0 <= i < |names| && names[i] == e.fileName;
      assert listing[i] == e;
    }
    assert forall i :: 0 <= i < |names| ==> names[i] in names;
  }

  /** Only one listing is in order and has the given entries. */
  lemma {:induction false} AscendingUnique(a: seq<Entry>, b: seq<Entry>)
    requires Ascending(a) && Ascending(b) && forall e :: e in a <==> e in b
    ensures a == b
  {
    hide Before;
    assert b != [] ==> b[0] in a;
    if a != [] {
      assert a[0] in b && b[0] in a;
      BeforeTotal(a[0].fileName, b[0].fileName);
      assert a[0] == b[0];
      forall e ensures e in a[1..] <==> e in b[1..] {
        BeforeTotal(a[0].fileName, a[0].fileName);
        if e in a[1..] {
          var i :| 0 < i < |a| && a[i] == e;
          assert e in b && e != b[0];
        }
        if e in b[1..] {
          var i :| 0 < i < |b| && b[i] == e;
          assert e in a && e != a[0];
        }
      }
      AscendingUnique(a[1..], b[1..]);
    }
  }

  lemma {:induction false} InsertReplaces(pending: seq<Entry>, e: Entry)
    requires Ascending(pending)
    ensures Ascending(Insert(pending, e))
    ensures forall f :: f in Insert(pending, e) <==> f == e || (f in pending && f.fileName != e.fileName)
  {
    hide Before;
    if Fresh(pending, e.fileName) {
      InsertFacts(pending, e);
    } else if pending[0].fileName == e.fileName {
      assert Insert(pending, e) == [e] + pending[1..];
      forall f | f in pending[1..] ensures f.fileName != e.fileName {
        var i :| 0 < i < |pending| && pending[i] == f;
        BeforeTotal(pending[0].fileName, f.fileName);
      }
    } else {
      var i :| 0 < i < |pending| && pending[i].fileName == e.fileName;
      BeforeTotal(pending[0].fileName, e.fileName);
      InsertReplaces(pending[1..], e);
      var rest := Insert(pending[1..], e);
      forall f | f in rest ensures Before(pending[0].fileName, f.fileName) {
        if f != e {
          var k :| 0 < k < |pending| && pending[k] == f;
        }
      }
    }
  }

  lemma {:induction false} RemoveNameFacts(pending: seq<Entry>, fileName: string)
    requires Ascending(pending)
    ensures Ascending(RemoveName(pending, fileName))
    ensures forall f :: f in RemoveName(pending, fileName) <==> f in pending && f.fileName != fileName
  {
    hide Before;
    if pending != [] {
      RemoveNameFacts(pending[1..], fileName);
      var rest := RemoveName(pending[1..], fileName);
      forall f | f in rest ensures Before(pending[0].fileName, f.fileName) {
        var k :| 0 < k < |pending| && pending[k] == f;
      }
    }
  }

  /** Renaming a file into the directory, and unlinking one, do to the listing what Insert and RemoveName say. */
  lemma DirectoryChanges(files: map<string, Entry>, e: Entry)
    requires Filed(files)
    ensures Filed(files[e.fileName := e]) && Listing(files[e.fileName := e]) == Insert(Listing(files), e)
    ensures Filed(files - {e.fileName}) && Listing(files - {e.fileName}) == RemoveName(Listing(files), e.fileName)
  {
    hide Before, Listing, Insert, RemoveName, Ascending;
    ListingFacts(files);
    ListingFacts(files[e.fileName := e]);
    ListingFacts(files - {e.fileName});
    InsertReplaces(Listing(files), e);
    RemoveNameFacts(Listing(files), e.fileName);
    AscendingUnique(Listing(files[e.fileName := e]), Insert(Listing(files), e));
    AscendingUnique(Listing(files - {e.fileName}), RemoveName(Listing(files), e.fileName));
  }
}
