/** A bundle that fails to apply, at any step, leaves the agent as it was once the restore has gone through. */
module CodexRollback {
  import opened Options
  import opened Text
  import opened CodexStores
  import opened CodexAuth

  /** The table differs at most in its primary row; a table that was not there may be there now. */
  predicate OnlyPrimary<T(==)>(before: Option<map<string, Row<T>>>, after: Option<map<string, Row<T>>>) {
    before.Some? ==> after.Some? && after.value - {PRIMARY} == before.value - {PRIMARY}
  }

  predicate OnlyTables(before: Option<Database>, after: Option<Database>) {
    before.Some? ==>
      && after.Some? && after.value.rest == before.value.rest
      && OnlyPrimary(before.value.store, after.value.store) && OnlyPrimary(before.value.state, after.value.state)
  }

  /** What a partly applied bundle may have changed: only what a snapshot was taken of. */
  predicate Touched(d: Disk, e: Disk, withMarker: bool) {
    && |e.stores| == |d.stores|
    && (withMarker || e.marker == d.marker)
    && OnlyTables(d.database, e.database)
  }

  lemma {:induction false} StoresTouch(d: Disk, p: Progress, b: Bundle, faults: nat -> Fault, n: nat, withMarker: bool)
    requires n <= |p.disk.stores| && Touched(d, p.disk, withMarker)
    ensures Touched(d, StoresStep(p, b, faults, n).disk, withMarker)
  {
    hide OnlyTables, NextStore;
    if n > 0 {
      StoresTouch(d, p, b, faults, n - 1, withMarker);
    }
  }

  lemma RuntimeTouches(before: Option<Database>, database: Option<Database>, b: Bundle, fault: RuntimeFault, now: int)
    requires OnlyTables(before, database)
    ensures OnlyTables(before, RuntimeWritten(database, b, fault, now))
  {
    hide ReplaceOpenAiProfiles, NextState, ReadRow;
  }

  lemma StepsTouch(d: Disk, p: Progress, b: Bundle, marker: Option<Marker>, clock: Clock, f: Faults)
    requires Touched(d, p.disk, marker.Some?)
    ensures Touched(d, RuntimeStep(p, b, f.runtime, clock.now).disk, marker.Some?)
    ensures Touched(d, ConfigStep(p, b, f.configReadFails, f.config).disk, marker.Some?)
    ensures Touched(d, SessionsStep(p, b, f.sessionsReadFails, f.sessions).disk, marker.Some?)
    ensures Touched(d, CliStep(p, b, f.cliReadFails, f.cli, clock.stamp).disk, marker.Some?)
    ensures Touched(d, MarkerStep(p, marker, f.marker).disk, marker.Some?)
  {
    hide OnlyTables, RuntimeWritten, NextConfig, RetargetedAll, Retargets, NextCli;
    RuntimeTouches(d.database, p.disk.database, b, f.runtime, clock.now);
  }

  lemma AttemptTouches(d: Disk, b: Bundle, marker: Option<Marker>, clock: Clock, f: Faults)
    ensures Touched(d, Attempt(d, b, marker, clock, f).disk, marker.Some?)
  {
    hide Touched, StoresStep, RuntimeStep, ConfigStep, SessionsStep, CliStep, MarkerStep, Complete;
    var start := Progress(d, Complete(b));
    Untouched(d, marker.Some?);
    var stores := StoresStep(start, b, f.stores, |d.stores|);
    StoresTouch(d, start, b, f.stores, |d.stores|, marker.Some?);
    StepsTouch(d, stores, b, marker, clock, f);
    var runtime := RuntimeStep(stores, b, f.runtime, clock.now);
    StepsTouch(d, runtime, b, marker, clock, f);
    var config := ConfigStep(runtime, b, f.configReadFails, f.config);
    StepsTouch(d, config, b, marker, clock, f);
    var sessions := SessionsStep(config, b, f.sessionsReadFails, f.sessions);
    StepsTouch(d, sessions, b, marker, clock, f);
    StepsTouch(d, CliStep(sessions, b, f.cliReadFails, f.cli, clock.stamp), b, marker, clock, f);
  }

  lemma Untouched(d: Disk, withMarker: bool)
    ensures Touched(d, d, withMarker)
  {
    SameTables(d.database);
  }

  lemma SameTables(database: Option<Database>)
    ensures OnlyTables(database, database)
  {
  }

  lemma {:induction false} PutBackConcat(d: Disk, a: seq<Saved>, b: seq<Saved>)
    ensures PutBackAll(d, a + b) == PutBackAll(PutBackAll(d, a), b)
  {
    hide PutBack;
    if b == [] {
      assert a + b == a;
    } else {
      PutBackConcat(d, a, b[..|b| - 1]);
      assert (a + b)[..|a + b| - 1] == a + b[..|b| - 1];
    }
  }

  lemma PutBackOne(d: Disk, s: Saved)
    ensures PutBackAll(d, [s]) == PutBack(d, s)
  {
    assert [s][..0] == [];
  }

  lemma {:induction false} PutBackStores(e: Disk, stores: seq<File<AuthStore>>, n: nat)
    requires n <= |stores| == |e.stores|
    ensures PutBackAll(e, SavedStores(stores)[..n]) == e.(stores := stores[..n] + e.stores[n..])
  {
    var saved := SavedStores(stores);
    if n == 0 {
      assert saved[..0] == [];
      assert stores[..0] + e.stores[0..] == e.stores;
    } else {
      PutBackStores(e, stores, n - 1);
      assert saved[..n][..n - 1] == saved[..n - 1];
      var was := stores[..n - 1] + e.stores[n - 1..];
      assert was[n - 1 := stores[n - 1]] == stores[..n] + e.stores[n..];
    }
  }

  /** Putting every saved file back gives the files as they were. */
  lemma FilesRestored(d: Disk, e: Disk, withMarker: bool)
    requires Touched(d, e, withMarker)
    ensures PutBackAll(e, SnapshotFiles(d, withMarker)) == d.(database := e.database)
  {
    hide PutBackAll, SavedStores, OnlyTables;
    var stores := SavedStores(d.stores);
    var first, mid := [SavedConfig(d.config)], [SavedSessions(d.sessions), SavedCli(d.cli)];
    var last := if withMarker then [SavedMarker(d.marker)] else [];
    PutBackConcat(e, first + stores + mid, last);
    PutBackConcat(e, first + stores, mid);
    PutBackConcat(e, first, stores);
    PutBackOne(e, SavedConfig(d.config));
    var e1 := e.(config := d.config);
    assert |stores| == |d.stores| && stores[..|stores|] == stores by { SavedStoresLength(d.stores); }
    PutBackStores(e1, d.stores, |d.stores|);
    assert d.stores[..|d.stores|] + e1.stores[|d.stores|..] == d.stores;
    var e2 := e1.(stores := d.stores);
    assert PutBackAll(e, first + stores) == e2;
    PutBackConcat(e2, [SavedSessions(d.sessions)], [SavedCli(d.cli)]);
    assert mid == [SavedSessions(d.sessions)] + [SavedCli(d.cli)];
    PutBackOne(e2, SavedSessions(d.sessions));
    var e3 := e2.(sessions := d.sessions);
    PutBackOne(e3, SavedCli(d.cli));
    var e4 := e3.(cli := d.cli);
    if withMarker {
      PutBackOne(e4, SavedMarker(d.marker));
    } else {
      PutBackNone(e4);
    }
  }

  lemma SavedStoresLength(stores: seq<File<AuthStore>>)
    ensures |SavedStores(stores)| == |stores|
  {
  }

  lemma PutBackNone(e: Disk)
    ensures PutBackAll(e, []) == e
  {
  }

  /** Restoring a table gives it back exactly when its primary row, if it had one, was of the declared types. */
  lemma TableRestored<T>(before: Option<map<string, Row<T>>>, after: Option<map<string, Row<T>>>)
    requires OnlyPrimary(before, after)
    ensures RestoredTable(after, before.Some?, PrimaryRow(before)) == before <==> !OddPrimary(before)
  {
    if before.Some? {
      var t := RestoredTable(after, true, PrimaryRow(before)).value;
      assert forall k :: k != PRIMARY ==> (k in t <==> k in before.value - {PRIMARY});
      assert forall k :: k != PRIMARY && k in t ==> t[k] == (after.value - {PRIMARY})[k];
      if !OddPrimary(before) {
        assert t.Keys == before.value.Keys;
        assert t == before.value;
      }
    }
  }

  predicate OddRows(database: Option<Database>) {
    database.Some? && (OddPrimary(database.value.store) || OddPrimary(database.value.state))
  }

  lemma RuntimeRestored(before: Option<Database>, after: Option<Database>)
    requires OnlyTables(before, after)
    ensures RestoredRuntime(after, SnapshotRuntime(before)) == before <==> !OddRows(before)
  {
    hide RestoredTable, PrimaryRow, OddPrimary, OnlyPrimary;
    if before.Some? {
      TableRestored(before.value.store, after.value.store);
      TableRestored(before.value.state, after.value.state);
    }
  }

  /**
   * Whatever step fails, and whether it fails before or after it has written: once the restore has gone
   * through, every file and the whole database are as they were, missing files, tables and rows included.
   * The only thing that can differ is a primary row whose columns are not of the declared types.
   */
  lemma RollbackRestoresEverything(d: Disk, b: Bundle, marker: Option<Marker>, clock: Clock, f: Faults)
    ensures var r := Apply(d, b, marker, clock, f);
            && (r.1 == Refused ==> r.0 == d)
            && (r.1 == RolledBack ==> r.0 == d.(database := r.0.database) && (r.0 == d <==> !OddRows(d.database)))
  {
    hide Attempt, PutBackAll, SnapshotFiles, Touched, RestoredRuntime, SnapshotRuntime, OnlyTables, Connected, OddRows;
    var e := Attempt(d, b, marker, clock, f).disk;
    AttemptTouches(d, b, marker, clock, f);
    FilesRestored(d, e, marker.Some?);
    assert OnlyTables(d.database, e.database) by { TouchedTables(d, e, marker.Some?); }
    RuntimeRestored(d.database, e.database);
  }

  // ----- a row that is not given back

  const ODD_ROWS: map<string, Row<AuthStore>> := map[PRIMARY := OddTime(Parsed(NEW_STORE), "yesterday")]
  const ODD_DISK := Disk(Missing, [], Missing, Missing, Missing, Some(Database(Some(ODD_ROWS), None, "")))
  const BUNDLE := Bundle("openai:a", "openai:a", None, None, None, "id", "access", "refresh", None, 10, None)

  /** Every step could write; the configuration is not there to be read. */
  function AllFine(): Faults {
    Faults(false, (n: nat) => Fine, Committed, false, Fine, false, Fine, false, Fine, Fine, false, None)
  }

  /**
   * Such a rollback: the time of the primary row is a text. The missing configuration makes the apply fail, everything is
   * put back, and the row is gone.
   */
  lemma OddRowIsLost()
    ensures var r := Apply(ODD_DISK, BUNDLE, None, Clock(0, 0, "now"), AllFine());
            r.1 == RolledBack && r.0 == ODD_DISK.(database := Some(Database(Some(map[]), None, ""))) && r.0 != ODD_DISK
  {
    hide Attempt, PutBackAll, SnapshotFiles;
    var e := Attempt(ODD_DISK, BUNDLE, None, Clock(0, 0, "now"), AllFine());
    OddAttempt();
    FilesRestored(ODD_DISK, e.disk, false);
    assert ODD_ROWS != map[] by { assert PRIMARY in ODD_ROWS; }
  }

  lemma OddAttempt()
    ensures var e := Attempt(ODD_DISK, BUNDLE, None, Clock(0, 0, "now"), AllFine());
            && !e.going && Touched(ODD_DISK, e.disk, false)
            && e.disk.database.Some? && e.disk.database.value.store.Some? && e.disk.database.value.rest == ""
            && e.disk.database.value.store.value.Keys == {PRIMARY}
  {
    hide Touched, RuntimeWritten, Complete;
    AttemptTouches(ODD_DISK, BUNDLE, None, Clock(0, 0, "now"), AllFine());
    OddTables();
  }

  lemma OddTables()
    ensures var after := RuntimeWritten(ODD_DISK.database, BUNDLE, Committed, 0);
            && after.Some? && after.value.store.Some? && after.value.rest == "" && after.value.store.value.Keys == {PRIMARY}
  {
    hide ReplaceOpenAiProfiles, NextState, CredentialOf, ReadRow;
  }

  lemma TouchedTables(d: Disk, e: Disk, withMarker: bool)
    requires Touched(d, e, withMarker)
    ensures OnlyTables(d.database, e.database)
  {
  }

  lemma {:induction false} StoresKeepRest(p: Progress, b: Bundle, faults: nat -> Fault, n: nat)
    requires n <= |p.disk.stores|
    ensures var q := StoresStep(p, b, faults, n);
            && q.disk == p.disk.(stores := q.disk.stores)
            && (q.going <==> (p.going && forall i: nat :: i < n ==> faults(i) == Fine))
            && (q.going ==> forall i :: 0 <= i < |p.disk.stores| ==>
                  q.disk.stores[i] == if i < n then Holds(NextStore(p.disk.stores[i], b)) else p.disk.stores[i])
  {
    hide NextStore;
    if n > 0 {
      StoresKeepRest(p, b, faults, n - 1);
    }
  }
}
