/**
 * Bringing a login bundle into every store of an agent, and taking it back when any step fails. Each step may
 * fail before or after it has written; the token identity of a bundle and the clock come from outside.
 */
module CodexAuth {
  import opened Options
  import opened Text
  import opened CodexStores

  datatype Bundle = Bundle(
    profileId: string,
    identityProfileId: string,
    identityEmail: Option<string>,
    identityAccountId: Option<string>,
    identityPlanType: Option<string>,
    idToken: string,
    accessToken: string,
    refreshToken: string,
    accountId: Option<string>,
    expiresAt: int,
    lastRefresh: Option<string>)

  /** How far the update of the database gets: it opens, makes its tables, and commits both rows at once. */
  datatype RuntimeFault = Committed | NotOpened | OnlyOpened | OnlyStoreTable | NotCommitted | NotClosed

  datatype Faults = Faults(
    snapshotFails: bool,
    stores: nat -> Fault,
    runtime: RuntimeFault,
    configReadFails: bool,
    config: Fault,
    sessionsReadFails: bool,
    sessions: Fault,
    cliReadFails: bool,
    cli: Fault,
    marker: Fault,
    statusFails: bool,
    restoreStops: Option<nat>)

  datatype Clock = Clock(now: int, later: int, stamp: string)

  /** The disk so far, and whether nothing has been thrown yet. */
  datatype Progress = Progress(disk: Disk, going: bool)

  datatype ApplyResult = Refused | Applied | RolledBack | RestoreFailed

  function CredentialOf(b: Bundle): Credential {
    Credential("oauth", "openai", b.accessToken, b.refreshToken, Some(b.expiresAt), b.identityEmail, b.identityAccountId, b.identityPlanType)
  }

  predicate Complete(b: Bundle) {
    Trim(b.accessToken) != "" && Trim(b.refreshToken) != ""
  }

  // ----- the steps

  function NextStore(file: File<AuthStore>, b: Bundle): AuthStore {
    var store := ReadStore(file);
    store.(profiles := ReplaceOpenAiProfiles(store.profiles, b.profileId, CredentialOf(b)))
  }

  function StoresStep(p: Progress, b: Bundle, faults: nat -> Fault, n: nat): Progress
    requires n <= |p.disk.stores|
    ensures |StoresStep(p, b, faults, n).disk.stores| == |p.disk.stores|
  {
    if n == 0 then p
    else
      var q := StoresStep(p, b, faults, n - 1);
      if !q.going then q
      else
        var file := q.disk.stores[n - 1];
        Progress(q.disk.(stores := q.disk.stores[n - 1 := Written(file, NextStore(file, b), faults(n - 1))]), faults(n - 1) == Fine)
  }

  function NextState(s: AuthState, id: string): AuthState {
    s.(order := s.order["openai" := [id]], lastGood := s.lastGood["openai" := id])
  }

  function RuntimeWritten(database: Option<Database>, b: Bundle, fault: RuntimeFault, now: int): Option<Database> {
    var base := if database.Some? then database.value else Database(None, None, "");
    match fault
    case NotOpened => database
    case OnlyOpened => Some(base)
    case OnlyStoreTable => Some(base.(store := Some(Ensured(base.store))))
    case NotCommitted => Some(base.(store := Some(Ensured(base.store)), state := Some(Ensured(base.state))))
    case _ =>
      var store := ReadRow(base.store, NEW_STORE);
      var next := store.(profiles := ReplaceOpenAiProfiles(store.profiles, b.profileId, CredentialOf(b)));
      var state := NextState(ReadRow(base.state, NEW_STATE), b.profileId);
      Some(base.(store := Some(Ensured(base.store)[PRIMARY := Row(Parsed(next), now)]),
                   state := Some(Ensured(base.state)[PRIMARY := Row(Parsed(state), now)])))
  }

  function RuntimeStep(p: Progress, b: Bundle, fault: RuntimeFault, now: int): Progress {
    if !p.going then p
    else Progress(p.disk.(database := RuntimeWritten(p.disk.database, b, fault, now)), fault == Committed)
  }

  function ConfigStep(p: Progress, b: Bundle, readFails: bool, fault: Fault): Progress {
    if !p.going then p
    else if readFails || !p.disk.config.Holds? then p.(going := false)
    else Progress(p.disk.(config := Written(p.disk.config, NextConfig(p.disk.config.value, b.profileId, b.identityEmail), fault)), fault == Fine)
  }

  function SessionsStep(p: Progress, b: Bundle, readFails: bool, fault: Fault): Progress {
    if !p.going || p.disk.sessions.Missing? then p
    else if readFails || p.disk.sessions.Unreadable? then p.(going := false)
    else if p.disk.sessions.value.NotAnObject? then p
    else
      var entries := p.disk.sessions.value.entries;
      if forall k :: k in entries ==> !Retargets(entries[k], b.profileId) then p
      else Progress(p.disk.(sessions := Written(p.disk.sessions, Sessions(RetargetedAll(entries, b.profileId)), fault)), fault == Fine)
  }

  function Present(s: Option<string>): Option<string> {
    if s.Some? && s.value != "" then s else None
  }

  function NextCli(c: CliAuth, b: Bundle, stamp: string): CliAuth {
    CliAuth(Some("chatgpt"), None, Some(Tokens(b.idToken, b.accessToken, b.refreshToken, Present(b.accountId))),
            if b.lastRefresh.Some? then b.lastRefresh else Some(stamp), c.rest)
  }

  function CliStep(p: Progress, b: Bundle, readFails: bool, fault: Fault, stamp: string): Progress {
    if !p.going then p
    else if p.disk.cli.Unreadable? || readFails then p.(going := false)
    else
      var current := if p.disk.cli.Holds? then p.disk.cli.value else NEW_CLI_AUTH;
      Progress(p.disk.(cli := Written(p.disk.cli, NextCli(current, b, stamp), fault)), fault == Fine)
  }

  function MarkerStep(p: Progress, marker: Option<Marker>, fault: Fault): Progress {
    if !p.going || marker.None? then p
    else Progress(p.disk.(marker := Written(p.disk.marker, marker.value, fault)), fault == Fine)
  }

  /** Everything that is written for a bundle, as far as it gets. */
  function Attempt(d: Disk, b: Bundle, marker: Option<Marker>, clock: Clock, f: Faults): Progress {
    var stores := StoresStep(Progress(d, Complete(b)), b, f.stores, |d.stores|);
    var runtime := RuntimeStep(stores, b, f.runtime, clock.now);
    var config := ConfigStep(runtime, b, f.configReadFails, f.config);
    var sessions := SessionsStep(config, b, f.sessionsReadFails, f.sessions);
    MarkerStep(CliStep(sessions, b, f.cliReadFails, f.cli, clock.stamp), marker, f.marker)
  }

  // ----- snapshots

  datatype Saved =
    | SavedConfig(config: File<Config>)
    | SavedStore(which: nat, store: File<AuthStore>)
    | SavedSessions(sessions: File<Sessions>)
    | SavedCli(cli: File<CliAuth>)
    | SavedMarker(marker: File<Marker>)

  function SavedStores(stores: seq<File<AuthStore>>): seq<Saved> {
    seq(|stores|, i requires 0 <= i < |stores| => SavedStore(i, stores[i]))
  }

  function SnapshotFiles(d: Disk, withMarker: bool): seq<Saved> {
    [SavedConfig(d.config)] + SavedStores(d.stores) + [SavedSessions(d.sessions), SavedCli(d.cli)] +
    if withMarker then [SavedMarker(d.marker)] else []
  }

  function PutBack(d: Disk, s: Saved): Disk {
    match s
    case SavedConfig(file) => d.(config := file)
    case SavedStore(i, file) => if i < |d.stores| then d.(stores := d.stores[i := file]) else d
    case SavedSessions(file) => d.(sessions := file)
    case SavedCli(file) => d.(cli := file)
    case SavedMarker(file) => d.(marker := file)
  }

  function PutBackAll(d: Disk, saved: seq<Saved>): Disk {
    if saved == [] then d else PutBack(PutBackAll(d, saved[..|saved| - 1]), saved[|saved| - 1])
  }

  datatype RuntimeSnapshot = RuntimeSnapshot(
    databaseExisted: bool,
    storeTableExisted: bool,
    stateTableExisted: bool,
    storeRow: Option<Row<AuthStore>>,
    stateRow: Option<Row<AuthState>>)

  function SnapshotRuntime(database: Option<Database>): RuntimeSnapshot {
    if database.None? then RuntimeSnapshot(false, false, false, None, None)
    else
      var db := database.value;
      RuntimeSnapshot(true, db.store.Some?, db.state.Some?, PrimaryRow(db.store), PrimaryRow(db.state))
  }

  function RestoredTable<T>(table: Option<map<string, Row<T>>>, existed: bool, row: Option<Row<T>>): Option<map<string, Row<T>>> {
    if !existed then None
    else Some(if row.Some? then Ensured(table)[PRIMARY := row.value] else Ensured(table) - {PRIMARY})
  }

  function RestoredRuntime(database: Option<Database>, s: RuntimeSnapshot): Option<Database> {
    if !s.databaseExisted || database.None? then None
    else
      var db := database.value;
      Some(db.(store := RestoredTable(db.store, s.storeTableExisted, s.storeRow),
               state := RestoredTable(db.state, s.stateTableExisted, s.stateRow)))
  }

  // ----- applying a bundle

  function Apply(d: Disk, b: Bundle, marker: Option<Marker>, clock: Clock, f: Faults): (Disk, ApplyResult) {
    if b.expiresAt <= clock.now || b.identityProfileId != b.profileId || f.snapshotFails then (d, Refused)
    else
      var p := Attempt(d, b, marker, clock, f);
      if p.going && Connected(p.disk, clock.later).Some? && !f.statusFails then (p.disk, Applied)
      else
        var saved := SnapshotFiles(d, marker.Some?);
        if f.restoreStops.Some? then
          (PutBackAll(p.disk, if f.restoreStops.value < |saved| then saved[..f.restoreStops.value] else saved), RestoreFailed)
        else
          var files := PutBackAll(p.disk, saved);
          (files.(database := RestoredRuntime(files.database, SnapshotRuntime(d.database))), RolledBack)
  }

  datatype SyncResult = UpToDate | SyncThrew | Synced(result: ApplyResult)

  /** The login and version the marker records, when the file holds them. */
  function Recorded(d: Disk): Option<Marker> {
    if d.marker.Holds? && d.marker.value.Marker? then Some(d.marker.value) else None
  }

  predicate Current(d: Disk, version: int, profileId: string, now: int) {
    && Recorded(d).Some? && Recorded(d).value.profileId == profileId && Recorded(d).value.bundleVersion >= version
    && Connected(d, now).Some? && Connected(d, now).value.id == profileId
  }

  function Sync(d: Disk, version: int, b: Bundle, clock: Clock, f: Faults): (Disk, SyncResult) {
    if d.marker.Unreadable? || d.cli.Unreadable? then (d, SyncThrew)
    else if Current(d, version, b.profileId, clock.now) then (d, UpToDate)
    else
      var r := Apply(d, b, Some(Marker(version, b.profileId, b.expiresAt, clock.stamp)), clock, f);
      (r.0, Synced(r.1))
  }

  // ----- the agent's stores, updated in place

  class AgentAuth {
    var config: File<Config>
    var stores: seq<File<AuthStore>>
    var sessions: File<Sessions>
    var cli: File<CliAuth>
    var marker: File<Marker>
    var database: Option<Database>

    ghost function Value(): Disk
      reads this
    {
      Disk(config, stores, sessions, cli, marker, database)
    }

    constructor (d: Disk)
      ensures Value() == d
    {
      config, stores, sessions, cli, marker, database := d.config, d.stores, d.sessions, d.cli, d.marker, d.database;
    }

    method PersistStores(b: Bundle, faults: nat -> Fault) returns (ok: bool)
      modifies this`stores
      ensures Progress(Value(), ok) == StoresStep(Progress(old(Value()), true), b, faults, |old(stores)|)
    {
      ok := true;
      for i := 0 to |stores|
        invariant ok && |stores| == |old(stores)|
        invariant Progress(Value(), true) == StoresStep(Progress(old(Value()), true), b, faults, i)
        invariant forall j | i <= j < |stores| :: stores[j] == old(stores)[j]
      {
        var next := NextStore(stores[i], b);
        stores := stores[i := Written(stores[i], next, faults(i))];
        if faults(i) != Fine {
          ok := false;
          StoresStopped(Progress(old(Value()), true), b, faults, i + 1, |stores|);
          return;
        }
      }
    }

    method UpdateCodexRuntimeAuthStore(b: Bundle, fault: RuntimeFault, now: int) returns (ok: bool)
      modifies this`database
      ensures Progress(Value(), ok) == RuntimeStep(Progress(old(Value()), true), b, fault, now)
    {
      ok := fault == Committed;
      if fault == NotOpened { return; }
      if database.None? {
        database := Some(Database(None, None, ""));
      }
      if fault == OnlyOpened { return; }
      database := Some(database.value.(store := Some(Ensured(database.value.store))));
      if fault == OnlyStoreTable { return; }
      database := Some(database.value.(state := Some(Ensured(database.value.state))));
      if fault == NotCommitted { return; }
      var store := ReadRow(database.value.store, NEW_STORE);
      var state := NextState(ReadRow(database.value.state, NEW_STATE), b.profileId);
      store := store.(profiles := ReplaceOpenAiProfiles(store.profiles, b.profileId, CredentialOf(b)));
      database := Some(database.value.(
        store := Some(database.value.store.value[PRIMARY := Row(Parsed(store), now)]),
        state := Some(database.value.state.value[PRIMARY := Row(Parsed(state), now)])));
    }

    method RetargetCodexSessionAuthProfiles(b: Bundle, readFails: bool, fault: Fault) returns (ok: bool)
      modifies this`sessions
      ensures Progress(Value(), ok) == SessionsStep(Progress(old(Value()), true), b, readFails, fault)
    {
      if sessions.Missing? { return true; }
      if readFails || sessions.Unreadable? { return false; }
      if sessions.value.NotAnObject? { return true; }
      var entries, changed := sessions.value.entries, false;
      var left := entries.Keys;
      while left != {}
        invariant left <= entries.Keys == sessions.value.entries.Keys
        invariant forall k | k in entries ::
          entries[k] == if k in left then sessions.value.entries[k] else Retargeted(sessions.value.entries[k], b.profileId)
        invariant changed <==> exists k :: k in entries && k !in left && Retargets(sessions.value.entries[k], b.profileId)
      {
        var k :| k in left;
        if Retargets(entries[k], b.profileId) {
          entries := entries[k := Retargeted(entries[k], b.profileId)];
          changed := true;
        }
        left := left - {k};
      }
      if !changed { return true; }
      assert entries == RetargetedAll(sessions.value.entries, b.profileId);
      sessions := Written(sessions, Sessions(entries), fault);
      return fault == Fine;
    }

    method PersistCodexCredentials(b: Bundle, clock: Clock, f: Faults) returns (ok: bool)
      modifies this
      ensures var before := old(Value());
              var stored := StoresStep(Progress(before, Complete(b)), b, f.stores, |before.stores|);
              Progress(Value(), ok) ==
                SessionsStep(ConfigStep(RuntimeStep(stored, b, f.runtime, clock.now), b, f.configReadFails, f.config),
                             b, f.sessionsReadFails, f.sessions)
    {
      if !Complete(b) {
        StoresStopped(Progress(Value(), false), b, f.stores, 0, |stores|);
        return false;
      }
      ok := PersistStores(b, f.stores);
      if !ok { return; }
      ok := UpdateCodexRuntimeAuthStore(b, f.runtime, clock.now);
      if !ok { return; }
      if f.configReadFails || !config.Holds? { return false; }
      config := Written(config, NextConfig(config.value, b.profileId, b.identityEmail), f.config);
      if f.config != Fine { return false; }
      ok := RetargetCodexSessionAuthProfiles(b, f.sessionsReadFails, f.sessions);
    }

    method WriteCodexCliChatGptAuth(b: Bundle, readFails: bool, fault: Fault, stamp: string) returns (ok: bool)
      modifies this`cli
      ensures Progress(Value(), ok) == CliStep(Progress(old(Value()), true), b, readFails, fault, stamp)
    {
      if cli.Unreadable? || readFails { return false; }
      var current := if cli.Holds? then cli.value else NEW_CLI_AUTH;
      cli := Written(cli, NextCli(current, b, stamp), fault);
      return fault == Fine;
    }

    method RestoreFileSnapshots(saved: seq<Saved>, count: nat)
      requires count <= |saved|
      modifies this
      ensures Value() == PutBackAll(old(Value()), saved[..count])
    {
      for i := 0 to count
        invariant Value() == PutBackAll(old(Value()), saved[..i])
      {
        match saved[i] {
          case SavedConfig(file) => config := file;
          case SavedStore(which, file) =>
            if which < |stores| {
              stores := stores[which := file];
            }
          case SavedSessions(file) => sessions := file;
          case SavedCli(file) => cli := file;
          case SavedMarker(file) => marker := file;
        }
        assert saved[..i + 1][..i] == saved[..i];
      }
    }

    method RestoreCodexRuntimeAuthStore(s: RuntimeSnapshot)
      modifies this`database
      ensures Value() == old(Value()).(database := RestoredRuntime(old(database), s))
    {
      if !s.databaseExisted || database.None? {
        database := None;
        return;
      }
      var db := database.value;
      if s.storeTableExisted {
        var table := Ensured(db.store);
        table := if s.storeRow.Some? then table[PRIMARY := s.storeRow.value] else table - {PRIMARY};
        db := db.(store := Some(table));
      } else {
        db := db.(store := None);
      }
      if s.stateTableExisted {
        var table := Ensured(db.state);
        table := if s.stateRow.Some? then table[PRIMARY := s.stateRow.value] else table - {PRIMARY};
        db := db.(state := Some(table));
      } else {
        db := db.(state := None);
      }
      database := Some(db);
    }

    method ApplyCodexAuthBundle(b: Bundle, syncState: Option<Marker>, clock: Clock, f: Faults) returns (result: ApplyResult)
      modifies this
      ensures (Value(), result) == Apply(old(Value()), b, syncState, clock, f)
    {
      hide StoresStep, RuntimeStep, ConfigStep, SessionsStep, CliStep, SnapshotFiles, PutBackAll, RestoredRuntime, Connected, SnapshotRuntime;
      if b.expiresAt <= clock.now || b.identityProfileId != b.profileId || f.snapshotFails {
        return Refused;
      }
      var before := Disk(config, stores, sessions, cli, marker, database);
      var runtimeSnapshot := SnapshotRuntime(before.database);
      var saved := SnapshotFiles(before, syncState.Some?);
      var ok := PersistCodexCredentials(b, clock, f);
      if ok {
        ok := WriteCodexCliChatGptAuth(b, f.cliReadFails, f.cli, clock.stamp);
      } else {
        CliStopped(Progress(Value(), false), b, f.cliReadFails, f.cli, clock.stamp);
      }
      if ok && syncState.Some? {
        marker := Written(marker, syncState.value, f.marker);
        ok := f.marker == Fine;
      }
      assert Progress(Value(), ok) == Attempt(before, b, syncState, clock, f);
      if ok {
        var connected := Connected(Disk(config, stores, sessions, cli, marker, database), clock.later);
        if connected.Some? && !f.statusFails {
          return Applied;
        }
      }
      if f.restoreStops.Some? {
        RestoreFileSnapshots(saved, if f.restoreStops.value < |saved| then f.restoreStops.value else |saved|);
        assert saved[..|saved|] == saved;
        return RestoreFailed;
      }
      RestoreFileSnapshots(saved, |saved|);
      assert saved[..|saved|] == saved;
      RestoreCodexRuntimeAuthStore(runtimeSnapshot);
      return RolledBack;
    }

    method SyncCodexAuthBundle(version: int, b: Bundle, clock: Clock, f: Faults) returns (result: SyncResult)
      modifies this
      ensures (Value(), result) == Sync(old(Value()), version, b, clock, f)
    {
      hide Apply, Connected;
      if marker.Unreadable? || cli.Unreadable? {
        return SyncThrew;
      }
      var connected := Connected(Disk(config, stores, sessions, cli, marker, database), clock.now);
      if marker.Holds? && marker.value.Marker? && marker.value.profileId == b.profileId && marker.value.bundleVersion >= version
         && connected.Some? && connected.value.id == marker.value.profileId {
        return UpToDate;
      }
      var applied := ApplyCodexAuthBundle(b, Some(Marker(version, b.profileId, b.expiresAt, clock.stamp)), clock, f);
      return Synced(applied);
    }
  }

  lemma {:induction false} StoresStopped(p: Progress, b: Bundle, faults: nat -> Fault, k: nat, n: nat)
    requires k <= n <= |p.disk.stores| && !StoresStep(p, b, faults, k).going
    ensures StoresStep(p, b, faults, n) == StoresStep(p, b, faults, k)
  {
    if k < n {
      StoresStopped(p, b, faults, k, n - 1);
    }
  }

  lemma CliStopped(p: Progress, b: Bundle, readFails: bool, fault: Fault, stamp: string)
    requires !p.going
    ensures CliStep(p, b, readFails, fault, stamp) == p
  {
  }
}
