/** What the stores agree on after a bundle has been applied, and what a run of syncs keeps. */
module CodexAgreement {
  import opened Options
  import opened Text
  import opened CodexStores
  import opened CodexAuth
  import opened CodexRollback

  /** The keys of a JSON object are distinct, in every store. */
  predicate WellFormed(d: Disk) {
    && (forall i :: 0 <= i < |d.stores| ==> DistinctIds(ReadStore(d.stores[i]).profiles))
    && DistinctIds(ReadRuntime(d.database).profiles)
  }

  /** The whole of what an applied bundle has written. */
  ghost predicate WrittenInFull(d: Disk, e: Disk, b: Bundle, marker: Option<Marker>, clock: Clock) {
    && |e.stores| == |d.stores|
    && (forall i :: 0 <= i < |d.stores| ==> e.stores[i] == Holds(NextStore(d.stores[i], b)))
    && e.database == RuntimeWritten(d.database, b, Committed, clock.now)
    && d.config.Holds? && e.config == Holds(NextConfig(d.config.value, b.profileId, b.identityEmail))
    && (d.sessions.Holds? && d.sessions.value.Sessions? ==>
          e.sessions == Holds(Sessions(RetargetedAll(d.sessions.value.entries, b.profileId))))
    && !d.sessions.Unreadable? && (d.sessions.Missing? || d.sessions.value.NotAnObject? ==> e.sessions == d.sessions)
    && !d.cli.Unreadable?
    && e.cli == Holds(NextCli(if d.cli.Holds? then d.cli.value else NEW_CLI_AUTH, b, clock.stamp))
    && e.marker == (if marker.Some? then Holds(marker.value) else d.marker)
  }

  lemma NothingToRetarget(entries: map<string, Session>, id: string)
    requires forall k :: k in entries ==> !Retargets(entries[k], id)
    ensures RetargetedAll(entries, id) == entries
  {
  }

  lemma AppliedInFull(d: Disk, b: Bundle, marker: Option<Marker>, clock: Clock, f: Faults)
    requires Attempt(d, b, marker, clock, f).going
    ensures WrittenInFull(d, Attempt(d, b, marker, clock, f).disk, b, marker, clock)
  {
    hide NextStore, RuntimeWritten, NextConfig, RetargetedAll, Retargets, NextCli, StoresStep, Complete;
    StoresKeepRest(Progress(d, Complete(b)), b, f.stores, |d.stores|);
    if d.sessions.Holds? && d.sessions.value.Sessions?
       && (forall k :: k in d.sessions.value.entries ==> !Retargets(d.sessions.value.entries[k], b.profileId)) {
      NothingToRetarget(d.sessions.value.entries, b.profileId);
    }
  }

  // ----- agreement

  /** The store holds one OpenAI login, the bundle's, and otherwise what it held; or the id was taken by another kind. */
  ghost predicate HoldsLogin(before: AuthStore, after: AuthStore, b: Bundle) {
    && OpenAiProfiles(after.profiles) ==
         (if HasId(Retained(before.profiles), b.profileId) then [] else [Profile(b.profileId, CredentialOf(b))])
    && (forall p :: p in Retained(after.profiles) <==> p in Retained(before.profiles))
    && DistinctIds(after.profiles) && after.version == before.version
  }

  ghost predicate ConfigAgrees(before: Config, after: Config, b: Bundle) {
    && (forall k :: k in after.profiles && IsOpenAiLogin(after.profiles[k]) <==> k == b.profileId)
    && (forall k :: k in before.profiles && !IsOpenAiLogin(before.profiles[k]) && k != b.profileId ==>
          k in after.profiles && after.profiles[k] == before.profiles[k])
    && (forall k :: k in after.profiles && k != b.profileId ==> k in before.profiles)
    && "openai" in after.order && after.order["openai"] == [b.profileId]
    && after.order - {"openai"} == before.order - {"openai"} && after.rest == before.rest
  }

  /** Every OpenAI pin names the bundle's profile; sessions without one are as they were. */
  ghost predicate SessionsAgree(before: map<string, Session>, after: map<string, Session>, b: Bundle) {
    && after.Keys == before.Keys
    && (forall k :: k in after && after[k].Session? && after[k].pin.Some? && IsOpenAiProfileId(after[k].pin.value) ==>
          after[k].pin.value == b.profileId)
    && (forall k :: k in before && !Retargets(before[k], b.profileId) ==> after[k] == before[k])
    && (forall k :: k in before && Retargets(before[k], b.profileId) ==>
          && after[k].Session? && after[k].pin == Some(b.profileId) && after[k].pinSource == Some("auto")
          && after[k].pinCompactionCount == (if before[k].compactionCount.Some? then before[k].compactionCount else Some(0))
          && after[k].compactionCount == before[k].compactionCount && after[k].rest == before[k].rest)
  }

  ghost predicate StateAgrees(d: Option<Database>, after: AuthState, b: Bundle) {
    && "openai" in after.order && after.order["openai"] == [b.profileId]
    && "openai" in after.lastGood && after.lastGood["openai"] == b.profileId
    && var before := if d.Some? then ReadRow(d.value.state, NEW_STATE) else NEW_STATE;
       after.order - {"openai"} == before.order - {"openai"} && after.lastGood - {"openai"} == before.lastGood - {"openai"}
  }

  lemma CredentialIsOpenAi(b: Bundle)
    ensures IsOpenAiCredential(CredentialOf(b))
  {
  }

  lemma ConfigWritten(c: Config, b: Bundle)
    ensures ConfigAgrees(c, NextConfig(c, b.profileId, b.identityEmail), b)
  {
  }

  lemma SessionsWritten(entries: map<string, Session>, b: Bundle)
    ensures SessionsAgree(entries, RetargetedAll(entries, b.profileId), b)
  {
    hide IsOpenAiProfileId;
  }

  lemma StoreWritten(file: File<AuthStore>, b: Bundle)
    requires DistinctIds(ReadStore(file).profiles)
    ensures HoldsLogin(ReadStore(file), NextStore(file, b), b)
  {
    hide ReplaceOpenAiProfiles, OpenAiProfiles, Retained, HasId, DistinctIds, CredentialOf;
    CredentialIsOpenAi(b);
    ReplacementHoldsOne(ReadStore(file).profiles, b.profileId, CredentialOf(b));
  }

  lemma RuntimeWrittenAgrees(database: Option<Database>, b: Bundle, now: int)
    requires DistinctIds(ReadRuntime(database).profiles)
    ensures var after := RuntimeWritten(database, b, Committed, now);
            && after.Some? && HoldsLogin(ReadRuntime(database), ReadRuntime(after), b) && !OddRows(after)
            && StateAgrees(database, ReadRow(after.value.state, NEW_STATE), b)
            && (database.Some? ==> after.value.rest == database.value.rest)
  {
    hide ReplaceOpenAiProfiles, OpenAiProfiles, Retained, HasId, DistinctIds, CredentialOf;
    CredentialIsOpenAi(b);
    ReplacementHoldsOne(ReadRuntime(database).profiles, b.profileId, CredentialOf(b));
  }

  /**
   * After a bundle has been applied all stores agree on it. In each store that had no profile of another kind
   * under its id, the bundle's login is the only OpenAI login; the order, in the configuration and in the
   * database, names it alone; every OpenAI pin of a session names it; and what is not OpenAI's is as it was.
   */
  lemma AppliedStoresAgree(d: Disk, b: Bundle, marker: Option<Marker>, clock: Clock, f: Faults)
    requires WellFormed(d) && Apply(d, b, marker, clock, f).1 == Applied
    ensures var e := Apply(d, b, marker, clock, f).0;
            && |e.stores| == |d.stores|
            && (forall i :: 0 <= i < |d.stores| ==> e.stores[i].Holds? && HoldsLogin(ReadStore(d.stores[i]), e.stores[i].value, b))
            && HoldsLogin(ReadRuntime(d.database), ReadRuntime(e.database), b)
            && e.database.Some? && StateAgrees(d.database, ReadRow(e.database.value.state, NEW_STATE), b)
            && d.config.Holds? && e.config.Holds? && ConfigAgrees(d.config.value, e.config.value, b)
            && (d.sessions.Holds? && d.sessions.value.Sessions? ==>
                  && e.sessions.Holds? && e.sessions.value.Sessions?
                  && SessionsAgree(d.sessions.value.entries, e.sessions.value.entries, b))
            && e.cli.Holds? && e.cli.value.authMode == Some("chatgpt") && e.cli.value.apiKey.None?
            && e.cli.value.tokens == Some(Tokens(b.idToken, b.accessToken, b.refreshToken, Present(b.accountId)))
            && e.marker == (if marker.Some? then Holds(marker.value) else d.marker)
            && WellFormed(e) && !OddRows(e.database)
  {
    hide Attempt, HoldsLogin, ConfigAgrees, SessionsAgree, StateAgrees, NextConfig, RetargetedAll, RuntimeWritten, NextStore,
         Connected, PutBackAll, RestoredRuntime, SnapshotFiles, SnapshotRuntime, DistinctIds, ReadRow, ReadStore, ReadRuntime, OddRows;
    var e := Apply(d, b, marker, clock, f).0;
    AppliedInFull(d, b, marker, clock, f);
    RuntimeWrittenAgrees(d.database, b, clock.now);
    ConfigWritten(d.config.value, b);
    if d.sessions.Holds? && d.sessions.value.Sessions? {
      SessionsWritten(d.sessions.value.entries, b);
    }
    forall i | 0 <= i < |d.stores|
      ensures e.stores[i].Holds? && HoldsLogin(ReadStore(d.stores[i]), e.stores[i].value, b)
      ensures DistinctIds(ReadStore(e.stores[i]).profiles)
    {
      StoreWritten(d.stores[i], b);
      ReadHeld(NextStore(d.stores[i], b));
      HoldsDistinct(ReadStore(d.stores[i]), NextStore(d.stores[i], b), b);
    }
    HoldsDistinct(ReadRuntime(d.database), ReadRuntime(e.database), b);
  }

  /** A login with the bundle's tokens and what its identity token says of whom it is for. */
  predicate IsBundlesLogin(p: Profile, b: Bundle) {
    && p.id == b.profileId && p.credential.Credential?
    && p.credential.kind == "oauth" && p.credential.provider == "openai"
    && p.credential.access == b.accessToken && p.credential.refresh == b.refreshToken
    && p.credential.expires == Some(b.expiresAt)
    && p.credential.email == b.identityEmail && p.credential.accountId == b.identityAccountId
    && p.credential.planType == b.identityPlanType
  }

  /** The only OpenAI login of a store; none where a profile of another kind had the id. */
  predicate OnlyBundlesLogin(before: AuthStore, after: AuthStore, b: Bundle) {
    if exists p :: p in before.profiles && p.id == b.profileId && !IsOpenAiCredential(p.credential) then
      forall p :: p in after.profiles ==> !IsOpenAiCredential(p.credential)
    else
      && (exists p :: p in after.profiles && IsBundlesLogin(p, b))
      && (forall p :: p in after.profiles && IsOpenAiCredential(p.credential) ==> IsBundlesLogin(p, b))
  }

  lemma IdsAreThere(profiles: seq<Profile>)
    ensures forall p :: p in profiles ==> HasId(profiles, p.id)
  {
    forall p | p in profiles ensures HasId(profiles, p.id) {
      var i :| 0 <= i < |profiles| && profiles[i] == p;
    }
  }

  lemma HeldSpelledOut(before: AuthStore, after: AuthStore, b: Bundle)
    requires HoldsLogin(before, after, b)
    ensures OnlyBundlesLogin(before, after, b)
  {
    hide IsOpenAiCredential, Retained, OpenAiProfiles, DistinctIds;
    RetainedAre(before.profiles);
    OpenAiAre(after.profiles);
    var retained := Retained(before.profiles);
    var login := Profile(b.profileId, CredentialOf(b));
    if HasId(retained, b.profileId) {
      var i :| 0 <= i < |retained| && retained[i].id == b.profileId;
      assert retained[i] in retained;
    } else {
      IdsAreThere(retained);
      assert login in OpenAiProfiles(after.profiles);
      assert IsBundlesLogin(login, b);
    }
  }

  /**
   What an applied bundle leaves, token by token. In each store and in the database the only OpenAI login has the bundle's
   access and refresh token, expires when it does, and is for whom its identity token says; the command-line login has the
   same two tokens and the identity token; the configuration lists the profile as an OpenAI login of that e-mail address.
   */
  lemma AppliedSpelledOut(d: Disk, b: Bundle, marker: Option<Marker>, clock: Clock, f: Faults)
    requires WellFormed(d) && Apply(d, b, marker, clock, f).1 == Applied
    ensures
      var e := Apply(d, b, marker, clock, f).0;
      && |e.stores| == |d.stores|
      && (forall i :: 0 <= i < |d.stores| ==> OnlyBundlesLogin(ReadStore(d.stores[i]), ReadStore(e.stores[i]), b))
      && OnlyBundlesLogin(ReadRuntime(d.database), ReadRuntime(e.database), b)
      && e.cli.Holds? && e.cli.value.tokens.Some?
      && e.cli.value.tokens.value.accessToken == b.accessToken && e.cli.value.tokens.value.refreshToken == b.refreshToken
      && e.cli.value.tokens.value.idToken == b.idToken
      && e.cli.value.lastRefresh == (if b.lastRefresh.Some? then b.lastRefresh else Some(clock.stamp))
      && d.config.Holds? && e.config.Holds? && b.profileId in e.config.value.profiles
      && e.config.value.profiles[b.profileId] == ConfigProfile("openai", "oauth", b.identityEmail)
      && DEFAULT_MODEL in e.config.value.modelRuntimes && e.config.value.modelRuntimes[DEFAULT_MODEL] == "codex"
      && e.config.value.modelRuntimes - {DEFAULT_MODEL} == d.config.value.modelRuntimes - {DEFAULT_MODEL}
  {
    hide Apply, HoldsLogin, ConfigAgrees, SessionsAgree, StateAgrees, OnlyBundlesLogin, DistinctIds, ReadRow, ReadStore, ReadRuntime, OddRows;
    var e := Apply(d, b, marker, clock, f).0;
    AppliedStoresAgree(d, b, marker, clock, f);
    RestSpelledOut(d, b, marker, clock, f);
    HeldSpelledOut(ReadRuntime(d.database), ReadRuntime(e.database), b);
    forall i | 0 <= i < |d.stores| ensures OnlyBundlesLogin(ReadStore(d.stores[i]), ReadStore(e.stores[i]), b) {
      ReadHeld(e.stores[i].value);
      HeldSpelledOut(ReadStore(d.stores[i]), e.stores[i].value, b);
    }
  }

  lemma RestSpelledOut(d: Disk, b: Bundle, marker: Option<Marker>, clock: Clock, f: Faults)
    requires Apply(d, b, marker, clock, f).1 == Applied
    ensures
      var e := Apply(d, b, marker, clock, f).0;
      && e.cli.Holds? && e.cli.value.lastRefresh == (if b.lastRefresh.Some? then b.lastRefresh else Some(clock.stamp))
      && d.config.Holds? && e.config.Holds? && b.profileId in e.config.value.profiles
      && e.config.value.profiles[b.profileId] == ConfigProfile("openai", "oauth", b.identityEmail)
      && DEFAULT_MODEL in e.config.value.modelRuntimes && e.config.value.modelRuntimes[DEFAULT_MODEL] == "codex"
      && e.config.value.modelRuntimes - {DEFAULT_MODEL} == d.config.value.modelRuntimes - {DEFAULT_MODEL}
  {
    hide Attempt, RetargetedAll, RuntimeWritten, NextStore, Connected, PutBackAll, RestoredRuntime, SnapshotFiles, SnapshotRuntime;
    AppliedInFull(d, b, marker, clock, f);
  }

  lemma ReadHeld(store: AuthStore)
    ensures ReadStore(Holds(store)) == store
  {
  }

  lemma HoldsDistinct(before: AuthStore, after: AuthStore, b: Bundle)
    requires HoldsLogin(before, after, b)
    ensures DistinctIds(after.profiles)
  {
  }

  // ----- being connected

  /** Every store holds p as its only OpenAI login, with the same credential. */
  predicate Agreed(d: Disk, p: Profile) {
    && WellFormed(d) && !OddRows(d.database)
    && OpenAiProfiles(ReadRuntime(d.database).profiles) == [p]
    && forall i :: 0 <= i < |d.stores| ==> OpenAiProfiles(ReadStore(d.stores[i]).profiles) == [p]
  }

  lemma MergeSame(p: Profile)
    ensures Merge([], [p]) == [p] && Merge([p], [p]) == [p]
  {
    assert [p][..0] == [];
    assert Merge([], [p][..0]) == [] && Merge([p], [p][..0]) == [p];
    assert [p][0].id == p.id;
  }

  lemma {:induction false} MergeAllSame(p: Profile, stores: seq<File<AuthStore>>)
    requires forall i :: 0 <= i < |stores| ==> OpenAiProfiles(ReadStore(stores[i]).profiles) == [p]
    ensures MergeAll([p], stores) == [p]
  {
    hide Merge, OpenAiProfiles;
    MergeSame(p);
    if stores != [] {
      MergeAllSame(p, stores[..|stores| - 1]);
    }
  }

  lemma FirstOfOne(p: Profile, now: int)
    ensures FirstLive([p], now) == if IsLive(p, now) then Some(p) else None
  {
    assert [p][1..] == [];
  }

  /** Stores that agree on a login are connected with it for exactly as long as it lives. */
  lemma AgreedIsConnected(d: Disk, p: Profile, now: int)
    requires Agreed(d, p)
    ensures PersistedEntries(d) == [p]
    ensures p.credential.Credential?
    ensures Connected(d, now) == if p.credential.expires.None? || now < p.credential.expires.value then Some(p) else None
  {
    hide Merge, OpenAiProfiles, ReadRuntime;
    OpenAiAre(ReadRuntime(d.database).profiles);
    assert p in [p];
    MergeSame(p);
    MergeAllSame(p, d.stores);
    FirstOfOne(p, now);
  }

  lemma {:induction false} OpenAiAre(profiles: seq<Profile>)
    ensures forall p :: p in OpenAiProfiles(profiles) <==> p in profiles && IsOpenAiCredential(p.credential)
  {
    hide IsOpenAiCredential;
    if profiles != [] {
      OpenAiAre(profiles[..|profiles| - 1]);
      assert profiles == profiles[..|profiles| - 1] + [profiles[|profiles| - 1]];
    }
  }

  lemma SameIdSame(profiles: seq<Profile>, p: Profile, q: Profile)
    requires DistinctIds(profiles) && p in profiles && q in profiles
    ensures p.id == q.id ==> p == q
  {
  }

  /** A store whose OpenAI login is p has no profile of another kind under that id. */
  lemma IdNotTaken(profiles: seq<Profile>, p: Profile)
    requires DistinctIds(profiles) && OpenAiProfiles(profiles) == [p]
    ensures !HasId(Retained(profiles), p.id)
  {
    hide IsOpenAiCredential, Retained, OpenAiProfiles;
    OpenAiAre(profiles);
    RetainedAre(profiles);
    assert p in [p];
    forall i | 0 <= i < |Retained(profiles)| ensures Retained(profiles)[i].id != p.id {
      assert Retained(profiles)[i] in profiles;
      SameIdSame(profiles, Retained(profiles)[i], p);
    }
  }

  lemma AppliedAgain(d: Disk, p: Profile, b: Bundle, marker: Option<Marker>, clock: Clock, f: Faults)
    requires Agreed(d, p) && p.id == b.profileId && Apply(d, b, marker, clock, f).1 == Applied
    ensures Agreed(Apply(d, b, marker, clock, f).0, Profile(b.profileId, CredentialOf(b)))
  {
    hide Apply, ConfigAgrees, SessionsAgree, StateAgrees, DistinctIds, OpenAiProfiles, Retained, ReadRuntime, ReadStore, CredentialOf, OddRows, HasId;
    AppliedStoresAgree(d, b, marker, clock, f);
    IdNotTaken(ReadRuntime(d.database).profiles, p);
    var e := Apply(d, b, marker, clock, f).0;
    forall i | 0 <= i < |e.stores| ensures OpenAiProfiles(ReadStore(e.stores[i]).profiles) == [Profile(b.profileId, CredentialOf(b))] {
      IdNotTaken(ReadStore(d.stores[i]).profiles, p);
      ReadHeld(e.stores[i].value);
    }
  }

  /** The first bundle a clean agent applies brings the stores to agree on it. */
  lemma CleanApplyAgrees(d: Disk, b: Bundle, marker: Option<Marker>, clock: Clock, f: Faults)
    requires WellFormed(d) && Apply(d, b, marker, clock, f).1 == Applied
    requires !HasId(Retained(ReadRuntime(d.database).profiles), b.profileId)
    requires forall i :: 0 <= i < |d.stores| ==> !HasId(Retained(ReadStore(d.stores[i]).profiles), b.profileId)
    ensures Agreed(Apply(d, b, marker, clock, f).0, Profile(b.profileId, CredentialOf(b)))
  {
    hide Apply, ConfigAgrees, SessionsAgree, StateAgrees, DistinctIds, OpenAiProfiles, Retained, ReadRuntime, ReadStore, CredentialOf, OddRows, HasId;
    AppliedStoresAgree(d, b, marker, clock, f);
    var e := Apply(d, b, marker, clock, f).0;
    forall i | 0 <= i < |e.stores| ensures OpenAiProfiles(ReadStore(e.stores[i]).profiles) == [Profile(b.profileId, CredentialOf(b))] {
      ReadHeld(e.stores[i].value);
    }
  }

  // ----- syncs

  datatype SyncCall = SyncCall(version: int, bundle: Bundle, clock: Clock, faults: Faults)

  function RunSyncs(d: Disk, calls: seq<SyncCall>): Disk {
    if calls == [] then d
    else
      var c := calls[|calls| - 1];
      Sync(RunSyncs(d, calls[..|calls| - 1]), c.version, c.bundle, c.clock, c.faults).0
  }

  /** Each sync is for the profile, and finds its login live. */
  predicate LiveRun(d: Disk, calls: seq<SyncCall>, profileId: string) {
    forall k :: 0 <= k < |calls| ==> LiveCall(RunSyncs(d, calls[..k]), calls[k], profileId)
  }

  predicate LiveCall(d: Disk, c: SyncCall, profileId: string) {
    c.bundle.profileId == profileId && Connected(d, c.clock.now).Some? && Connected(d, c.clock.now).value.id == profileId
  }

  lemma {:induction false} PutBackMarker(e: Disk, d: Disk, saved: seq<Saved>)
    requires forall i :: 0 <= i < |saved| && saved[i].SavedMarker? ==> saved[i].marker == d.marker
    ensures PutBackAll(e, saved).marker == e.marker || PutBackAll(e, saved).marker == d.marker
  {
    if saved != [] {
      PutBackMarker(e, d, saved[..|saved| - 1]);
    }
  }

  lemma AttemptMarker(d: Disk, b: Bundle, marker: Option<Marker>, clock: Clock, f: Faults)
    ensures var e := Attempt(d, b, marker, clock, f).disk;
            e.marker == d.marker || (marker.Some? && e.marker == Holds(marker.value))
  {
    hide NextStore, RuntimeWritten, NextConfig, RetargetedAll, Retargets, NextCli, StoresStep, Complete;
    StoresKeepRest(Progress(d, Complete(b)), b, f.stores, |d.stores|);
  }

  lemma SavedMarkers(d: Disk, withMarker: bool)
    ensures forall i :: 0 <= i < |SnapshotFiles(d, withMarker)| && SnapshotFiles(d, withMarker)[i].SavedMarker? ==>
              SnapshotFiles(d, withMarker)[i].marker == d.marker
  {
  }

  /** However an apply ends, the marker is the one from before or the new one. */
  lemma MarkerOldOrNew(d: Disk, b: Bundle, marker: Marker, clock: Clock, f: Faults)
    ensures var e := Apply(d, b, Some(marker), clock, f).0;
            e.marker == d.marker || e.marker == Holds(marker)
  {
    hide Attempt, PutBackAll, SnapshotFiles, Connected, RestoredRuntime, SnapshotRuntime;
    var e := Attempt(d, b, Some(marker), clock, f).disk;
    var saved := SnapshotFiles(d, true);
    AttemptMarker(d, b, Some(marker), clock, f);
    SavedMarkers(d, true);
    PutBackMarker(e, d, saved);
    if f.restoreStops.Some? && f.restoreStops.value < |saved| {
      PutBackMarker(e, d, saved[..f.restoreStops.value]);
    }
  }

  /** One sync while the login lives: an old version changes nothing, and the recorded version never goes down. */
  lemma SyncKeepsVersion(d: Disk, c: SyncCall, profileId: string)
    requires LiveCall(d, c, profileId) && Recorded(d).Some? && Recorded(d).value.profileId == profileId
    ensures var e := Sync(d, c.version, c.bundle, c.clock, c.faults).0;
            && (c.version <= Recorded(d).value.bundleVersion ==> e == d)
            && Recorded(e).Some? && Recorded(e).value.profileId == profileId
            && Recorded(e).value.bundleVersion >= Recorded(d).value.bundleVersion
    ensures Sync(d, c.version, c.bundle, c.clock, c.faults).1 == Synced(Applied) ==>
              Recorded(Sync(d, c.version, c.bundle, c.clock, c.faults).0).value.bundleVersion == c.version
  {
    hide Connected, Attempt, PutBackAll, SnapshotFiles, RestoredRuntime, SnapshotRuntime;
    var marker := Marker(c.version, c.bundle.profileId, c.bundle.expiresAt, c.clock.stamp);
    MarkerOldOrNew(d, c.bundle, marker, c.clock, c.faults);
    if Sync(d, c.version, c.bundle, c.clock, c.faults).1 == Synced(Applied) {
      AppliedInFull(d, c.bundle, Some(marker), c.clock, c.faults);
    }
  }

  /**
   * Over any run of syncs for one profile that find its login live, failures at any step and failing restores
   * included: the recorded version never goes down, and a sync of a version not above it changes nothing.
   */
  lemma {:induction false} VersionsNeverDecrease(d: Disk, calls: seq<SyncCall>, profileId: string, k: nat)
    requires k <= |calls| && LiveRun(d, calls, profileId) && Recorded(d).Some? && Recorded(d).value.profileId == profileId
    ensures var before, after := RunSyncs(d, calls[..k]), RunSyncs(d, calls);
            && Recorded(before).Some? && Recorded(after).Some? && Recorded(after).value.profileId == profileId
            && Recorded(before).value.bundleVersion <= Recorded(after).value.bundleVersion
            && (k < |calls| && calls[k].version <= Recorded(before).value.bundleVersion ==> RunSyncs(d, calls[..k + 1]) == before)
  {
    hide Sync, LiveCall, Recorded;
    var n := |calls|;
    if n == 0 {
      assert calls[..k] == calls;
    } else {
      var front := calls[..n - 1];
      assert forall i :: 0 <= i < n - 1 ==> front[..i] == calls[..i] && front[i] == calls[i];
      VersionsNeverDecrease(d, front, profileId, if k < n then k else n - 1);
      SyncKeepsVersion(RunSyncs(d, front), calls[n - 1], profileId);
      if k < n {
        assert front[..k] == calls[..k];
        if k < n - 1 {
          assert front[..k + 1] == calls[..k + 1];
        } else {
          assert calls[..k + 1] == calls;
        }
      } else {
        assert calls[..k] == calls;
      }
    }
  }

  /** A sync that does not fail to restore keeps the stores in agreement, on the old login or on the new one. */
  lemma SyncKeepsAgreement(d: Disk, c: SyncCall, p: Profile)
    requires Agreed(d, p) && p.id == c.bundle.profileId
    requires Sync(d, c.version, c.bundle, c.clock, c.faults).1 != Synced(RestoreFailed)
    ensures var e := Sync(d, c.version, c.bundle, c.clock, c.faults).0;
            e == d || Agreed(e, Profile(p.id, CredentialOf(c.bundle)))
  {
    hide Apply, Agreed, Connected, CredentialOf;
    var marker := Some(Marker(c.version, c.bundle.profileId, c.bundle.expiresAt, c.clock.stamp));
    RollbackRestoresEverything(d, c.bundle, marker, c.clock, c.faults);
    NoOddRows(d, p);
    if Apply(d, c.bundle, marker, c.clock, c.faults).1 == Applied {
      AppliedAgain(d, p, c.bundle, marker, c.clock, c.faults);
    }
  }

  /** Written in full over stores that agree, a bundle for their profile brings them to agree on its login. */
  lemma WrittenAgrees(d: Disk, p: Profile, b: Bundle, marker: Option<Marker>, clock: Clock, e: Disk)
    requires Agreed(d, p) && p.id == b.profileId && WrittenInFull(d, e, b, marker, clock)
    ensures Agreed(e, Profile(b.profileId, CredentialOf(b)))
  {
    hide DistinctIds, OpenAiProfiles, Retained, ReadRuntime, ReadStore, CredentialOf, OddRows, HasId, NextStore, RuntimeWritten, NextConfig,
         RetargetedAll, NextCli, StateAgrees;
    var login := Profile(b.profileId, CredentialOf(b));
    IdNotTaken(ReadRuntime(d.database).profiles, p);
    RuntimeWrittenAgrees(d.database, b, clock.now);
    HoldsDistinct(ReadRuntime(d.database), ReadRuntime(e.database), b);
    forall i | 0 <= i < |e.stores|
      ensures OpenAiProfiles(ReadStore(e.stores[i]).profiles) == [login] && DistinctIds(ReadStore(e.stores[i]).profiles)
    {
      IdNotTaken(ReadStore(d.stores[i]).profiles, p);
      StoreWritten(d.stores[i], b);
      ReadHeld(NextStore(d.stores[i], b));
      HoldsDistinct(ReadStore(d.stores[i]), NextStore(d.stores[i], b), b);
    }
  }

  // ----- when a bundle is applied

  /** No step fails. */
  predicate NoFaults(f: Faults, stores: nat) {
    && !f.snapshotFails && (forall i: nat :: i < stores ==> f.stores(i) == Fine) && f.runtime == Committed
    && !f.configReadFails && f.config == Fine && !f.sessionsReadFails && f.sessions == Fine
    && !f.cliReadFails && f.cli == Fine && f.marker == Fine && !f.statusFails
  }

  /** The files that are read before they are written hold what they should. */
  predicate IsReadable(d: Disk) {
    d.config.Holds? && !d.sessions.Unreadable? && !d.cli.Unreadable?
  }

  /** The bundle may be tried: it lives, and its tokens are for the profile it names. */
  predicate IsAdmissible(b: Bundle, now: int) {
    now < b.expiresAt && b.identityProfileId == b.profileId
  }

  lemma AllStoresWritten(d: Disk, b: Bundle, f: Faults)
    requires Complete(b) && forall i: nat :: i < |d.stores| ==> f.stores(i) == Fine
    ensures StoresStep(Progress(d, Complete(b)), b, f.stores, |d.stores|).going
  {
    hide Complete;
    StoresKeepRest(Progress(d, Complete(b)), b, f.stores, |d.stores|);
  }

  lemma NothingStops(d: Disk, b: Bundle, marker: Option<Marker>, clock: Clock, f: Faults)
    requires NoFaults(f, |d.stores|)
    ensures Attempt(d, b, marker, clock, f).going <==> Complete(b) && IsReadable(d)
  {
    hide NextStore, RuntimeWritten, NextConfig, RetargetedAll, Retargets, NextCli, StoresStep, Complete;
    StoresKeepRest(Progress(d, Complete(b)), b, f.stores, |d.stores|);
  }

  /** What an apply answers: refused before anything is done, and without faults applied exactly when it can be. */
  lemma ApplyAnswers(d: Disk, b: Bundle, marker: Option<Marker>, clock: Clock, f: Faults)
    ensures
      var r := Apply(d, b, marker, clock, f);
      && (r.1 == Refused <==> !IsAdmissible(b, clock.now) || f.snapshotFails)
      && (r.1 == RestoreFailed ==> f.restoreStops.Some?) && (r.1 == RolledBack ==> f.restoreStops.None?)
      && (NoFaults(f, |d.stores|) && IsAdmissible(b, clock.now) ==>
            (r.1 == Applied <==> Complete(b) && IsReadable(d) && Connected(Attempt(d, b, marker, clock, f).disk, clock.later).Some?))
  {
    hide Attempt, PutBackAll, SnapshotFiles, RestoredRuntime, SnapshotRuntime, Connected, Complete;
    if NoFaults(f, |d.stores|) {
      NothingStops(d, b, marker, clock, f);
    }
  }

  /**
   A newer bundle for the profile the stores agree on is applied, if it is admissible and complete, lives until the status is
   asked, and nothing fails: all stores then agree on its login, and the marker records its version, profile and expiry.
   */
  lemma NewerBundleIsApplied(d: Disk, c: SyncCall, p: Profile)
    requires Agreed(d, p) && p.id == c.bundle.profileId
    requires Recorded(d).Some? ==> Recorded(d).value.bundleVersion < c.version
    requires !d.marker.Unreadable? && IsReadable(d) && NoFaults(c.faults, |d.stores|)
    requires IsAdmissible(c.bundle, c.clock.now) && Complete(c.bundle) && c.clock.later < c.bundle.expiresAt
    ensures
      var (e, answer) := Sync(d, c.version, c.bundle, c.clock, c.faults);
      && answer == Synced(Applied) && Agreed(e, Profile(p.id, CredentialOf(c.bundle)))
      && Recorded(e) == Some(Marker(c.version, c.bundle.profileId, c.bundle.expiresAt, c.clock.stamp))
  {
    hide Apply, Attempt, Agreed, Connected, PutBackAll, SnapshotFiles, RestoredRuntime, SnapshotRuntime, WrittenInFull, Complete;
    var marker := Some(Marker(c.version, c.bundle.profileId, c.bundle.expiresAt, c.clock.stamp));
    var r := Apply(d, c.bundle, marker, c.clock, c.faults);
    ApplyAnswers(d, c.bundle, marker, c.clock, c.faults);
    NothingStops(d, c.bundle, marker, c.clock, c.faults);
    var full := Attempt(d, c.bundle, marker, c.clock, c.faults).disk;
    AppliedInFull(d, c.bundle, marker, c.clock, c.faults);
    WrittenAgrees(d, p, c.bundle, marker, c.clock, full);
    AgreedIsConnected(full, Profile(p.id, CredentialOf(c.bundle)), c.clock.later);
    AppliedIsAttempt(d, c.bundle, marker, c.clock, c.faults);
    MarkerWritten(d, full, c.bundle, marker, c.clock);
  }

  /**
   What a sync answers: it throws exactly when the marker or the command-line login cannot be read; is up to date exactly when
   the marker is for this profile with at least this version and the profile is the one the agent is connected with; and tries
   to apply the bundle otherwise. It leaves the disk alone unless it tries.
   */
  lemma SyncAnswers(d: Disk, c: SyncCall)
    ensures
      var (e, answer) := Sync(d, c.version, c.bundle, c.clock, c.faults);
      var connected := Connected(d, c.clock.now);
      && (answer == SyncThrew <==> d.marker.Unreadable? || d.cli.Unreadable?)
      && (answer == UpToDate <==>
            && !d.cli.Unreadable? && d.marker.Holds? && d.marker.value.Marker?
            && d.marker.value.profileId == c.bundle.profileId && d.marker.value.bundleVersion >= c.version
            && connected.Some? && connected.value.id == c.bundle.profileId)
      && (!answer.Synced? || answer.result == Refused ==> e == d)
  {
    hide Attempt, Connected, PutBackAll, SnapshotFiles, RestoredRuntime, SnapshotRuntime;
  }

  lemma AppliedIsAttempt(d: Disk, b: Bundle, marker: Option<Marker>, clock: Clock, f: Faults)
    ensures Apply(d, b, marker, clock, f).1 == Applied ==> Apply(d, b, marker, clock, f).0 == Attempt(d, b, marker, clock, f).disk
  {
    hide Attempt, PutBackAll, SnapshotFiles, RestoredRuntime, SnapshotRuntime, Connected;
  }

  lemma MarkerWritten(d: Disk, e: Disk, b: Bundle, marker: Option<Marker>, clock: Clock)
    requires WrittenInFull(d, e, b, marker, clock) && marker.Some? && marker.value.Marker?
    ensures Recorded(e) == marker
  {
    hide NextStore, RuntimeWritten, NextConfig, RetargetedAll, NextCli;
  }

  lemma NoOddRows(d: Disk, p: Profile)
    requires Agreed(d, p)
    ensures !OddRows(d.database)
  {
  }

  // ----- what is not OpenAI's

  /** A login that an OpenAI bundle takes the place of. */
  predicate IsReplaced(c: Credential) {
    c.Credential? && c.kind == "oauth" && (c.provider == "openai" || c.provider == "openai-codex")
  }

  /** Under other ids than the bundle's a store keeps its other profiles and nothing else. */
  ghost predicate KeepsOthers(before: AuthStore, after: AuthStore, id: string) {
    forall p: Profile :: p.id != id ==> (p in after.profiles <==> p in before.profiles && !IsReplaced(p.credential))
  }

  ghost predicate KeepsOtherEntries(before: Config, after: Config, id: string) {
    forall k :: k != id ==>
      && (k in after.profiles <==>
            && k in before.profiles
            && !(&& before.profiles[k].ConfigProfile? && before.profiles[k].mode == "oauth"
                 && (before.profiles[k].provider == "openai" || before.profiles[k].provider == "openai-codex")))
      && (k in after.profiles ==> after.profiles[k] == before.profiles[k])
  }

  predicate StartsWith(s: string, prefix: string) {
    |s| >= |prefix| && s[..|prefix|] == prefix
  }

  /** A pin that names an OpenAI profile comes to name the bundle's; any other session is as it was. */
  predicate PinsMove(before: map<string, Session>, after: map<string, Session>, id: string) {
    && after.Keys == before.Keys
    && forall k :: k in before ==>
         var s := before[k];
         if s.Session? && s.pin.Some? && (StartsWith(s.pin.value, "openai:") || StartsWith(s.pin.value, "openai-codex:")) then
           && after[k].Session? && after[k].pin == Some(id)
           && after[k].rest == s.rest && after[k].compactionCount == s.compactionCount
         else after[k] == s
  }

  predicate HasText(s: string) {
    exists i :: 0 <= i < |s| && !IsSpace(s[i])
  }

  lemma TrimLeavesText(s: string)
    ensures Trim(s) != "" <==> HasText(s)
  {
    hide IsSpace;
    var front, back := TrimSplits(s);
    if Trim(s) != "" {
      assert s[|front|] == Trim(s)[0];
    } else {
      assert s == front + back;
    }
  }

  /** A bundle is complete if and only if both tokens hold more than white space. */
  lemma CompleteSays(b: Bundle)
    ensures Complete(b) <==> HasText(b.accessToken) && HasText(b.refreshToken)
  {
    hide HasText, Trim;
    TrimLeavesText(b.accessToken);
    TrimLeavesText(b.refreshToken);
  }

  lemma HeldKeeps(before: AuthStore, after: AuthStore, b: Bundle)
    requires HoldsLogin(before, after, b)
    ensures KeepsOthers(before, after, b.profileId)
  {
    hide Retained, OpenAiProfiles, DistinctIds, HasId;
    RetainedAre(before.profiles);
    RetainedAre(after.profiles);
    OpenAiAre(after.profiles);
    forall p: Profile | p.id != b.profileId
      ensures p in after.profiles <==> p in before.profiles && !IsReplaced(p.credential)
    {
      assert p !in OpenAiProfiles(after.profiles);
      assert p in Retained(after.profiles) <==> p in Retained(before.profiles);
    }
  }

  lemma ConfigKeeps(c: Config, b: Bundle)
    ensures KeepsOtherEntries(c, NextConfig(c, b.profileId, b.identityEmail), b.profileId)
  {
  }

  lemma PinsMoved(entries: map<string, Session>, id: string)
    ensures PinsMove(entries, RetargetedAll(entries, id), id)
  {
  }

  /**
   What an applied bundle leaves as it was: under other ids, the profiles of other providers and kinds, in every store, in the
   database and in the configuration, and the sessions that are not pinned to an OpenAI profile.
   */
  lemma OthersAreKept(d: Disk, b: Bundle, marker: Option<Marker>, clock: Clock, f: Faults)
    requires WellFormed(d) && Apply(d, b, marker, clock, f).1 == Applied
    ensures
      var e := Apply(d, b, marker, clock, f).0;
      && HasText(b.accessToken) && HasText(b.refreshToken)
      && |e.stores| == |d.stores|
      && (forall i :: 0 <= i < |d.stores| ==> KeepsOthers(ReadStore(d.stores[i]), ReadStore(e.stores[i]), b.profileId))
      && KeepsOthers(ReadRuntime(d.database), ReadRuntime(e.database), b.profileId)
      && d.config.Holds? && e.config.Holds? && KeepsOtherEntries(d.config.value, e.config.value, b.profileId)
      && (d.sessions.Holds? && d.sessions.value.Sessions? ==>
            && e.sessions.Holds? && e.sessions.value.Sessions?
            && PinsMove(d.sessions.value.entries, e.sessions.value.entries, b.profileId))
      && e.cli.Holds? && e.cli.value.tokens.Some?
      && e.cli.value.tokens.value.accountId == (if b.accountId == Some("") then None else b.accountId)
  {
    hide Apply, Attempt, HoldsLogin, ConfigAgrees, SessionsAgree, StateAgrees, KeepsOthers, KeepsOtherEntries, PinsMove, HasText, Complete,
         NextConfig, RetargetedAll, RuntimeWritten, NextStore, NextCli, DistinctIds, ReadStore, ReadRuntime, OddRows, ReadRow;
    var e := Apply(d, b, marker, clock, f).0;
    AppliedStoresAgree(d, b, marker, clock, f);
    AppliedGoes(d, b, marker, clock, f);
    CompleteSays(b);
    HeldKeeps(ReadRuntime(d.database), ReadRuntime(e.database), b);
    ConfigKeeps(d.config.value, b);
    if d.sessions.Holds? && d.sessions.value.Sessions? {
      PinsMoved(d.sessions.value.entries, b.profileId);
    }
    forall i | 0 <= i < |d.stores| ensures KeepsOthers(ReadStore(d.stores[i]), ReadStore(e.stores[i]), b.profileId) {
      ReadHeld(e.stores[i].value);
      HeldKeeps(ReadStore(d.stores[i]), e.stores[i].value, b);
    }
  }

  lemma AppliedGoes(d: Disk, b: Bundle, marker: Option<Marker>, clock: Clock, f: Faults)
    requires Apply(d, b, marker, clock, f).1 == Applied
    ensures Complete(b) && WrittenInFull(d, Apply(d, b, marker, clock, f).0, b, marker, clock)
  {
    AppliedInFull(d, b, marker, clock, f);
    GoingIsComplete(d, b, marker, clock, f);
    AppliedIsAttempt(d, b, marker, clock, f);
    hide Attempt, WrittenInFull, Complete, PutBackAll, SnapshotFiles, RestoredRuntime, SnapshotRuntime, Connected;
  }

  lemma GoingIsComplete(d: Disk, b: Bundle, marker: Option<Marker>, clock: Clock, f: Faults)
    ensures Attempt(d, b, marker, clock, f).going ==> Complete(b)
  {
    hide NextStore, RuntimeWritten, NextConfig, RetargetedAll, Retargets, NextCli, Complete;
    if !Complete(b) {
      StoresStopped(Progress(d, false), b, f.stores, 0, |d.stores|);
    }
  }
}
