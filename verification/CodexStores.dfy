/** The stores a Codex login lives in: files of JSON, and two tables of a database. */
module CodexStores {
  import opened Options
  import opened Text

  /** A file that is not there, one whose text does not parse to the expected shape, or one holding a value. */
  datatype File<T> = Missing | Unreadable(raw: string) | Holds(value: T)

  /** How a write that replaces a file ends; a failure may come before or after the replacement. */
  datatype Fault = Fine | FailsBefore | FailsAfter

  function Written<T>(file: File<T>, value: T, fault: Fault): File<T> {
    if fault == FailsBefore then file else Holds(value)
  }

  // ----- auth profiles

  datatype Credential =
    | Credential(kind: string, provider: string, access: string, refresh: string, expires: Option<int>,
                 email: Option<string>, accountId: Option<string>, planType: Option<string>)
    | NotARecord(raw: string)

  datatype Profile = Profile(id: string, credential: Credential)

  /** A store's profiles in the order in which the object lists its keys. */
  datatype AuthStore = AuthStore(version: int, profiles: seq<Profile>)

  const NEW_STORE := AuthStore(1, [])

  predicate IsOpenAiProvider(provider: string) {
    provider == "openai" || provider == "openai-codex"
  }

  predicate IsOpenAiCredential(c: Credential) {
    c.Credential? && c.kind == "oauth" && IsOpenAiProvider(c.provider)
  }

  function Retained(profiles: seq<Profile>): seq<Profile> {
    if profiles == [] then [] else
      Retained(profiles[..|profiles| - 1]) +
      if IsOpenAiCredential(profiles[|profiles| - 1].credential) then [] else [profiles[|profiles| - 1]]
  }

  function OpenAiProfiles(profiles: seq<Profile>): seq<Profile> {
    if profiles == [] then [] else
      OpenAiProfiles(profiles[..|profiles| - 1]) +
      if IsOpenAiCredential(profiles[|profiles| - 1].credential) then [profiles[|profiles| - 1]] else []
  }

  /** Setting a key: in place when the object has it, and at the end otherwise. */
  function SetKey(profiles: seq<Profile>, p: Profile): seq<Profile> {
    if profiles == [] then [p]
    else if profiles[0].id == p.id then [p] + profiles[1..]
    else [profiles[0]] + SetKey(profiles[1..], p)
  }

  function Spread(profiles: seq<Profile>, more: seq<Profile>): seq<Profile> {
    if more == [] then profiles else SetKey(Spread(profiles, more[..|more| - 1]), more[|more| - 1])
  }

  /** The new profile first, and every profile that is not an OpenAI login spread over it. */
  function ReplaceOpenAiProfiles(profiles: seq<Profile>, id: string, credential: Credential): seq<Profile> {
    Spread([Profile(id, credential)], Retained(profiles))
  }

  predicate HasId(profiles: seq<Profile>, id: string) {
    exists i :: 0 <= i < |profiles| && profiles[i].id == id
  }

  predicate DistinctIds(profiles: seq<Profile>) {
    forall i, j :: 0 <= i < j < |profiles| ==> profiles[i].id != profiles[j].id
  }

  // ----- configuration

  datatype ConfigProfile = ConfigProfile(provider: string, mode: string, email: Option<string>) | OddProfile(raw: string)

  /** The parts of the configuration a login touches, and the rest of it. */
  datatype Config = Config(
    profiles: map<string, ConfigProfile>,
    order: map<string, seq<string>>,
    modelRuntimes: map<string, string>,
    rest: string)

  predicate IsOpenAiLogin(p: ConfigProfile) {
    p.ConfigProfile? && IsOpenAiProvider(p.provider) && p.mode == "oauth"
  }

  const DEFAULT_MODEL := "openai/gpt-5.5"

  function NextConfig(c: Config, id: string, email: Option<string>): Config {
    c.(profiles := (map k | k in c.profiles && !IsOpenAiLogin(c.profiles[k]) :: c.profiles[k])[id := ConfigProfile("openai", "oauth", email)],
       order := c.order["openai" := [id]],
       modelRuntimes := c.modelRuntimes[DEFAULT_MODEL := "codex"])
  }

  // ----- sessions

  datatype Session =
    | Session(pin: Option<string>, pinSource: Option<string>, pinCompactionCount: Option<int>, compactionCount: Option<int>, rest: string)
    | OddSession(raw: string)

  datatype Sessions = NotAnObject(raw: string) | Sessions(entries: map<string, Session>)

  predicate IsOpenAiProfileId(id: string) {
    "openai:" <= id || "openai-codex:" <= id
  }

  predicate Retargets(s: Session, id: string) {
    s.Session? && s.pin.Some? && IsOpenAiProfileId(s.pin.value) && s.pin.value != id
  }

  function Retargeted(s: Session, id: string): Session {
    if Retargets(s, id) then
      s.(pin := Some(id), pinSource := Some("auto"),
         pinCompactionCount := Some(if s.compactionCount.Some? then s.compactionCount.value else 0))
    else s
  }

  function RetargetedAll(entries: map<string, Session>, id: string): map<string, Session> {
    map k | k in entries :: Retargeted(entries[k], id)
  }

  // ----- the command-line tool's login, and the sync marker

  datatype Tokens = Tokens(idToken: string, accessToken: string, refreshToken: string, accountId: Option<string>)

  datatype CliAuth = CliAuth(authMode: Option<string>, apiKey: Option<string>, tokens: Option<Tokens>, lastRefresh: Option<string>, rest: string)

  const NEW_CLI_AUTH := CliAuth(None, None, None, None, "")

  datatype Marker = Marker(bundleVersion: int, profileId: string, expiresAt: int, syncedAt: string) | OddMarker(raw: string)

  // ----- the database

  datatype Cell<T> = Garbled(raw: string) | Parsed(value: T)

  /** A row of the declared column types, one whose time is of another type, or one whose text is no string. */
  datatype Row<T> = Row(json: Cell<T>, updatedAt: int) | OddTime(json: Cell<T>, time: string) | OddText(raw: string)

  datatype AuthState = AuthState(version: int, order: map<string, seq<string>>, lastGood: map<string, string>)

  const NEW_STATE := AuthState(1, map[], map[])

  datatype Database = Database(
    store: Option<map<string, Row<AuthStore>>>,
    state: Option<map<string, Row<AuthState>>>,
    rest: string)

  const PRIMARY := "primary"

  /** The primary row as a snapshot sees it: only one of the declared types is taken. */
  function PrimaryRow<T>(table: Option<map<string, Row<T>>>): Option<Row<T>> {
    if table.Some? && PRIMARY in table.value && table.value[PRIMARY].Row? then Some(table.value[PRIMARY]) else None
  }

  predicate OddPrimary<T>(table: Option<map<string, Row<T>>>) {
    table.Some? && PRIMARY in table.value && !table.value[PRIMARY].Row?
  }

  /** The value in the primary row; its time is not looked at. */
  function ReadRow<T>(table: Option<map<string, Row<T>>>, otherwise: T): T {
    if table.Some? && PRIMARY in table.value && !table.value[PRIMARY].OddText? && table.value[PRIMARY].json.Parsed? then
      table.value[PRIMARY].json.value
    else otherwise
  }

  function Ensured<T>(table: Option<map<string, Row<T>>>): map<string, Row<T>> {
    if table.Some? then table.value else map[]
  }

  // ----- everything together

  datatype Disk = Disk(
    config: File<Config>,
    stores: seq<File<AuthStore>>,
    sessions: File<Sessions>,
    cli: File<CliAuth>,
    marker: File<Marker>,
    database: Option<Database>)

  function ReadStore(file: File<AuthStore>): AuthStore {
    if file.Holds? then file.value else NEW_STORE
  }

  function ReadRuntime(database: Option<Database>): AuthStore {
    if database.Some? then ReadRow(database.value.store, NEW_STORE) else NEW_STORE
  }

  // ----- what the stores say about the login

  function Merge(entries: seq<Profile>, more: seq<Profile>): seq<Profile> {
    if more == [] then entries
    else
      var before := Merge(entries, more[..|more| - 1]);
      if HasId(before, more[|more| - 1].id) then before else before + [more[|more| - 1]]
  }

  function MergeAll(entries: seq<Profile>, stores: seq<File<AuthStore>>): seq<Profile> {
    if stores == [] then entries
    else Merge(MergeAll(entries, stores[..|stores| - 1]), OpenAiProfiles(ReadStore(stores[|stores| - 1]).profiles))
  }

  /** The OpenAI logins over all stores, the runtime store's first; of those under one id the first counts. */
  function PersistedEntries(d: Disk): seq<Profile> {
    MergeAll(Merge([], OpenAiProfiles(ReadRuntime(d.database).profiles)), d.stores)
  }

  predicate IsLive(p: Profile, now: int) {
    p.credential.Credential? && (p.credential.expires.None? || p.credential.expires.value > now)
  }

  function FirstLive(entries: seq<Profile>, now: int): Option<Profile> {
    if entries == [] then None else if IsLive(entries[0], now) then Some(entries[0]) else FirstLive(entries[1..], now)
  }

  /** The profile the agent is connected with at that time, if it is connected. */
  function Connected(d: Disk, now: int): Option<Profile> {
    FirstLive(PersistedEntries(d), now)
  }

  // ----- facts

  lemma {:induction false} SetKeyNew(profiles: seq<Profile>, p: Profile)
    requires !HasId(profiles, p.id)
    ensures SetKey(profiles, p) == profiles + [p]
  {
    if profiles != [] {
      assert profiles[0].id != p.id;
      forall i | 0 <= i < |profiles[1..]| ensures profiles[1..][i].id != p.id {
        assert profiles[1..][i] == profiles[i + 1];
      }
      SetKeyNew(profiles[1..], p);
    }
  }

  lemma {:induction false} RetainedAre(profiles: seq<Profile>)
    ensures forall p :: p in Retained(profiles) <==> p in profiles && !IsOpenAiCredential(p.credential)
  {
    hide IsOpenAiCredential;
    if profiles != [] {
      var n := |profiles| - 1;
      RetainedAre(profiles[..n]);
      assert profiles == profiles[..n] + [profiles[n]];
    }
  }

  lemma {:induction false} RetainedDistinct(profiles: seq<Profile>)
    requires DistinctIds(profiles)
    ensures DistinctIds(Retained(profiles))
  {
    hide IsOpenAiCredential;
    if profiles != [] {
      var n := |profiles| - 1;
      RetainedDistinct(profiles[..n]);
      RetainedAre(profiles[..n]);
      var before := Retained(profiles[..n]);
      forall i | 0 <= i < |before| ensures before[i].id != profiles[n].id {
        assert before[i] in profiles[..n];
      }
    }
  }

  /** What the replacement comes to: the new login first, unless a retained profile takes its key over. */
  lemma {:induction false} SpreadOver(first: Profile, retained: seq<Profile>)
    requires DistinctIds(retained)
    ensures var s := Spread([first], retained);
            && s != []
            && (if HasId(retained, first.id)
                then s[0] in retained && s[0].id == first.id && (forall p :: p in s <==> p in retained)
                else s == [first] + retained)
            && DistinctIds(s) && s[0].id == first.id
  {
    if retained == [] {
      assert [first] + retained == [first];
    } else {
      var n := |retained| - 1;
      var front, last := retained[..n], retained[n];
      assert retained == front + [last];
      assert HasId(retained, first.id) <==> HasId(front, first.id) || last.id == first.id by {
        assert forall i :: 0 <= i < n ==> front[i] == retained[i];
      }
      SpreadOver(first, front);
      var before := Spread([first], front);
      if last.id == first.id {
        assert !HasId(front, first.id);
        assert before == [first] + front;
        assert before[1..] == front;
        assert SetKey(before, last) == [last] + front;
      } else {
        assert !HasId(before, last.id) by {
          forall i | 0 <= i < |before| ensures before[i].id != last.id {
            assert before[i] in before;
            if HasId(front, first.id) {
              assert before[i] in front;
            }
          }
        }
        SetKeyNew(before, last);
      }
    }
  }

  /**
   * After a replacement a store holds exactly one OpenAI login, the new one, and all other profiles as they
   * were; unless a profile of another kind already had that id. Then it keeps that one and holds no OpenAI
   * login at all.
   */
  lemma ReplacementHoldsOne(profiles: seq<Profile>, id: string, credential: Credential)
    requires DistinctIds(profiles) && IsOpenAiCredential(credential)
    ensures var s := ReplaceOpenAiProfiles(profiles, id, credential);
            && OpenAiProfiles(s) == (if HasId(Retained(profiles), id) then [] else [Profile(id, credential)])
            && (forall p :: p in Retained(s) <==> p in Retained(profiles))
            && DistinctIds(s)
  {
    hide Spread, IsOpenAiCredential;
    var retained := Retained(profiles);
    var first := Profile(id, credential);
    RetainedAre(profiles);
    RetainedDistinct(profiles);
    SpreadOver(first, retained);
    var s := Spread([first], retained);
    RetainedAre(s);
    if HasId(retained, id) {
      NoneOpenAi(s);
    } else {
      OpenAiConcat([first], retained);
      OpenAiOne(first);
      NoneOpenAi(retained);
    }
  }

  const API_KEY := Profile("openai:default", Credential("api_key", "openai", "key", "", None, None, None, None))
  const LOGIN := Credential("oauth", "openai", "access", "refresh", Some(1), None, None, None)

  /** Such a store: an API key under the login's id. It is kept, and the store holds no OpenAI login afterwards. */
  lemma TakenIdHoldsNone()
    ensures var s := ReplaceOpenAiProfiles([API_KEY], "openai:default", LOGIN);
            s == [API_KEY] && OpenAiProfiles(s) == []
  {
    assert [API_KEY][..0] == [];
    assert Retained([API_KEY]) == [API_KEY];
    assert Spread([Profile("openai:default", LOGIN)], []) == [Profile("openai:default", LOGIN)];
    NoneOpenAi([API_KEY]);
  }

  lemma {:induction false} NoneOpenAi(s: seq<Profile>)
    requires forall p :: p in s ==> !IsOpenAiCredential(p.credential)
    ensures OpenAiProfiles(s) == []
  {
    if s != [] {
      NoneOpenAi(s[..|s| - 1]);
    }
  }

  lemma OpenAiOne(p: Profile)
    requires IsOpenAiCredential(p.credential)
    ensures OpenAiProfiles([p]) == [p]
  {
    assert [p][..0] == [];
  }

  lemma {:induction false} OpenAiConcat(a: seq<Profile>, b: seq<Profile>)
    ensures OpenAiProfiles(a + b) == OpenAiProfiles(a) + OpenAiProfiles(b)
  {
    hide IsOpenAiCredential;
    if b == [] {
      assert a + b == a;
    } else {
      OpenAiConcat(a, b[..|b| - 1]);
      assert (a + b)[..|a + b| - 1] == a + b[..|b| - 1];
    }
  }
}
