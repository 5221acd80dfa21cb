/**
 Runs of the relay that exist. A process start that meets every assumption of the protocol; a run from it that opens a
 generation, stores, submits and removes an event, and replaces the generation; and a run that ends stranded.
 */
module LifecycleWitness {
  import opened Options
  import opened Text
  import opened Decimal
  import opened LifecycleContract
  import opened OpenClawAdapter
  import opened TransitionEncoder
  import opened Reconciliation
  import opened LifecycleOutbox
  import opened LifecyclePipeline
  import opened LifecycleProtocol
  import opened LifecycleRefinement
  import opened LifecycleRetry
  import opened LifecycleTending

  // ----- a start

  /** The length of the first text marks where it ends. */
  function SampleDigest(serverId: string, eventId: string): string {
    Digits(|serverId|) + "-" + (serverId + eventId)
  }

  function SampleId(k: nat): (id: string)
    ensures |id| == k + 1
  {
    seq(k + 1, i => 'a')
  }

  const FINE := Answer(FileAnswer.Done, Accepted, Granted("server", []), None, true, 0)

  function AllWell(n: nat): Answer {
    FINE
  }

  /** The fifth call, the save of the second generation, fails. */
  function SaveFails(n: nat): Answer {
    if n == 4 then FINE.(file := FailedBefore) else FINE
  }

  function SampleSetting(answers: nat -> Answer): Setting {
    Setting(Core(0, [], [], None, FRESH, 0), Env(answers, SampleId, SampleDigest, 10, false), None)
  }

  function SampleWorld(): World {
    World(Core(0, [], [], None, FRESH, 0), 0, None, false, false, None, 0, None, [])
  }

  lemma SampleDigestIsInjective()
    ensures Injective(SampleDigest)
  {
    forall s, e, t, f | SampleDigest(s, e) == SampleDigest(t, f) ensures s == t && e == f {
      FirstDashSplits(Digits(|s|), s + e, Digits(|t|), t + f);
      ValueOfDigits(|s|);
      ValueOfDigits(|t|);
      assert s == (s + e)[..|s|] && e == (s + e)[|s|..];
      assert t == (t + f)[..|t|] && f == (t + f)[|t|..];
    }
  }

  /** The assumptions of the protocol can be met, whatever the answers will be. */
  lemma SettingExists(answers: nat -> Answer)
    ensures ProperSetting(SampleSetting(answers)) && Initial(SampleSetting(answers), SampleWorld())
  {
    SampleDigestIsInjective();
    forall k: nat ensures Trimmed(SampleId(k)) {
      assert SampleId(k)[0] == 'a' && SampleId(k)[k] == 'a';
    }
    forall j: nat, k: nat | SampleId(j) == SampleId(k) ensures j == k {
      assert |SampleId(j)| == |SampleId(k)|;
    }
  }

  // ----- the first generation

  const FIRST := SourceState("server", "a", true, 0)
  const OPENING: seq<Action> := [Opened("a", None), Registered("a"), DrainEnded(0, false)]

  function Bootstrapped(): World {
    World(Core(0, [], OPENING, Some(FIRST), FRESH, 1), 3, Some(FIRST), true, true, None, 0, None, [])
  }

  const CONNECT: seq<Stimulus> := [ConnectionChange(true), ChainTurn]

  lemma {:induction false} RunMore(w: World, env: Env, stimuli: seq<Stimulus>, more: seq<Stimulus>)
    ensures Run(w, env, stimuli + more) == Run(Run(w, env, stimuli), env, more)
  {
    hide React;
    if more == [] {
      assert stimuli + more == stimuli;
    } else {
      RunMore(w, env, stimuli, more[..|more| - 1]);
      assert (stimuli + more)[..|stimuli + more| - 1] == stimuli + more[..|more| - 1];
    }
  }

  lemma RunTwo(w: World, env: Env, a: Stimulus, b: Stimulus)
    ensures Run(w, env, [a, b]) == React(React(w, env, a), env, b)
  {
    hide React;
    assert [a, b][..1] == [a] && [a][..0] == [];
    assert Run(w, env, []) == w && Run(w, env, [a]) == React(w, env, a);
  }

  lemma RunThree(w: World, env: Env, a: Stimulus, b: Stimulus, c: Stimulus)
    ensures Run(w, env, [a, b, c]) == React(React(React(w, env, a), env, b), env, c)
  {
    hide React;
    assert [a, b, c][..2] == [a, b];
    RunTwo(w, env, a, b);
  }

  lemma FirstGenerationOpens(answers: nat -> Answer)
    requires answers(0) == answers(1) == answers(2) == FINE
    ensures Run(SampleWorld(), SampleSetting(answers).env, CONNECT) == Bootstrapped()
  {
    var env := SampleSetting(answers).env;
    RunTwo(SampleWorld(), env, ConnectionChange(true), ChainTurn);
    var connected := React(SampleWorld(), env, ConnectionChange(true));
    assert connected == SampleWorld().(connected := true, queue := [ActivateOp(StartupOrReconnect)]);
    assert SampleId(0) == "a";
    var popped := connected.(queue := []);
    assert connected.queue[1..] == [];
    var called := Called(popped, env);
    var loaded := Load(called);
    assert loaded.core.current.None?;
    assert OpenGeneration(loaded, env, StartupOrReconnect).0 == Bootstrapped();
  }

  // ----- an event goes through

  const FRAME := Observed(ActiveRun(true, false), None, "session", "run", 0)

  lemma FrameEncodes() returns (encoder: Encoder, event: Event)
    ensures Encode(FRESH, PROVIDER, Observe(FRAME.signal), FrameContext(FIRST, FRAME)) == (encoder, Emitted(event))
    ensures event.generation == "a" && event.sequence == 1 && event.status == Running && event.runId == "run"
  {
    hide ParseEvent, Candidate, EventId, ScopeKey, ParseDiagnostics;
    var context := FrameContext(FIRST, FRAME);
    var o := Observe(FRAME.signal);
    DiagnosticsParse("active_run", "active", None);
    CandidateParses(FRESH, o.value, context);
    EmittedEvent(FRESH, PROVIDER, o, context);
    encoder := Encode(FRESH, PROVIDER, o, context).0;
    event := Encode(FRESH, PROVIDER, o, context).1.event;
  }

  /** A world that has just stored its first event drains it. */
  lemma OneDrains(w: World, e: Entry) returns (after: World)
    requires w.core.pending == [e] && w.core.clock == 0
    ensures Drain(w, SampleSetting(AllWell).env) == (after, Drained(1, 0, false, false))
    ensures after == w.(tick := w.tick + 2, core := after.core)
    ensures after.core == w.core.(pending := [], log := w.core.log + [Submitted(e, Accepted), Removed(e), DrainEnded(0, false)])
  {
    var env := SampleSetting(AllWell).env;
    assert [e][1..] == [] && RemoveName([e], e.fileName) == [];
    var submitted := Submit(w, env, e).0;
    var removed := Acknowledge(submitted, env, e).0;
    assert removed.core.pending == [] && removed.core.log == w.core.log + [Submitted(e, Accepted), Removed(e)];
    assert DrainLoop(w, env, [e], 0) == DrainLoop(removed, env, [], 1);
    after := EndDrain(removed, 1, false, false).0;
  }

  lemma EventGoesThrough() returns (e: Entry, after: World)
    ensures after == Run(Bootstrapped(), SampleSetting(AllWell).env, [GatewayEvent(Some(FRAME)), ChainTurn])
    ensures after.core.log == OPENING + [Stored(e), Submitted(e, Accepted), Removed(e), DrainEnded(0, false)]
    ensures after == Bootstrapped().(core := after.core, tick := 6)
    ensures after.core == Bootstrapped().core.(log := after.core.log, encoder := after.core.encoder)
    ensures e.event.generation == "a" && e.event.sequence == 1 && e.event.status == Running && e.event.runId == "run"
  {
    hide Encode, Observe, Drain, FileName;
    var env := SampleSetting(AllWell).env;
    var w := Bootstrapped();
    RunTwo(w, env, GatewayEvent(Some(FRAME)), ChainTurn);
    var queued := React(w, env, GatewayEvent(Some(FRAME)));
    assert queued.queue == [FrameOp(Some(FRAME))] && queued.queue[1..] == [];
    var encoder, event := FrameEncodes();
    e := MakeEntry(SampleDigest, 0, event);
    var encoded := SetEncoder(w, encoder);
    var stored := Enqueue(encoded, env, event).0;
    assert stored == encoded.(tick := 4, core := encoded.core.(pending := [e], log := OPENING + [Stored(e)]));
    after := OneDrains(stored, e);
    assert PublishFrame(w, env, FRAME) == (after, false);
    assert React(queued, env, ChainTurn) == after;
  }

  // ----- the generation is replaced

  lemma Reconnected(w: World, env: Env)
    requires w.connected && w.queue == []
    ensures React(React(w, env, ConnectionChange(false)), env, ConnectionChange(true)) == w.(queue := [ActivateOp(StartupOrReconnect)])
  {
  }

  lemma NothingDrains(w: World, env: Env)
    requires w.core.pending == []
    ensures Drain(w, env) == (Log(w, DrainEnded(0, false)), Drained(0, 0, false, false))
  {
  }

  /** With favourable answers a registered generation with nothing pending is replaced, registered and drained. */
  lemma NextOpens(w: World, trigger: Trigger)
    requires w.core.current == Some(FIRST) && w.core.pending == [] && w.core.drawn == 1 && w.core.clock == 0
    ensures
      var after := OpenGeneration(w, SampleSetting(AllWell).env, trigger).0;
      && after.core.log == w.core.log + [Opened("aa", Some("a")), Registered("aa"), DrainEnded(0, false)]
      && after.core.current == Some(SourceState("server", "aa", true, 0)) && after.core.clock == 0
  {
    hide Drain;
    var env := SampleSetting(AllWell).env;
    assert SampleId(1) == "aa";
    var state := SourceState("server", "aa", false, 0);
    var next := Log(SetCurrent(w.(core := w.core.(drawn := 2)), state), Opened("aa", Some("a")));
    var saved := Save(next, env, state).0;
    assert saved.core == next.core;
    var registered := RegisterCurrent(SetEncoder(saved, FRESH), env).0;
    assert registered.core.log == w.core.log + [Opened("aa", Some("a"))] + [Registered("aa")];
    NothingDrains(registered, env);
    assert w.core.log + [Opened("aa", Some("a"))] + [Registered("aa")] + [DrainEnded(0, false)]
        == w.core.log + [Opened("aa", Some("a")), Registered("aa"), DrainEnded(0, false)];
  }

  lemma GenerationIsReplaced(w: World) returns (after: World)
    requires w.connected && w.initialized && w.queue == [] && w.timer.None? && w.core.drawn == 1
    requires w.core.current == Some(FIRST) && w.core.pending == [] && w.core.clock == 0
    ensures after == Run(w, SampleSetting(AllWell).env, [ConnectionChange(false), ConnectionChange(true), ChainTurn])
    ensures after.core.log == w.core.log + [DrainEnded(0, false), Opened("aa", Some("a")), Registered("aa"), DrainEnded(0, false)]
    ensures after.core.current == Some(SourceState("server", "aa", true, 0)) && after.core.clock == 0
  {
    hide OpenGeneration, Run, Drain;
    var env := SampleSetting(AllWell).env;
    RunThree(w, env, ConnectionChange(false), ConnectionChange(true), ChainTurn);
    Reconnected(w, env);
    var queued := w.(queue := [ActivateOp(StartupOrReconnect)]);
    assert queued.queue[1..] == [];
    var called := Called(w, env);
    NothingDrains(called, env);
    var drained := Log(called, DrainEnded(0, false));
    NextOpens(drained, StartupOrReconnect);
    after := OpenGeneration(drained, env, StartupOrReconnect).0;
    assert React(queued, env, ChainTurn) == after;
    assert w.core.log + [DrainEnded(0, false)] + [Opened("aa", Some("a")), Registered("aa"), DrainEnded(0, false)]
        == w.core.log + [DrainEnded(0, false), Opened("aa", Some("a")), Registered("aa"), DrainEnded(0, false)];
  }

  /**
   From a proper start, with every answer favourable: the relay opens a generation, stores the event of a frame,
   submits and removes it, and after a reconnection replaces the generation by the next one.
   */
  lemma ARunReplacesAGeneration() returns (stimuli: seq<Stimulus>, e: Entry)
    ensures
      var t := SampleSetting(AllWell);
      var c := Run(SampleWorld(), t.env, stimuli).core;
      && ProperSetting(t) && Initial(t, SampleWorld()) && c.clock < TIME_LIMIT
      && c.log == OPENING + [Stored(e), Submitted(e, Accepted), Removed(e), DrainEnded(0, false)] +
                  [DrainEnded(0, false), Opened("aa", Some("a")), Registered("aa"), DrainEnded(0, false)]
      && c.current == Some(SourceState("server", "aa", true, 0))
  {
    hide Run, ProperSetting, React;
    var env := SampleSetting(AllWell).env;
    SettingExists(AllWell);
    FirstGenerationOpens(AllWell);
    var frame := [GatewayEvent(Some(FRAME)), ChainTurn];
    var again := [ConnectionChange(false), ConnectionChange(true), ChainTurn];
    var sent;
    e, sent := EventGoesThrough();
    var replaced := GenerationIsReplaced(sent);
    stimuli := CONNECT + frame + again;
    RunMore(SampleWorld(), env, CONNECT + frame, again);
    RunMore(SampleWorld(), env, CONNECT, frame);
    assert Run(SampleWorld(), env, stimuli) == replaced;
  }

  // ----- a stranded run

  lemma SecondGenerationIsLost() returns (after: World)
    ensures after == Run(Bootstrapped(), SampleSetting(SaveFails).env, [ConnectionChange(false), ConnectionChange(true), ChainTurn])
    ensures !Watched(after) && after.core.current == Some(SourceState("server", "aa", false, 0))
  {
    var env := SampleSetting(SaveFails).env;
    var w := Bootstrapped();
    RunThree(w, env, ConnectionChange(false), ConnectionChange(true), ChainTurn);
    Reconnected(w, env);
    var queued := w.(queue := [ActivateOp(StartupOrReconnect)]);
    assert queued.queue[1..] == [] && SampleId(1) == "aa";
    var called := Called(w, env);
    var drained := Drain(called, env).0;
    assert drained == called.(core := called.core.(log := OPENING + [DrainEnded(0, false)])) && drained.tick == 4;
    after := OpenGeneration(drained, env, StartupOrReconnect).0;
    assert React(queued, env, ChainTurn) == after;
  }

  /**
   From a proper start: after a reconnection the save of the next generation fails, and the relay, connected and not
   registered, has neither a retry armed nor an activation queued.
   */
  lemma ARunStrands() returns (stimuli: seq<Stimulus>)
    ensures
      var t := SampleSetting(SaveFails);
      && ProperSetting(t) && Initial(t, SampleWorld())
      && !Watched(Run(SampleWorld(), t.env, stimuli)) && !NeverStrands(SampleWorld(), t.env, stimuli)
  {
    hide Run, ProperSetting, React, Watched, NeverStrands;
    var t := SampleSetting(SaveFails);
    var again := [ConnectionChange(false), ConnectionChange(true), ChainTurn];
    SettingExists(SaveFails);
    FirstGenerationOpens(SaveFails);
    var stranded := SecondGenerationIsLost();
    stimuli := CONNECT + again;
    RunMore(SampleWorld(), t.env, CONNECT, again);
    WatchedExactly(t, SampleWorld(), stimuli);
    assert stimuli[..|stimuli|] == stimuli;
  }

  // ----- events left behind

  /** The fourth call, the store of the first event, writes the file and fails all the same. */
  function StoreFails(n: nat): Answer {
    if n == 3 then FINE.(file := FailedAfter) else FINE
  }

  lemma EventIsStored(w: World, encoder: Encoder, event: Event) returns (e: Entry)
    requires w == SetEncoder(Bootstrapped(), encoder)
    ensures Enqueue(w, SampleSetting(StoreFails).env, event) ==
              (w.(tick := 4, core := w.core.(pending := [e], log := OPENING + [Stored(e)])), true)
  {
    hide FileName;
    e := MakeEntry(SampleDigest, 0, event);
    assert Insert([], e) == [e];
  }

  /**
   From a proper start: storing the event of a frame fails after the file has been written. The event is pending, and the
   relay, connected, has neither a retry armed nor an activation queued.
   */
  lemma AFailingStoreLeavesItsEvent() returns (stimuli: seq<Stimulus>)
    ensures
      var t := SampleSetting(StoreFails);
      var w := Run(SampleWorld(), t.env, stimuli);
      && ProperSetting(t) && Initial(t, SampleWorld()) && !SampleWorld().connected
      && !Tended(w) && |w.core.pending| == 1 && !NeverLeavesUntended(SampleWorld(), t.env, stimuli)
  {
    hide Run, ProperSetting, Encode, Observe, Enqueue, NeverLeavesUntended, LeavesUntended;
    var t := SampleSetting(StoreFails);
    var w := Bootstrapped();
    SettingExists(StoreFails);
    FirstGenerationOpens(StoreFails);
    RunTwo(w, t.env, GatewayEvent(Some(FRAME)), ChainTurn);
    var queued := React(w, t.env, GatewayEvent(Some(FRAME)));
    assert queued.queue == [FrameOp(Some(FRAME))] && queued.queue[1..] == [];
    var encoder, event := FrameEncodes();
    var e := EventIsStored(SetEncoder(w, encoder), encoder, event);
    assert React(queued, t.env, ChainTurn) == Enqueue(SetEncoder(w, encoder), t.env, event).0;
    stimuli := CONNECT + [GatewayEvent(Some(FRAME)), ChainTurn];
    RunMore(SampleWorld(), t.env, CONNECT, [GatewayEvent(Some(FRAME)), ChainTurn]);
    TendedExactly(t, SampleWorld(), stimuli);
    assert stimuli[..|stimuli|] == stimuli;
  }

  const OLD := Event("lifecycle:old:1", "server", None, "openclaw", "session", "run", "old", 1, Running, 0, Live, None)

  function Leftover(): Entry {
    MakeEntry(SampleDigest, 0, OLD)
  }

  /** The backend grants the registration and then does not answer. */
  function GoesSilent(n: nat): Answer {
    if n >= 3 then FINE.(submit := NoAnswer) else FINE
  }

  function LeftoverSetting(): Setting {
    Setting(Core(0, [Leftover()], [], None, FRESH, 0), Env(GoesSilent, SampleId, SampleDigest, 10, false), None)
  }

  function LeftoverWorld(): World {
    World(Core(0, [Leftover()], [], None, FRESH, 0), 0, None, false, false, None, 0, None, [])
  }

  lemma LeftoverSettingIsProper()
    ensures ProperSetting(LeftoverSetting()) && Initial(LeftoverSetting(), LeftoverWorld())
  {
    hide FileName, Injective;
    SampleDigestIsInjective();
    forall k: nat ensures Trimmed(SampleId(k)) && SampleId(k) != "old" {
      assert SampleId(k)[0] == 'a' && SampleId(k)[k] == 'a' && "old"[0] == 'o';
    }
    forall j: nat, k: nat | SampleId(j) == SampleId(k) ensures j == k {
      assert |SampleId(j)| == |SampleId(k)|;
    }
  }

  /**
   From a proper start with an event left over and no state stored: the first generation is registered, its drain is not
   answered, and the relay, which cannot ask for the active runs, takes itself to have converged. Nothing throws, the
   event is pending, and no retry is armed.
   */
  lemma ConvergenceLeavesAnEvent()
    ensures
      var t := LeftoverSetting();
      var w := Run(LeftoverWorld(), t.env, CONNECT);
      && ProperSetting(t) && Initial(t, LeftoverWorld()) && !LeftoverWorld().connected
      && w.core.pending == [Leftover()] && !Tended(w)
      && w.core.log == [Opened("a", None), Registered("a"), Submitted(Leftover(), NoAnswer), DrainEnded(1, false)]
  {
    hide FileName, ProperSetting, Initial, OpenGeneration, Leftover;
    var env := LeftoverSetting().env;
    LeftoverSettingIsProper();
    RunTwo(LeftoverWorld(), env, ConnectionChange(true), ChainTurn);
    var connected := React(LeftoverWorld(), env, ConnectionChange(true));
    assert connected == LeftoverWorld().(connected := true, queue := [ActivateOp(StartupOrReconnect)]);
    assert connected.queue[1..] == [];
    var loaded := Load(Called(connected.(queue := []), env));
    assert loaded == LeftoverWorld().(connected := true, initialized := true, tick := 1);
    LeftoverOpens();
    assert React(connected, env, ChainTurn) == OpenGeneration(loaded, env, StartupOrReconnect).0;
  }

  /** A drain that is not answered leaves the leftover where it is. */
  lemma SilentDrain(w: World)
    requires w.core.pending == [Leftover()] && w.tick >= 3
    ensures
      var (after, result) := Drain(w, LeftoverSetting().env);
      && result == Drained(0, 1, true, false)
      && after.core.log == w.core.log + [Submitted(Leftover(), NoAnswer), DrainEnded(1, false)]
      && after == w.(tick := w.tick + 1, core := w.core.(log := after.core.log))
  {
    hide Leftover;
    var env := LeftoverSetting().env;
    var submitted := Submit(w, env, Leftover()).0;
    assert Drain(w, env) == EndDrain(submitted, 0, true, false);
    assert w.core.log + [Submitted(Leftover(), NoAnswer)] + [DrainEnded(1, false)]
        == w.core.log + [Submitted(Leftover(), NoAnswer), DrainEnded(1, false)];
  }

  lemma LeftoverOpens()
    ensures
      var w := LeftoverWorld().(connected := true, initialized := true, tick := 1);
      var after := OpenGeneration(w, LeftoverSetting().env, StartupOrReconnect).0;
      && after.core.pending == [Leftover()] && after.connected && after.timer.None? && after.queue == []
      && after.core.log == [Opened("a", None), Registered("a"), Submitted(Leftover(), NoAnswer), DrainEnded(1, false)]
  {
    hide Drain, Leftover;
    var env := LeftoverSetting().env;
    var w := LeftoverWorld().(connected := true, initialized := true, tick := 1);
    assert SampleId(0) == "a";
    var state := SourceState("server", "a", true, 0);
    var adopted := Log(Log(SetCurrent(Called(w.(core := w.core.(drawn := 1)), env), state), Opened("a", None)), Registered("a"));
    assert adopted.core.log == [Opened("a", None), Registered("a")];
    var saved := Save(adopted, env, state).0;
    SilentDrain(SetEncoder(saved, FRESH));
  }
}
