/**
 * The self-nudge tick and the index of processed user requests. Fingerprints are taken as injective, so they
 * are the data they are made of; the model's decision, the idle checks and what throws come from outside.
 * A tick sets the timer for the next one only when it comes to its end.
 */
module SelfNudge {
  import opened Options

  datatype Role = User | Assistant

  /** notice marks the relay's own notices in the transcript, which its patterns recognise. */
  datatype Message = Message(role: Role, text: string, lineIndex: int, timestamp: Option<int>, notice: bool)

  datatype Position = AtTime(ms: int) | AtLine(index: int)

  datatype UserPrint = UserPrint(position: Position, role: Role, text: string)

  /** What identifies a user request: its session and the fingerprint of its message. */
  datatype Key = Key(sessionKey: string, request: UserPrint)

  datatype Decision = Decision(shouldNudge: bool, finalConfidence: int)

  datatype Record = Record(key: Key, analysis: Option<seq<Message>>, shouldNudge: bool, analyzedAt: int, noticeSentAt: Option<int>)

  datatype NudgeState = NudgeState(current: Option<Key>, consecutiveNudges: nat, lastNudgeAt: Option<int>, lastFinalNotice: Option<UserPrint>)

  datatype Sent = Nudge(key: Key, analysis: seq<Message>, at: int) | FinalNotice(key: Key, at: int)

  /** One tick: the transcript it reads, the settings, and the answers it gets. */
  datatype Tick = Tick(
    now: int,
    baseTimeoutMs: int,
    sessionKey: string,
    latestUser: Option<Message>,
    mtimeMs: int,
    messages: seq<Message>,
    idleFirst: bool,
    decision: Option<Decision>,
    finalityKnown: bool,
    visible: Option<bool>,
    idleSecond: bool,
    sendThrows: bool,
    saveThrows: bool,
    finalNoticeEnabled: bool,
    noticeThrows: bool,
    noticeSaveThrows: bool,
    nudgeNoticeThrows: bool)

  datatype World = World(state: NudgeState, records: seq<Record>, log: seq<Sent>)

  const MIN_BASE_TIMEOUT_MS := 1000
  const MAX_LATEST_USER_AGE_MS := 24 * 60 * 60 * 1000
  const FINAL_ANSWER_CONFIDENCE_THRESHOLD := 90

  // ----- waiting

  function Max(a: int, b: int): int {
    if a < b then b else a
  }

  function Base(baseTimeoutMs: int): int {
    Max(MIN_BASE_TIMEOUT_MS, baseTimeoutMs)
  }

  function WaitMs(baseTimeoutMs: int, consecutiveNudges: nat): int {
    Base(baseTimeoutMs) * (consecutiveNudges + 1)
  }

  predicate CountsAsActivity(m: Message, latestUser: Message) {
    m.role == Assistant && m.lineIndex > latestUser.lineIndex && !m.notice && m.timestamp.Some?
  }

  function LatestAssistantActivity(messages: seq<Message>, latestUser: Message): Option<int> {
    if messages == [] then None
    else
      var before := LatestAssistantActivity(messages[..|messages| - 1], latestUser);
      var m := messages[|messages| - 1];
      if !CountsAsActivity(m, latestUser) then before
      else if before.None? then m.timestamp
      else Some(Max(before.value, m.timestamp.value))
  }

  /** When the transcript was last active. */
  function Activity(t: Tick): int
    requires t.latestUser.Some?
  {
    var latest := LatestAssistantActivity(t.messages, t.latestUser.value);
    if latest.None? then t.mtimeMs else Max(t.mtimeMs, latest.value)
  }

  predicate Stale(m: Message, now: int) {
    m.timestamp.Some? && now - m.timestamp.value > MAX_LATEST_USER_AGE_MS
  }

  function KeyOf(t: Tick): Key
    requires t.latestUser.Some?
  {
    var m := t.latestUser.value;
    Key(t.sessionKey, UserPrint(if m.timestamp.Some? then AtTime(m.timestamp.value) else AtLine(m.lineIndex), m.role, m.text))
  }

  // ----- the index of processed requests

  function Find(records: seq<Record>, key: Key): Option<Record> {
    if records == [] then None else if records[0].key == key then Some(records[0]) else Find(records[1..], key)
  }

  function SetRecord(records: seq<Record>, r: Record): seq<Record> {
    if records == [] then [r] else if records[0].key == r.key then [r] + records[1..] else [records[0]] + SetRecord(records[1..], r)
  }

  function InsertByTime(records: seq<Record>, r: Record): seq<Record> {
    if records == [] then [r] else if r.analyzedAt > records[0].analyzedAt then [r] + records
    else [records[0]] + InsertByTime(records[1..], r)
  }

  function SortByTime(records: seq<Record>): seq<Record> {
    if records == [] then [] else InsertByTime(SortByTime(records[..|records| - 1]), records[|records| - 1])
  }

  /** What a save keeps: the latest analyzed. */
  function Kept(records: seq<Record>, max: nat): seq<Record> {
    var sorted := SortByTime(records);
    if |sorted| <= max then sorted else sorted[..max]
  }

  function Marked(records: seq<Record>, max: nat, key: Key, analysis: seq<Message>, shouldNudge: bool, now: int): seq<Record> {
    var existing := Find(records, key);
    Kept(SetRecord(records, Record(key, Some(analysis), shouldNudge, now, if existing.Some? then existing.value.noticeSentAt else None)), max)
  }

  function MarkedNotice(records: seq<Record>, max: nat, key: Key, now: int): seq<Record> {
    var existing := Find(records, key);
    if existing.None? then records else Kept(SetRecord(records, existing.value.(noticeSentAt := Some(now))), max)
  }

  // ----- one tick

  function Begun(s: NudgeState, key: Key): NudgeState {
    if s.current == Some(key) then s else NudgeState(Some(key), 0, None, None)
  }

  predicate IsFinal(d: Decision) {
    d.finalConfidence > FINAL_ANSWER_CONFIDENCE_THRESHOLD
  }

  /** The decision once visible delivery has been looked up; absent when the lookup or the model throws. */
  function Settled(t: Tick): Option<Decision> {
    if t.decision.Some? && IsFinal(t.decision.value) && t.finalityKnown then
      if t.visible.None? then None else if t.visible.value then t.decision else Some(Decision(true, 0))
    else t.decision
  }

  function Ticked(w: World, max: nat, t: Tick): World {
    if t.latestUser.None? || Stale(t.latestUser.value, t.now) then
      w.(state := NudgeState(None, 0, None, w.state.lastFinalNotice))
    else
      var key := KeyOf(t);
      var s := Begun(w.state, key);
      var begun := w.(state := s);
      var anchor := if s.lastNudgeAt.Some? then s.lastNudgeAt.value else Activity(t);
      if t.now - anchor < WaitMs(t.baseTimeoutMs, s.consecutiveNudges) then begun
      else
        var existing := Find(w.records, key);
        if existing.Some? && !existing.value.shouldNudge then
          var sentAt := existing.value.noticeSentAt;
          w.(state := s.(lastFinalNotice := if sentAt.Some? && sentAt.value != 0 then Some(key.request) else None))
        else if existing.Some? && existing.value.analysis == Some(t.messages) then begun
        else if !t.idleFirst then begun
        else
          var decision := Settled(t);
          if decision.None? || !t.idleSecond then begun
          else if decision.value.shouldNudge then Nudged(begun, max, t, key)
          else Closed(begun, max, t, key, decision.value)
  }

  function Nudged(w: World, max: nat, t: Tick, key: Key): World {
    if t.sendThrows then w
    else
      var sent := w.(log := w.log + [Nudge(key, t.messages, t.now)], records := Marked(w.records, max, key, t.messages, true, t.now));
      if t.saveThrows then sent
      else sent.(state := w.state.(consecutiveNudges := w.state.consecutiveNudges + 1, lastNudgeAt := Some(t.now)))
  }

  function Closed(w: World, max: nat, t: Tick, key: Key, decision: Decision): World {
    var marked := w.(records := Marked(w.records, max, key, t.messages, false, t.now));
    if t.saveThrows || !t.finalNoticeEnabled || !IsFinal(decision) || w.state.lastFinalNotice == Some(key.request) then marked
    else
      var noticed := marked.(log := w.log + [FinalNotice(key, t.now)]);
      if t.noticeThrows then noticed
      else noticed.(state := w.state.(lastFinalNotice := Some(key.request)), records := MarkedNotice(marked.records, max, key, t.now))
  }

  /** The notice of a final decision, as the tick comes to it, throws, or the save after it does. */
  predicate NoticeFails(w: World, max: nat, t: Tick, key: Key, decision: Decision) {
    && t.finalNoticeEnabled && IsFinal(decision) && w.state.lastFinalNotice != Some(key.request)
    && (t.noticeThrows || (t.noticeSaveThrows && Find(Marked(w.records, max, key, t.messages, false, t.now), key).Some?))
  }

  /** The delay a tick asks for until the next one; absent when it throws. */
  function Delay(w: World, max: nat, t: Tick): Option<int> {
    if t.latestUser.None? || Stale(t.latestUser.value, t.now) then Some(t.baseTimeoutMs)
    else
      var key := KeyOf(t);
      var s := Begun(w.state, key);
      var anchor := if s.lastNudgeAt.Some? then s.lastNudgeAt.value else Activity(t);
      var waitMs := WaitMs(t.baseTimeoutMs, s.consecutiveNudges);
      var existing := Find(w.records, key);
      if t.now - anchor < waitMs then Some(waitMs - (t.now - anchor))
      else if existing.Some? && (!existing.value.shouldNudge || existing.value.analysis == Some(t.messages)) then Some(t.baseTimeoutMs)
      else if !t.idleFirst then Some(t.baseTimeoutMs)
      else
        var decision := Settled(t);
        if decision.None? then None
        else if !t.idleSecond then Some(t.baseTimeoutMs)
        else if decision.value.shouldNudge then
          if t.sendThrows || t.saveThrows || t.nudgeNoticeThrows then None
          else Some(WaitMs(t.baseTimeoutMs, s.consecutiveNudges + 1))
        else if t.saveThrows || NoticeFails(w.(state := s), max, t, key, decision.value) then None
        else Some(t.baseTimeoutMs)
  }

  function Run(w: World, max: nat, ticks: seq<Tick>): World {
    if ticks == [] then w else Ticked(Run(w, max, ticks[..|ticks| - 1]), max, ticks[|ticks| - 1])
  }

  // ----- the runner's timer

  const DISABLED_POLL_INTERVAL_MS := 30000
  const MIN_DELAY_MS := 1000

  /** What the runner finds when its timer fires. */
  datatype Firing = Disabled | NoGateway | NotIdle | NoTranscript | Evaluation(tick: Tick)

  /** The runner between two ticks; without a timer nothing will start another tick. */
  datatype Runner = Runner(world: World, timer: Option<int>)

  function Scheduled(delayMs: int): int {
    Max(MIN_DELAY_MS, delayMs)
  }

  function Reset(s: NudgeState): NudgeState {
    NudgeState(None, 0, None, s.lastFinalNotice)
  }

  /** The timer fires, if there is one. A tick that throws leaves no timer behind. */
  function Fired(r: Runner, max: nat, pollMs: int, f: Firing): Runner {
    if r.timer.None? then r
    else
      match f
      case Disabled => Runner(r.world.(state := Reset(r.world.state)), Some(Scheduled(DISABLED_POLL_INTERVAL_MS)))
      case NoGateway | NotIdle | NoTranscript => r.(timer := Some(Scheduled(pollMs)))
      case Evaluation(t) =>
        var delay := Delay(r.world, max, t);
        Runner(Ticked(r.world, max, t), if delay.None? then None else Some(Scheduled(delay.value)))
  }

  function RunOn(r: Runner, max: nat, pollMs: int, firings: seq<Firing>): Runner {
    if firings == [] then r
    else Fired(RunOn(r, max, pollMs, firings[..|firings| - 1]), max, pollMs, firings[|firings| - 1])
  }

  // ----- the index and the runner, updated in place

  class ProcessedStore {
    const maxRecords: nat
    var records: seq<Record>

    constructor (maxRecords: int)
      ensures records == [] && this.maxRecords == Max(100, maxRecords)
    {
      this.maxRecords := Max(100, maxRecords);
      records := [];
    }

    method Get(key: Key) returns (found: Option<Record>)
      ensures found == Find(records, key)
    {
      var i := 0;
      while i < |records|
        invariant 0 <= i <= |records| && Find(records, key) == Find(records[i..], key)
      {
        if records[i].key == key {
          return Some(records[i]);
        }
        assert records[i..][1..] == records[i + 1..];
        i := i + 1;
      }
      return None;
    }

    /** The records in memory are updated before the file is written, so a failing write does not undo it. */
    method MarkAnalyzed(key: Key, analysis: seq<Message>, shouldNudge: bool, now: int)
      modifies this
      ensures records == Marked(old(records), maxRecords, key, analysis, shouldNudge, now)
    {
      var existing := Get(key);
      var notice := if existing.Some? then existing.value.noticeSentAt else None;
      records := Kept(SetRecord(records, Record(key, Some(analysis), shouldNudge, now, notice)), maxRecords);
    }

    /** Answers whether the file is written: without a record nothing is. */
    method MarkFinalNoticeSent(key: Key, now: int) returns (saved: bool)
      modifies this
      ensures records == MarkedNotice(old(records), maxRecords, key, now)
      ensures saved == Find(old(records), key).Some?
    {
      var existing := Get(key);
      saved := existing.Some?;
      if existing.Some? {
        records := Kept(SetRecord(records, existing.value.(noticeSentAt := Some(now))), maxRecords);
      }
    }
  }

  class SelfNudgeRunner {
    const processedStore: ProcessedStore
    const pollIntervalMs: int
    var timer: Option<int>
    var current: Option<Key>
    var consecutiveNudges: nat
    var lastNudgeAt: Option<int>
    var lastFinalNotice: Option<UserPrint>
    var log: seq<Sent>

    ghost function Value(): World
      reads this, processedStore
    {
      World(NudgeState(current, consecutiveNudges, lastNudgeAt, lastFinalNotice), processedStore.records, log)
    }

    ghost function State(): Runner
      reads this, processedStore
    {
      Runner(Value(), timer)
    }

    constructor (store: ProcessedStore, pollIntervalMs: int)
      ensures processedStore == store && this.pollIntervalMs == Max(MIN_DELAY_MS, pollIntervalMs)
      ensures State() == Runner(World(NudgeState(None, 0, None, None), store.records, []), None)
    {
      processedStore := store;
      this.pollIntervalMs := Max(MIN_DELAY_MS, pollIntervalMs);
      timer := None;
      current, consecutiveNudges, lastNudgeAt, lastFinalNotice, log := None, 0, None, None, [];
    }

    method Schedule(delayMs: int)
      modifies this`timer
      ensures timer == Some(Scheduled(delayMs))
    {
      timer := Some(Max(MIN_DELAY_MS, delayMs));
    }

    method Start()
      modifies this`timer
      ensures timer == Some(MIN_DELAY_MS)
    {
      Schedule(MIN_DELAY_MS);
    }

    /** The timer has fired: it is gone, and only a tick that comes to its end sets the next one. */
    method OnTimer(f: Firing)
      requires timer.Some?
      modifies this, processedStore
      ensures State() == Fired(old(State()), processedStore.maxRecords, pollIntervalMs, f)
    {
      hide Ticked, Delay;
      timer := None;
      match f {
        case Disabled =>
          current, consecutiveNudges, lastNudgeAt := None, 0, None;
          Schedule(DISABLED_POLL_INTERVAL_MS);
        case NoGateway | NotIdle | NoTranscript =>
          Schedule(pollIntervalMs);
        case Evaluation(t) =>
          var delay := EvaluateSelfNudgeTick(t);
          if delay.Some? {
            Schedule(delay.value);
          }
      }
    }

    method FindLatestAssistantActivity(messages: seq<Message>, latestUser: Message) returns (latest: Option<int>)
      ensures latest == LatestAssistantActivity(messages, latestUser)
    {
      latest := None;
      for i := 0 to |messages|
        invariant latest == LatestAssistantActivity(messages[..i], latestUser)
      {
        assert messages[..i + 1][..i] == messages[..i];
        if CountsAsActivity(messages[i], latestUser) {
          latest := if latest.None? then messages[i].timestamp else Some(Max(latest.value, messages[i].timestamp.value));
        }
      }
      assert messages[..|messages|] == messages;
    }

    /** One tick; the delay until the next is absent when the tick throws. */
    method EvaluateSelfNudgeTick(t: Tick) returns (delay: Option<int>)
      modifies this, processedStore
      ensures Value() == Ticked(old(Value()), processedStore.maxRecords, t) && timer == old(timer)
      ensures delay == Delay(old(Value()), processedStore.maxRecords, t)
    {
      hide Nudged, Closed, LatestAssistantActivity, Find, Stale, KeyOf, IsFinal, WaitMs, NoticeFails;
      if t.latestUser.None? || Stale(t.latestUser.value, t.now) {
        current, consecutiveNudges, lastNudgeAt := None, 0, None;
        return Some(t.baseTimeoutMs);
      }
      var key := KeyOf(t);
      if current != Some(key) {
        current, consecutiveNudges, lastNudgeAt, lastFinalNotice := Some(key), 0, None, None;
      }
      var waitMs := WaitMs(t.baseTimeoutMs, consecutiveNudges);
      var latest := FindLatestAssistantActivity(t.messages, t.latestUser.value);
      var activity := if latest.None? then t.mtimeMs else Max(t.mtimeMs, latest.value);
      var anchor := if lastNudgeAt.Some? then lastNudgeAt.value else activity;
      var elapsed := t.now - anchor;
      if elapsed < waitMs {
        return Some(waitMs - elapsed);
      }
      var existing := processedStore.Get(key);
      if existing.Some? && !existing.value.shouldNudge {
        var sentAt := existing.value.noticeSentAt;
        lastFinalNotice := if sentAt.Some? && sentAt.value != 0 then Some(key.request) else None;
        return Some(t.baseTimeoutMs);
      }
      if existing.Some? && existing.value.analysis == Some(t.messages) {
        return Some(t.baseTimeoutMs);
      }
      if !t.idleFirst {
        return Some(t.baseTimeoutMs);
      }
      if t.decision.None? {
        return None;
      }
      var decision := t.decision.value;
      if IsFinal(decision) && t.finalityKnown {
        if t.visible.None? {
          return None;
        }
        if !t.visible.value {
          decision := Decision(true, 0);
        }
      }
      if !t.idleSecond {
        return Some(t.baseTimeoutMs);
      }
      if decision.shouldNudge {
        delay := SendNudge(t, key);
      } else {
        delay := CloseRequest(t, key, decision);
      }
    }

    method SendNudge(t: Tick, key: Key) returns (delay: Option<int>)
      modifies this, processedStore
      ensures Value() == Nudged(old(Value()), processedStore.maxRecords, t, key) && timer == old(timer)
      ensures delay == if t.sendThrows || t.saveThrows || t.nudgeNoticeThrows then None
                       else Some(WaitMs(t.baseTimeoutMs, old(consecutiveNudges) + 1))
    {
      hide Marked;
      if t.sendThrows {
        return None;
      }
      log := log + [Nudge(key, t.messages, t.now)];
      processedStore.MarkAnalyzed(key, t.messages, true, t.now);
      if t.saveThrows {
        return None;
      }
      consecutiveNudges, lastNudgeAt := consecutiveNudges + 1, Some(t.now);
      if t.nudgeNoticeThrows {
        return None;
      }
      return Some(WaitMs(t.baseTimeoutMs, consecutiveNudges));
    }

    method CloseRequest(t: Tick, key: Key, decision: Decision) returns (delay: Option<int>)
      modifies this, processedStore
      ensures Value() == Closed(old(Value()), processedStore.maxRecords, t, key, decision) && timer == old(timer)
      ensures delay == if t.saveThrows || NoticeFails(old(Value()), processedStore.maxRecords, t, key, decision) then None
                       else Some(t.baseTimeoutMs)
    {
      hide Marked, MarkedNotice;
      processedStore.MarkAnalyzed(key, t.messages, false, t.now);
      if t.saveThrows {
        return None;
      }
      if t.finalNoticeEnabled && IsFinal(decision) && lastFinalNotice != Some(key.request) {
        log := log + [FinalNotice(key, t.now)];
        if t.noticeThrows {
          return None;
        }
        lastFinalNotice := Some(key.request);
        var saved := processedStore.MarkFinalNoticeSent(key, t.now);
        if saved && t.noticeSaveThrows {
          return None;
        }
      }
      return Some(t.baseTimeoutMs);
    }
  }
}
