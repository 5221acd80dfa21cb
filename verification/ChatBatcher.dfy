/** The per-session debounce batcher in front of the message processor. */
module ChatBatcher {
  import opened Options
  import opened Text

  datatype ChatMessage = ChatMessage(
    messageId: string,
    sessionKey: string,
    contextKind: Option<string>,
    messageText: string,
    media: Option<seq<string>>)

  datatype Inbound = Chat(message: ChatMessage) | OtherInput(messageId: string)

  datatype TaskKind = UserChat | SystemReminder | StatusNudge | OtherTask

  function Classify(msg: Inbound): TaskKind {
    match msg
    case OtherInput(_) => OtherTask
    case Chat(m) =>
      if m.contextKind == Some("relay_status_nudge") then StatusNudge
      else if m.contextKind == Some("relay_stale_timeout_reminder") then SystemReminder
      else UserChat
  }

  /** A message waiting in a batch; n identifies the promise its caller holds. */
  datatype Item = Item(n: nat, at: int, msg: ChatMessage)

  datatype Batch = Batch(timer: nat, items: seq<Item>)

  datatype Timer = Timer(sessionKey: string, due: int)

  datatype Flushed = Flushed(sessionKey: string, items: seq<Item>, at: int)

  /** What the flush of a batch asks of others: a callback for a batched message, or the run of one message. */
  datatype Call =
    | BatchedCallback(source: ChatMessage, batchedIntoMessageId: string, batchedCount: nat)
    | Process(message: ChatMessage)

  datatype Settlement = Settlement(n: nat, resolved: bool)

  // ----- merging

  function NonBlankTexts(msgs: seq<ChatMessage>): seq<string> {
    if msgs == [] then [] else
      NonBlankTexts(msgs[..|msgs| - 1]) +
      if Trim(msgs[|msgs| - 1].messageText) == "" then [] else [Trim(msgs[|msgs| - 1].messageText)]
  }

  const SEPARATOR := "\n\n"

  function Join(texts: seq<string>): string {
    if texts == [] then ""
    else if |texts| == 1 then texts[0]
    else Join(texts[..|texts| - 1]) + SEPARATOR + texts[|texts| - 1]
  }

  function AllMedia(msgs: seq<ChatMessage>): seq<string> {
    if msgs == [] then [] else
      AllMedia(msgs[..|msgs| - 1]) + if msgs[|msgs| - 1].media.Some? then msgs[|msgs| - 1].media.value else []
  }

  /** One message for all: the last one, with the texts of all joined and the media of all in order. */
  function BuildMergedChatMessage(msgs: seq<ChatMessage>): ChatMessage
    requires msgs != []
  {
    var tail := msgs[|msgs| - 1];
    tail.(messageText := Join(NonBlankTexts(msgs)),
          media := if AllMedia(msgs) != [] then Some(AllMedia(msgs)) else tail.media)
  }

  // ----- the flush of one batch

  function Messages(items: seq<Item>): (msgs: seq<ChatMessage>)
    ensures |msgs| == |items|
  {
    seq(|items|, i requires 0 <= i < |items| => items[i].msg)
  }

  function Callbacks(items: seq<Item>, count: nat): seq<Call>
    requires count <= |items|
  {
    seq(count, i requires 0 <= i < count => BatchedCallback(items[i].msg, items[|items| - 1].msg.messageId, |items|))
  }

  /** What the flush of a batch asks for: one run, of the merge, after a callback for every other message. */
  function FlushCalls(items: seq<Item>): seq<Call> {
    if items == [] then []
    else if |items| == 1 then [Process(items[0].msg)]
    else Callbacks(items, |items| - 1) + [Process(BuildMergedChatMessage(Messages(items)))]
  }

  /** Each message settles by the answer to its own call. */
  function Settlements(items: seq<Item>, answers: nat -> bool): seq<Settlement> {
    seq(|items|, i requires 0 <= i < |items| => Settlement(items[i].n, answers(i)))
  }

  lemma SettlementsExactly(items: seq<Item>, answers: nat -> bool, settled: seq<Settlement>)
    requires |settled| == |items| && forall j :: 0 <= j < |items| ==> settled[j] == Settlement(items[j].n, answers(j))
    ensures settled == Settlements(items, answers)
  {
  }

  lemma CallsExactly(items: seq<Item>, calls: seq<Call>)
    requires |items| >= 2 && |calls| == |items|
    requires forall j :: 0 <= j < |items| - 1 ==>
               calls[j] == BatchedCallback(items[j].msg, items[|items| - 1].msg.messageId, |items|)
    requires calls[|items| - 1] == Process(BuildMergedChatMessage(Messages(items)))
    ensures calls == FlushCalls(items)
  {
    hide BuildMergedChatMessage, Messages;
    assert calls[..|items| - 1] == Callbacks(items, |items| - 1);
  }

  method FlushChatBatch(items: seq<Item>, answers: nat -> bool) returns (calls: seq<Call>, settled: seq<Settlement>)
    ensures calls == FlushCalls(items)
    ensures settled == Settlements(items, answers)
  {
    hide BuildMergedChatMessage, Messages, Settlements;
    if |items| == 0 {
      SettlementsExactly(items, answers, []);
      return [], [];
    }
    if |items| == 1 {
      SettlementsExactly(items, answers, [Settlement(items[0].n, answers(0))]);
      return [Process(items[0].msg)], [Settlement(items[0].n, answers(0))];
    }
    hide FlushCalls;
    var firstItems, target := items[..|items| - 1], items[|items| - 1];
    var merged := BuildMergedChatMessage(Messages(items));
    calls, settled := [], [];
    for i := 0 to |firstItems|
      invariant |calls| == i && |settled| == i
      invariant forall j :: 0 <= j < i ==> calls[j] == BatchedCallback(items[j].msg, target.msg.messageId, |items|)
      invariant forall j :: 0 <= j < i ==> settled[j] == Settlement(items[j].n, answers(j))
    {
      calls := calls + [BatchedCallback(firstItems[i].msg, target.msg.messageId, |items|)];
      settled := settled + [Settlement(firstItems[i].n, answers(i))];
    }
    calls := calls + [Process(merged)];
    settled := settled + [Settlement(target.n, answers(|items| - 1))];
    CallsExactly(items, calls);
    SettlementsExactly(items, answers, settled);
  }

  // ----- the batcher

  /** The open batches and live timers, and the history of what came in and what went out. */
  datatype State = State(
    debounceMs: nat,
    batches: map<string, Batch>,
    live: map<nat, Timer>,
    nextTimer: nat,
    arrived: seq<Item>,
    flushed: seq<Flushed>,
    calls: seq<Call>,
    settled: seq<Settlement>)

  datatype Action =
    | Arrives(msg: Inbound, now: int)
    | Fires(timer: nat, now: int, answers: nat -> bool)

  function Start(debounceMs: nat): State {
    State(debounceMs, map[], map[], 0, [], [], [], [])
  }

  /** The message is added to its session's batch, and the batch's timer starts over. */
  function Enqueued(s: State, m: ChatMessage, now: int): State {
    var item := Item(|s.arrived|, now, m);
    var open := m.sessionKey in s.batches;
    var items := if open then s.batches[m.sessionKey].items else [];
    var kept := if open then s.live - {s.batches[m.sessionKey].timer} else s.live;
    s.(batches := s.batches[m.sessionKey := Batch(s.nextTimer, items + [item])],
       live := kept[s.nextTimer := Timer(m.sessionKey, now + s.debounceMs)],
       nextTimer := s.nextTimer + 1,
       arrived := s.arrived + [item])
  }

  /** A timer that has come due closes whatever batch its session has open, and flushes it. */
  function Fired(s: State, timer: nat, now: int, answers: nat -> bool): State {
    if timer !in s.live || now < s.live[timer].due then s
    else
      var sessionKey := s.live[timer].sessionKey;
      var rest := s.(live := s.live - {timer});
      if sessionKey !in s.batches then rest
      else
        var items := s.batches[sessionKey].items;
        var closed := rest.(batches := s.batches - {sessionKey});
        if items == [] then closed
        else closed.(flushed := s.flushed + [Flushed(sessionKey, items, now)],
                     calls := s.calls + FlushCalls(items),
                     settled := s.settled + Settlements(items, answers))
  }

  function Step(s: State, a: Action): State {
    match a
    case Arrives(msg, now) =>
      if Classify(msg) == UserChat && s.debounceMs != 0 then Enqueued(s, msg.message, now) else s
    case Fires(timer, now, answers) => Fired(s, timer, now, answers)
  }

  function Run(debounceMs: nat, actions: seq<Action>): State {
    if actions == [] then Start(debounceMs) else Step(Run(debounceMs, actions[..|actions| - 1]), actions[|actions| - 1])
  }

  class MessageBatcher {
    const debounceMs: nat
    var batches: map<string, Batch>
    var live: map<nat, Timer>
    var nextTimer: nat
    ghost var arrived: seq<Item>
    var arrivals: nat
    var flushed: seq<Flushed>
    var calls: seq<Call>
    var settled: seq<Settlement>

    ghost predicate Valid()
      reads this
    {
      arrivals == |arrived|
    }

    ghost function Value(): State
      reads this
    {
      State(debounceMs, batches, live, nextTimer, arrived, flushed, calls, settled)
    }

    constructor (debounceMs: nat)
      ensures Valid() && Value() == Start(debounceMs)
    {
      this.debounceMs := debounceMs;
      batches, live, nextTimer := map[], map[], 0;
      arrived, arrivals, flushed, calls, settled := [], 0, [], [], [];
    }

    /** Anything that is not a user's chat, and everything when there is no debounce, is run at once and alone. */
    method Handle(msg: Inbound, now: int) returns (direct: bool)
      requires Valid()
      modifies this
      ensures Valid() && Value() == Step(old(Value()), Arrives(msg, now))
      ensures direct <==> Classify(msg) != UserChat || debounceMs == 0
    {
      direct := msg.OtherInput? || Classify(msg) != UserChat || debounceMs == 0;
      if !direct {
        EnqueueChatBatch(msg.message, now);
      }
    }

    method EnqueueChatBatch(m: ChatMessage, now: int)
      requires Valid()
      modifies this
      ensures Valid() && Value() == Enqueued(old(Value()), m, now)
    {
      var state := Batch(nextTimer, []);
      if m.sessionKey in batches {
        state := batches[m.sessionKey];
        live := live - {state.timer};
      }
      var item := Item(arrivals, now, m);
      batches := batches[m.sessionKey := Batch(nextTimer, state.items + [item])];
      live := live[nextTimer := Timer(m.sessionKey, now + debounceMs)];
      nextTimer := nextTimer + 1;
      arrived, arrivals := arrived + [item], arrivals + 1;
    }

    method TimerFires(timer: nat, now: int, answers: nat -> bool)
      requires Valid()
      modifies this
      ensures Valid() && Value() == Fired(old(Value()), timer, now, answers)
    {
      if timer !in live || now < live[timer].due {
        return;
      }
      var sessionKey := live[timer].sessionKey;
      live := live - {timer};
      if sessionKey !in batches {
        return;
      }
      var items := batches[sessionKey].items;
      batches := batches - {sessionKey};
      if |items| == 0 {
        return;
      }
      var asked, outcome := FlushChatBatch(items, answers);
      flushed := flushed + [Flushed(sessionKey, items, now)];
      calls, settled := calls + asked, settled + outcome;
    }
  }

  // ----- what every run keeps

  function ArrivedIn(items: seq<Item>, sessionKey: string): seq<Item> {
    if items == [] then [] else
      ArrivedIn(items[..|items| - 1], sessionKey) +
      if items[|items| - 1].msg.sessionKey == sessionKey then [items[|items| - 1]] else []
  }

  /** The batches flushed for a session, one after the other. */
  function FlushedIn(flushed: seq<Flushed>, sessionKey: string): seq<Item> {
    if flushed == [] then [] else
      FlushedIn(flushed[..|flushed| - 1], sessionKey) +
      if flushed[|flushed| - 1].sessionKey == sessionKey then flushed[|flushed| - 1].items else []
  }

  function Waiting(s: State, sessionKey: string): seq<Item> {
    if sessionKey in s.batches then s.batches[sessionKey].items else []
  }

  function CallsOf(flushed: seq<Flushed>): seq<Call> {
    if flushed == [] then [] else CallsOf(flushed[..|flushed| - 1]) + FlushCalls(flushed[|flushed| - 1].items)
  }

  /** An open batch is not empty, has exactly one live timer, and that is due a full debounce after its last message. */
  predicate Armed(s: State) {
    && (forall k :: k in s.batches ==> ArmedBatch(s, k))
    && (forall t :: t in s.live ==> ForBatch(s, t))
  }

  predicate ArmedBatch(s: State, k: string)
    requires k in s.batches
  {
    && s.batches[k].items != [] && s.batches[k].timer in s.live
    && s.live[s.batches[k].timer] == Timer(k, s.batches[k].items[|s.batches[k].items| - 1].at + s.debounceMs)
  }

  predicate ForBatch(s: State, t: nat)
    requires t in s.live
  {
    t < s.nextTimer && s.live[t].sessionKey in s.batches && s.batches[s.live[t].sessionKey].timer == t
  }

  ghost predicate Conserved(s: State) {
    forall k :: ArrivedIn(s.arrived, k) == FlushedIn(s.flushed, k) + Waiting(s, k)
  }

  /** Every flush came a full debounce after the last message of its batch. */
  predicate Debounced(s: State) {
    forall i :: 0 <= i < |s.flushed| ==>
      s.flushed[i].items != [] && s.flushed[i].at >= s.flushed[i].items[|s.flushed[i].items| - 1].at + s.debounceMs
  }

  function SettledTimes(settled: seq<Settlement>, n: nat): nat {
    if settled == [] then 0 else SettledTimes(settled[..|settled| - 1], n) + if settled[|settled| - 1].n == n then 1 else 0
  }

  function Times(items: seq<Item>, n: nat): nat {
    if items == [] then 0 else Times(items[..|items| - 1], n) + if items[|items| - 1].n == n then 1 else 0
  }

  predicate Numbered(s: State) {
    forall i :: 0 <= i < |s.arrived| ==> s.arrived[i].n == i
  }

  /** Each caller's promise has settled once if its message has been flushed, and not yet if it waits. */
  ghost predicate SettledOnce(s: State) {
    forall n: nat :: n < |s.arrived| ==>
      SettledTimes(s.settled, n) + Times(Waiting(s, s.arrived[n].msg.sessionKey), n) == 1
  }

  /** Items that wait are items that arrived, in their session. */
  predicate Known(s: State) {
    forall k, i :: k in s.batches && 0 <= i < |s.batches[k].items| ==>
      s.batches[k].items[i].msg.sessionKey == k && s.batches[k].items[i].n < |s.arrived|
      && s.arrived[s.batches[k].items[i].n] == s.batches[k].items[i]
  }

  ghost predicate Keeps(s: State) {
    && Armed(s) && Conserved(s) && Debounced(s) && Numbered(s) && Known(s) && SettledOnce(s)
    && s.calls == CallsOf(s.flushed)
    && forall n: nat :: SettledTimes(s.settled, n) > 0 ==> n < |s.arrived|
  }

  lemma EnqueuedArmed(s: State, m: ChatMessage, now: int)
    requires Armed(s)
    ensures Armed(Enqueued(s, m, now))
  {
    var t := Enqueued(s, m, now);
    forall k | k in t.batches ensures ArmedBatch(t, k) {
      if k != m.sessionKey {
        assert ArmedBatch(s, k) && ForBatch(s, s.batches[k].timer);
        assert m.sessionKey in s.batches ==> ArmedBatch(s, m.sessionKey);
      }
    }
    forall x | x in t.live ensures ForBatch(t, x) {
      if x != s.nextTimer {
        assert ForBatch(s, x);
      }
    }
  }

  lemma EnqueuedConserved(s: State, m: ChatMessage, now: int)
    requires Conserved(s)
    ensures Conserved(Enqueued(s, m, now))
  {
    var t := Enqueued(s, m, now);
    var item := Item(|s.arrived|, now, m);
    assert t.arrived[..|t.arrived| - 1] == s.arrived;
    forall k ensures ArrivedIn(t.arrived, k) == FlushedIn(t.flushed, k) + Waiting(t, k) {
      assert ArrivedIn(s.arrived, k) == FlushedIn(s.flushed, k) + Waiting(s, k);
      assert Waiting(t, k) == if k == m.sessionKey then Waiting(s, k) + [item] else Waiting(s, k);
    }
  }

  lemma EnqueuedKnown(s: State, m: ChatMessage, now: int)
    requires Numbered(s) && Known(s)
    ensures Numbered(Enqueued(s, m, now)) && Known(Enqueued(s, m, now))
  {
    var t := Enqueued(s, m, now);
    forall k, i | k in t.batches && 0 <= i < |t.batches[k].items|
      ensures t.batches[k].items[i].msg.sessionKey == k && t.batches[k].items[i].n < |t.arrived|
           && t.arrived[t.batches[k].items[i].n] == t.batches[k].items[i]
    {
      if k in s.batches && i < |s.batches[k].items| {
        assert t.batches[k].items[i] == s.batches[k].items[i];
      }
    }
  }

  lemma TimesOne(items: seq<Item>, x: Item, n: nat)
    ensures Times(items + [x], n) == Times(items, n) + if x.n == n then 1 else 0
  {
    assert (items + [x])[..|items|] == items;
  }

  lemma {:induction false} TimesNone(items: seq<Item>, n: nat)
    requires forall i :: 0 <= i < |items| ==> items[i].n != n
    ensures Times(items, n) == 0
  {
    if items != [] {
      TimesNone(items[..|items| - 1], n);
    }
  }

  lemma EnqueuedSettled(s: State, m: ChatMessage, now: int)
    requires SettledOnce(s) && Known(s) && forall n: nat :: SettledTimes(s.settled, n) > 0 ==> n < |s.arrived|
    ensures SettledOnce(Enqueued(s, m, now))
  {
    var t := Enqueued(s, m, now);
    var item := Item(|s.arrived|, now, m);
    var waiting := Waiting(s, m.sessionKey);
    assert forall k :: Waiting(t, k) == if k == m.sessionKey then waiting + [item] else Waiting(s, k);
    forall n: nat | n < |t.arrived|
      ensures SettledTimes(t.settled, n) + Times(Waiting(t, t.arrived[n].msg.sessionKey), n) == 1
    {
      TimesOne(waiting, item, n);
      if n == |s.arrived| {
        TimesNone(waiting, n);
      }
    }
  }

  lemma FiredArmed(s: State, timer: nat, now: int, answers: nat -> bool)
    requires Armed(s) && Debounced(s)
    ensures Armed(Fired(s, timer, now, answers)) && Debounced(Fired(s, timer, now, answers))
  {
    hide FlushCalls, Settlements;
    if timer in s.live && now >= s.live[timer].due {
      var t := Fired(s, timer, now, answers);
      var key := s.live[timer].sessionKey;
      assert ForBatch(s, timer) && ArmedBatch(s, key);
      assert t.flushed == s.flushed + [Flushed(key, s.batches[key].items, now)];
      forall k | k in t.batches ensures ArmedBatch(t, k) {
        assert ArmedBatch(s, k);
      }
      forall x | x in t.live ensures ForBatch(t, x) {
        assert ForBatch(s, x);
      }
    }
  }

  lemma FiredConserved(s: State, timer: nat, now: int, answers: nat -> bool)
    requires Armed(s) && Conserved(s) && s.calls == CallsOf(s.flushed)
    ensures Conserved(Fired(s, timer, now, answers))
    ensures Fired(s, timer, now, answers).calls == CallsOf(Fired(s, timer, now, answers).flushed)
  {
    hide FlushCalls, Settlements;
    var t := Fired(s, timer, now, answers);
    if timer in s.live && now >= s.live[timer].due {
      var key := s.live[timer].sessionKey;
      assert t.flushed[..|t.flushed| - 1] == s.flushed;
      forall k ensures ArrivedIn(t.arrived, k) == FlushedIn(t.flushed, k) + Waiting(t, k) {
        assert ArrivedIn(s.arrived, k) == FlushedIn(s.flushed, k) + Waiting(s, k);
        assert k == key ==> Waiting(t, k) == [] && FlushedIn(t.flushed, k) == FlushedIn(s.flushed, k) + Waiting(s, k);
      }
    }
  }

  lemma {:induction false} SettledConcat(a: seq<Settlement>, b: seq<Settlement>, n: nat)
    ensures SettledTimes(a + b, n) == SettledTimes(a, n) + SettledTimes(b, n)
  {
    if b == [] {
      assert a + b == a;
    } else {
      SettledConcat(a, b[..|b| - 1], n);
      assert (a + b)[..|a + b| - 1] == a + b[..|b| - 1];
    }
  }

  lemma {:induction false} SettledAsItems(items: seq<Item>, answers: nat -> bool, n: nat)
    ensures SettledTimes(Settlements(items, answers), n) == Times(items, n)
  {
    if items != [] {
      var k := |items| - 1;
      SettledAsItems(items[..k], answers, n);
      assert Settlements(items, answers)[..k] == Settlements(items[..k], answers);
    }
  }

  lemma FiredKnown(s: State, timer: nat, now: int, answers: nat -> bool)
    requires Known(s)
    ensures Known(Fired(s, timer, now, answers))
  {
    hide FlushCalls, Settlements;
    var t := Fired(s, timer, now, answers);
    assert forall k :: k in t.batches ==> k in s.batches && t.batches[k] == s.batches[k];
  }

  /** The promises settled by a flush are those of the batch, once each, and none of another session. */
  lemma FlushSettles(s: State, key: string, answers: nat -> bool, n: nat)
    requires Known(s) && key in s.batches
    ensures var items := s.batches[key].items;
            && SettledTimes(s.settled + Settlements(items, answers), n) == SettledTimes(s.settled, n) + Times(items, n)
            && (n >= |s.arrived| || s.arrived[n].msg.sessionKey != key ==> Times(items, n) == 0)
  {
    hide Settlements, SettledTimes, Times;
    var items := s.batches[key].items;
    SettledConcat(s.settled, Settlements(items, answers), n);
    SettledAsItems(items, answers, n);
    if n >= |s.arrived| || s.arrived[n].msg.sessionKey != key {
      TimesNone(items, n);
    }
  }

  lemma FiredSettled(s: State, timer: nat, now: int, answers: nat -> bool)
    requires Armed(s) && Known(s) && SettledOnce(s) && forall n: nat :: SettledTimes(s.settled, n) > 0 ==> n < |s.arrived|
    ensures var t := Fired(s, timer, now, answers);
            SettledOnce(t) && forall n: nat :: SettledTimes(t.settled, n) > 0 ==> n < |t.arrived|
  {
    hide FlushCalls, Settlements, SettledTimes, Times, Known, ArmedBatch;
    if timer in s.live && now >= s.live[timer].due {
      var key := s.live[timer].sessionKey;
      assert ForBatch(s, timer) && ArmedBatch(s, key);
      NotEmpty(s, key);
      var t := Fired(s, timer, now, answers);
      forall n: nat
        ensures SettledTimes(t.settled, n) > 0 ==> n < |t.arrived|
        ensures n < |s.arrived| ==>
                  SettledTimes(t.settled, n) + Times(Waiting(t, t.arrived[n].msg.sessionKey), n) == 1
      {
        FlushSettles(s, key, answers, n);
        TimesNone([], n);
      }
    }
  }

  lemma NotEmpty(s: State, key: string)
    requires key in s.batches && ArmedBatch(s, key)
    ensures s.batches[key].items != []
  {
  }

  lemma StepKeeps(s: State, a: Action)
    requires Keeps(s)
    ensures Keeps(Step(s, a))
  {
    hide Armed, Conserved, Debounced, Numbered, Known, SettledOnce, CallsOf, SettledTimes, FlushCalls, Settlements;
    match a
    case Arrives(msg, now) =>
      if Classify(msg) == UserChat && s.debounceMs != 0 {
        EnqueuedArmed(s, msg.message, now);
        EnqueuedConserved(s, msg.message, now);
        EnqueuedKnown(s, msg.message, now);
        EnqueuedSettled(s, msg.message, now);
        SameDebounced(s, Enqueued(s, msg.message, now));
      }
    case Fires(timer, now, answers) =>
      FiredArmed(s, timer, now, answers);
      FiredConserved(s, timer, now, answers);
      FiredKnown(s, timer, now, answers);
      FiredSettled(s, timer, now, answers);
      SameNumbered(s, Fired(s, timer, now, answers));
  }

  lemma SameDebounced(s: State, t: State)
    requires Debounced(s) && t.flushed == s.flushed && t.debounceMs == s.debounceMs
    ensures Debounced(t)
  {
  }

  lemma SameNumbered(s: State, t: State)
    requires Numbered(s) && t.arrived == s.arrived
    ensures Numbered(t)
  {
  }

  /**
   * Over every interleaving of arrivals and timers: each session's messages are its flushed batches, in order,
   * followed by those still waiting; every open batch waits on exactly one timer; every promise settles once
   * when its message is flushed and not before; and no batch is flushed within the debounce of its last message.
   */
  lemma {:induction false} BatchingConserves(debounceMs: nat, actions: seq<Action>)
    ensures Keeps(Run(debounceMs, actions))
    ensures forall k :: ArrivedIn(Run(debounceMs, actions).arrived, k)
                     == FlushedIn(Run(debounceMs, actions).flushed, k) + Waiting(Run(debounceMs, actions), k)
  {
    hide Keeps, Step, Waiting;
    if actions == [] {
      StartKeeps(debounceMs);
    } else {
      BatchingConserves(debounceMs, actions[..|actions| - 1]);
      StepKeeps(Run(debounceMs, actions[..|actions| - 1]), actions[|actions| - 1]);
    }
    KeepsConserved(Run(debounceMs, actions));
  }

  lemma StartKeeps(debounceMs: nat)
    ensures Keeps(Start(debounceMs))
  {
  }

  lemma KeepsConserved(s: State)
    requires Keeps(s)
    ensures forall k :: ArrivedIn(s.arrived, k) == FlushedIn(s.flushed, k) + Waiting(s, k)
  {
  }

  // ----- what is batched, and when it goes out

  /** A user's chat: no reminder and no nudge of the relay's own. */
  predicate IsUserChat(msg: Inbound) {
    msg.Chat? && msg.message.contextKind !in {Some("relay_status_nudge"), Some("relay_stale_timeout_reminder")}
  }

  /** The users' chats among what came in, in order. */
  function UserChats(actions: seq<Action>): seq<ChatMessage> {
    if actions == [] then []
    else
      var last := actions[|actions| - 1];
      UserChats(actions[..|actions| - 1]) + if last.Arrives? && IsUserChat(last.msg) then [last.msg.message] else []
  }

  /** Over every run: exactly the users' chats join a batch, in order; without a debounce none does. */
  lemma {:induction false} UserChatsAreBatched(debounceMs: nat, actions: seq<Action>)
    ensures
      var s, chats := Run(debounceMs, actions), UserChats(actions);
      && s.debounceMs == debounceMs
      && |s.arrived| == (if debounceMs == 0 then 0 else |chats|)
      && (forall i :: 0 <= i < |s.arrived| ==> s.arrived[i].n == i && s.arrived[i].msg == chats[i])
  {
    hide FlushCalls, Settlements;
    if actions != [] {
      UserChatsAreBatched(debounceMs, actions[..|actions| - 1]);
    }
  }

  /**
   Over every run: when the timer of an open batch fires once it is due, the whole batch goes out: everything waiting in
   its session, each promise settled by its own answer, and nothing of any other session.
   */
  lemma DueTimerFlushes(debounceMs: nat, actions: seq<Action>, key: string, now: int, answers: nat -> bool)
    requires key in Run(debounceMs, actions).batches
    ensures
      var s := Run(debounceMs, actions);
      var waiting := Waiting(s, key);
      && waiting != []
      && (now >= waiting[|waiting| - 1].at + debounceMs ==>
            var r := Step(s, Fires(s.batches[key].timer, now, answers));
            && r.flushed == s.flushed + [Flushed(key, waiting, now)] && r.batches == s.batches - {key}
            && r.calls == s.calls + FlushCalls(waiting) && r.arrived == s.arrived
            && |r.settled| == |s.settled| + |waiting| && s.settled <= r.settled
            && forall i :: 0 <= i < |waiting| ==> r.settled[|s.settled| + i] == Settlement(waiting[i].n, answers(i)))
  {
    hide Run, Step, FlushCalls, Settlements, ArmedBatch;
    BatchingConserves(debounceMs, actions);
    UserChatsAreBatched(debounceMs, actions);
    var s := Run(debounceMs, actions);
    KeepsArmed(s);
    ArmedIsDue(s, key);
    if now >= Waiting(s, key)[|Waiting(s, key)| - 1].at + debounceMs {
      DueFlushes(s, key, now, answers);
    }
  }

  lemma ArmedIsDue(s: State, key: string)
    requires key in s.batches && ArmedBatch(s, key)
    ensures Waiting(s, key) != [] && s.batches[key].timer in s.live
    ensures s.live[s.batches[key].timer] == Timer(key, Waiting(s, key)[|Waiting(s, key)| - 1].at + s.debounceMs)
  {
  }

  lemma DueFlushes(s: State, key: string, now: int, answers: nat -> bool)
    requires key in s.batches && s.batches[key].timer in s.live && Waiting(s, key) != []
    requires s.live[s.batches[key].timer].sessionKey == key && now >= s.live[s.batches[key].timer].due
    ensures
      var waiting, r := Waiting(s, key), Step(s, Fires(s.batches[key].timer, now, answers));
      && r.flushed == s.flushed + [Flushed(key, waiting, now)] && r.batches == s.batches - {key}
      && r.calls == s.calls + FlushCalls(waiting) && r.arrived == s.arrived
      && |r.settled| == |s.settled| + |waiting| && s.settled <= r.settled
      && forall i :: 0 <= i < |waiting| ==> r.settled[|s.settled| + i] == Settlement(waiting[i].n, answers(i))
  {
    hide FlushCalls;
  }

  lemma KeepsArmed(s: State)
    requires Keeps(s)
    ensures Armed(s)
  {
  }

  /** The merged message is the last one but for text and media; the media are those of all, in order, if there are any. */
  lemma MergedMessageSays(msgs: seq<ChatMessage>)
    requires msgs != []
    ensures
      var merged, last := BuildMergedChatMessage(msgs), msgs[|msgs| - 1];
      && merged == last.(messageText := merged.messageText, media := merged.media)
      && (if exists m :: m in msgs && m.media.Some? && m.media.value != [] then merged.media == Some(AllMedia(msgs))
          else merged.media == last.media)
      && AllMedia(msgs) == AllMedia(msgs[..|msgs| - 1]) + (if last.media.Some? then last.media.value else [])
      && AllMedia([]) == []
  {
    hide NonBlankTexts, Join;
    SomeMedia(msgs);
  }

  lemma {:induction false} SomeMedia(msgs: seq<ChatMessage>)
    ensures AllMedia(msgs) != [] <==> exists m :: m in msgs && m.media.Some? && m.media.value != []
  {
    if msgs != [] {
      SomeMedia(msgs[..|msgs| - 1]);
      assert msgs == msgs[..|msgs| - 1] + [msgs[|msgs| - 1]];
    }
  }

  // ----- what a flush asks for

  /** A batch of n is answered by n - 1 callbacks naming the last message, and one run; none is left without a call. */
  lemma FlushAsksOncePerMessage(items: seq<Item>)
    requires items != []
    ensures var calls := FlushCalls(items);
            var last := items[|items| - 1].msg;
            && |calls| == |items| && calls[|items| - 1].Process? && calls[|items| - 1].message.messageId == last.messageId
            && calls[|items| - 1].message.sessionKey == last.sessionKey
            && calls[|items| - 1].message == (if |items| == 1 then last else BuildMergedChatMessage(Messages(items)))
            && forall i :: 0 <= i < |items| - 1 ==> calls[i] == BatchedCallback(items[i].msg, last.messageId, |items|)
  {
  }

  lemma {:induction false} TextsNonBlank(msgs: seq<ChatMessage>)
    ensures forall t :: t in NonBlankTexts(msgs) ==> t != "" && Trimmed(t)
  {
    hide Trim, Trimmed;
    if msgs != [] {
      TextsNonBlank(msgs[..|msgs| - 1]);
      TrimIsTrimmed(msgs[|msgs| - 1].messageText);
    }
  }

  lemma {:induction false} JoinSpells(texts: seq<string>)
    requires forall t :: t in texts ==> t != "" && Trimmed(t)
    ensures Spells(Join(texts), texts) && Trimmed(Join(texts)) && (texts != [] ==> Join(texts) != "")
  {
    hide Spells;
    if texts == [] {
      SpellsNothing();
    } else if |texts| == 1 {
      SpellsOne(texts[0], "");
      assert texts[0] + "" == texts[0] && [texts[0]] == texts;
    } else {
      var n := |texts| - 1;
      var front := texts[..n];
      assert forall t :: t in front ==> t in texts;
      JoinSpells(front);
      assert texts[n] in texts;
      SpellsExtend(Join(front), front, SEPARATOR, texts[n], "");
      assert front + [texts[n]] == texts;
      assert Join(texts) == Join(front) + SEPARATOR + texts[n] + "";
    }
  }

  lemma {:induction false} JoinConcat(a: seq<string>, b: seq<string>)
    requires a != [] && b != []
    ensures Join(a + b) == Join(a) + SEPARATOR + Join(b)
  {
    var n := |b| - 1;
    assert (a + b)[..|a + b| - 1] == a + b[..n];
    if n == 0 {
      assert a + b[..n] == a;
    } else {
      JoinConcat(a, b[..n]);
    }
  }

  /** The merged text is the texts of all messages, in order, with only white space between and none around them. */
  lemma MergedTextSpells(msgs: seq<ChatMessage>)
    requires msgs != []
    ensures Spells(BuildMergedChatMessage(msgs).messageText, NonBlankTexts(msgs))
    ensures Trimmed(BuildMergedChatMessage(msgs).messageText)
  {
    hide Spells, Trimmed;
    TextsNonBlank(msgs);
    JoinSpells(NonBlankTexts(msgs));
  }

  /** Merging in two parts and then merging the parts gives the same text and media as merging at once. */
  lemma MergeInParts(a: seq<ChatMessage>, b: seq<ChatMessage>)
    requires a != [] && b != []
    ensures NonBlankTexts(a + b) == NonBlankTexts(a) + NonBlankTexts(b)
    ensures AllMedia(a + b) == AllMedia(a) + AllMedia(b)
    ensures BuildMergedChatMessage([BuildMergedChatMessage(a), BuildMergedChatMessage(b)]).messageText
         == BuildMergedChatMessage(a + b).messageText
  {
    TextsConcat(a, b);
    MediaConcat(a, b);
    MergedTextSpells(a);
    MergedTextSpells(b);
    TextsNonBlank(a);
    TextsNonBlank(b);
    JoinSpells(NonBlankTexts(a));
    JoinSpells(NonBlankTexts(b));
    MergeTwo(BuildMergedChatMessage(a), BuildMergedChatMessage(b));
    if NonBlankTexts(a) != [] && NonBlankTexts(b) != [] {
      JoinConcat(NonBlankTexts(a), NonBlankTexts(b));
    } else if NonBlankTexts(a) == [] {
      assert NonBlankTexts(a) + NonBlankTexts(b) == NonBlankTexts(b);
    } else {
      assert NonBlankTexts(a) + NonBlankTexts(b) == NonBlankTexts(a);
    }
  }

  lemma MergeTwo(x: ChatMessage, y: ChatMessage)
    requires Trimmed(x.messageText) && Trimmed(y.messageText)
    ensures BuildMergedChatMessage([x, y]).messageText
         == if x.messageText == "" then y.messageText else if y.messageText == "" then x.messageText
            else x.messageText + SEPARATOR + y.messageText
  {
    hide Trim, Trimmed;
    TrimIsTrimmed(x.messageText);
    TrimIsTrimmed(y.messageText);
    assert [x, y][..1] == [x] && [x][..0] == [];
    assert NonBlankTexts([x]) == if x.messageText == "" then [] else [x.messageText];
    if x.messageText != "" && y.messageText != "" {
      assert NonBlankTexts([x, y]) == [x.messageText, y.messageText];
      assert [x.messageText, y.messageText][..1] == [x.messageText];
      assert Join([x.messageText, y.messageText]) == x.messageText + SEPARATOR + y.messageText;
    } else {
      assert NonBlankTexts([x, y]) == if x.messageText != "" then [x.messageText] else if y.messageText != "" then [y.messageText] else [];
    }
  }

  lemma {:induction false} TextsConcat(a: seq<ChatMessage>, b: seq<ChatMessage>)
    ensures NonBlankTexts(a + b) == NonBlankTexts(a) + NonBlankTexts(b)
  {
    hide Trim;
    if b == [] {
      assert a + b == a;
    } else {
      TextsConcat(a, b[..|b| - 1]);
      assert (a + b)[..|a + b| - 1] == a + b[..|b| - 1];
    }
  }

  lemma {:induction false} MediaConcat(a: seq<ChatMessage>, b: seq<ChatMessage>)
    ensures AllMedia(a + b) == AllMedia(a) + AllMedia(b)
  {
    if b == [] {
      assert a + b == a;
    } else {
      MediaConcat(a, b[..|b| - 1]);
      assert (a + b)[..|a + b| - 1] == a + b[..|b| - 1];
    }
  }
}
