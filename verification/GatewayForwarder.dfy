/**
 * One run's state in the gateway event forwarder. Every `await` of a flush is a step boundary: a step ends
 * when a submission is handed to the backend, and other events may come in before it settles. Which timer
 * fires when is left open: a flush may get its turn at any moment at which none is under way.
 */
module GatewayForwarder {
  import opened Options
  import opened Text

  datatype Delta = Delta(seq_: nat, text: Option<string>, receivedOrder: nat)

  /** Where the flush under way is waiting. */
  datatype Flush =
    | Idle
    | SendingSignal(delta: Delta, rest: seq<Delta>, latest: Option<Delta>)
    | SendingDelta(recovered: Delta)
    | SendingTerminal(text: string)

  /**
   * What has been handed to the backend, and the primary reply taken as delivered, in order; a recovery says
   * whether it is for a delta or for a terminal event.
   */
  datatype Output =
    | Signal(seq_: nat, backendMessageId: string)
    | Recovered(piece: string, seq_: nat, terminal: bool)
    | Adopted(text: string)

  datatype Run = Run(
    forwardFinalOnly: bool,
    backendMessageId: Option<string>,
    lastForwardedSeq: int,
    lastRecoverySeq: int,
    primaryCompleted: bool,
    lastDelivered: Option<string>,
    terminalSeq: Option<nat>,
    terminalText: Option<string>,
    lastForwardedTerminalSeq: int,
    buffered: seq<Delta>,
    nextReceivedOrder: nat,
    flush: Flush,
    log: seq<Output>)

  /** What can happen to a run; trace is the correlation known at that moment, if any. */
  datatype Action =
    | DeltaArrives(seq_: nat, message: Option<string>, trace: Option<string>)
    | TerminalArrives(seq_: nat, message: Option<string>, trace: Option<string>)
    | CloseRun(reason: string)
    | FlushStarts(trace: Option<string>)
    | SendSettles

  function NewRun(forwardFinalOnly: bool): Run {
    Run(forwardFinalOnly, None, -1, -1, false, None, None, None, -1, [], 0, Idle, [])
  }

  /** A string that is there and not empty. */
  predicate Truthy(s: Option<string>) {
    s.Some? && s.value != ""
  }

  function Plain(message: Option<string>): Option<string> {
    if message.Some? && Trim(message.value) != "" then Some(Trim(message.value)) else None
  }

  function Max(a: int, b: int): int {
    if a < b then b else a
  }

  // ----- close reasons

  function Lower(s: string): string {
    seq(|s|, i requires 0 <= i < |s| => if 'A' <= s[i] <= 'Z' then s[i] - 'A' + 'a' else s[i])
  }

  predicate Contains(s: string, word: string) {
    exists i :: 0 <= i <= |s| && word <= s[i..]
  }

  predicate TreatsTerminalAsDelivered(reason: string) {
    var r := Lower(reason);
    !(Contains(r, "aborted") || Contains(r, "error") || Contains(r, "timeout") || Contains(r, "failed")
      || Contains(r, "no_message") || Contains(r, "no_reply"))
  }

  // ----- the text still to be shown

  function Delivered(r: Run): string {
    if r.lastDelivered.Some? then Trim(r.lastDelivered.value) else ""
  }

  /** The part of the text that the delivered text does not already show, if there is one. */
  function Pending(delivered: string, text: string): Option<string> {
    var whole := Trim(text);
    if whole == "" then None
    else if delivered == "" then Some(whole)
    else if whole == delivered then None
    else if delivered <= whole then
      var suffix := Trim(whole[|delivered|..]);
      if suffix == "" then None else Some(suffix)
    else Some(whole)
  }

  // ----- the steps of a flush

  function InsertBySeq(s: seq<Delta>, d: Delta): seq<Delta> {
    if s == [] then [d]
    else if d.seq_ < s[0].seq_ || (d.seq_ == s[0].seq_ && d.receivedOrder < s[0].receivedOrder) then [d] + s
    else [s[0]] + InsertBySeq(s[1..], d)
  }

  function SortBySeq(s: seq<Delta>): seq<Delta> {
    if s == [] then [] else InsertBySeq(SortBySeq(s[..|s| - 1]), s[|s| - 1])
  }

  function Attached(r: Run, trace: Option<string>): Run {
    if Truthy(r.backendMessageId) || !Truthy(trace) then r else r.(backendMessageId := trace)
  }

  function Forwarded(r: Run, d: Delta): Run {
    r.(lastForwardedSeq := Max(r.lastForwardedSeq, d.seq_))
  }

  function Latest(d: Delta, latest: Option<Delta>): Option<Delta> {
    if Truthy(d.text) then Some(d) else latest
  }

  /** The loop over the deltas of a flush, up to its first submission or through to what follows it. */
  function Deltas(r: Run, rest: seq<Delta>, latest: Option<Delta>): Run
    decreases |rest|
  {
    if rest == [] then RecoverDelta(r, latest)
    else
      var d := rest[0];
      if !Truthy(r.backendMessageId) || d.seq_ <= r.lastForwardedSeq then Deltas(r, rest[1..], latest)
      else if r.forwardFinalOnly then
        r.(log := r.log + [Signal(d.seq_, r.backendMessageId.value)], flush := SendingSignal(d, rest[1..], latest))
      else Deltas(Forwarded(r, d), rest[1..], Latest(d, latest))
  }

  function RecoverDelta(r: Run, latest: Option<Delta>): Run {
    if r.primaryCompleted && latest.Some? && Truthy(latest.value.text) then
      var pending := Pending(Delivered(r), latest.value.text.value);
      if pending.Some? && latest.value.seq_ > r.lastRecoverySeq then
        r.(log := r.log + [Recovered(pending.value, latest.value.seq_, false)], flush := SendingDelta(latest.value))
      else RecoverTerminal(r)
    else RecoverTerminal(r)
  }

  function RecoverTerminal(r: Run): Run {
    if r.primaryCompleted && r.terminalSeq.Some? && r.terminalSeq.value > r.lastForwardedTerminalSeq
       && r.terminalSeq.value > r.lastRecoverySeq && Truthy(r.terminalText) then
      var pending := Pending(Delivered(r), r.terminalText.value);
      if pending.Some? then
        r.(log := r.log + [Recovered(pending.value, r.terminalSeq.value, true)], flush := SendingTerminal(r.terminalText.value))
      else r.(lastForwardedTerminalSeq := Max(r.lastForwardedTerminalSeq, r.terminalSeq.value), flush := Idle)
    else r.(flush := Idle)
  }

  /** The submission the flush waits for has settled, well or badly: the flush goes on to its next one. */
  function Settled(r: Run): Run {
    match r.flush
    case Idle => r
    case SendingSignal(d, rest, latest) => Deltas(Forwarded(r, d), rest, Latest(d, latest))
    case SendingDelta(d) => RecoverTerminal(r.(lastDelivered := d.text, lastRecoverySeq := d.seq_))
    case SendingTerminal(_) =>
      r.(lastDelivered := r.terminalText,
         lastForwardedTerminalSeq := if r.terminalSeq.Some? then Max(r.lastForwardedTerminalSeq, r.terminalSeq.value)
                                     else r.lastForwardedTerminalSeq,
         flush := Idle)
  }

  function Started(r: Run, trace: Option<string>): Run {
    if r.flush != Idle then r
    else
      var s := Attached(r, trace);
      if !Truthy(s.backendMessageId) then s
      else Deltas(s.(buffered := []), SortBySeq(s.buffered), None)
  }

  predicate HasSeq(deltas: seq<Delta>, n: nat) {
    exists i :: 0 <= i < |deltas| && deltas[i].seq_ == n
  }

  function Step(r: Run, a: Action): Run {
    match a
    case DeltaArrives(n, message, trace) =>
      var s := Attached(r, trace);
      if n <= s.lastForwardedSeq || HasSeq(s.buffered, n) then s
      else s.(buffered := s.buffered + [Delta(n, Plain(message), s.nextReceivedOrder)],
              nextReceivedOrder := s.nextReceivedOrder + 1)
    case TerminalArrives(n, message, trace) =>
      Attached(r, trace).(terminalSeq := Some(n), terminalText := Plain(message))
    case CloseRun(reason) =>
      if TreatsTerminalAsDelivered(reason) && Truthy(r.terminalText) && !Truthy(r.lastDelivered) then
        r.(primaryCompleted := true, lastDelivered := r.terminalText, log := r.log + [Adopted(r.terminalText.value)])
      else r.(primaryCompleted := true)
    case FlushStarts(trace) => Started(r, trace)
    case SendSettles => Settled(r)
  }

  function After(forwardFinalOnly: bool, actions: seq<Action>): Run {
    if actions == [] then NewRun(forwardFinalOnly)
    else Step(After(forwardFinalOnly, actions[..|actions| - 1]), actions[|actions| - 1])
  }

  // ----- the run as the forwarder updates it

  class RunForwardState {
    const forwardFinalOnly: bool
    var backendMessageId: Option<string>
    var lastForwardedSeq: int
    var lastRecoverySeq: int
    var primaryCompleted: bool
    var lastDelivered: Option<string>
    var terminalSeq: Option<nat>
    var terminalText: Option<string>
    var lastForwardedTerminalSeq: int
    var buffered: seq<Delta>
    var nextReceivedOrder: nat
    var flush: Flush
    var log: seq<Output>

    ghost function Value(): Run
      reads this
    {
      Run(forwardFinalOnly, backendMessageId, lastForwardedSeq, lastRecoverySeq, primaryCompleted, lastDelivered,
          terminalSeq, terminalText, lastForwardedTerminalSeq, buffered, nextReceivedOrder, flush, log)
    }

    constructor (forwardFinalOnly: bool)
      ensures Value() == NewRun(forwardFinalOnly)
    {
      this.forwardFinalOnly := forwardFinalOnly;
      backendMessageId := None;
      lastForwardedSeq, lastRecoverySeq, lastForwardedTerminalSeq := -1, -1, -1;
      primaryCompleted := false;
      lastDelivered, terminalSeq, terminalText := None, None, None;
      buffered, nextReceivedOrder := [], 0;
      flush, log := Idle, [];
    }

    method AttachTrace(trace: Option<string>)
      modifies this
      ensures Value() == Attached(old(Value()), trace)
    {
      if !Truthy(backendMessageId) && Truthy(trace) {
        backendMessageId := trace;
      }
    }

    method Forward(a: Action)
      requires a.DeltaArrives? || a.TerminalArrives?
      modifies this
      ensures Value() == Step(old(Value()), a)
    {
      AttachTrace(a.trace);
      if a.TerminalArrives? {
        terminalSeq, terminalText := Some(a.seq_), Plain(a.message);
        return;
      }
      if a.seq_ <= lastForwardedSeq || HasSeq(buffered, a.seq_) {
        return;
      }
      buffered := buffered + [Delta(a.seq_, Plain(a.message), nextReceivedOrder)];
      nextReceivedOrder := nextReceivedOrder + 1;
    }

    method Close(reason: string)
      modifies this
      ensures Value() == Step(old(Value()), CloseRun(reason))
    {
      primaryCompleted := true;
      if TreatsTerminalAsDelivered(reason) && Truthy(terminalText) && !Truthy(lastDelivered) {
        lastDelivered := terminalText;
        log := log + [Adopted(terminalText.value)];
      }
    }

    /** A queued flush gets its turn. */
    method FlushBufferedSignals(trace: Option<string>)
      requires flush == Idle
      modifies this
      ensures Value() == Step(old(Value()), FlushStarts(trace))
    {
      AttachTrace(trace);
      if !Truthy(backendMessageId) {
        return;
      }
      var deltas := SortBySeq(buffered);
      buffered := [];
      SendDeltas(deltas, None);
    }

    /** The loop over the deltas; it leaves off where a submission is under way. */
    method SendDeltas(deltas: seq<Delta>, latestSoFar: Option<Delta>)
      modifies this
      ensures Value() == Deltas(old(Value()), deltas, latestSoFar)
    {
      var latest := latestSoFar;
      var i := 0;
      while i < |deltas|
        invariant 0 <= i <= |deltas|
        invariant Deltas(Value(), deltas[i..], latest) == Deltas(old(Value()), deltas, latestSoFar)
      {
        var delta := deltas[i];
        assert deltas[i..][0] == delta && deltas[i..][1..] == deltas[i + 1..];
        if Truthy(backendMessageId) && delta.seq_ > lastForwardedSeq {
          if forwardFinalOnly {
            log := log + [Signal(delta.seq_, backendMessageId.value)];
            flush := SendingSignal(delta, deltas[i + 1..], latest);
            return;
          }
          latest := Latest(delta, latest);
          lastForwardedSeq := Max(lastForwardedSeq, delta.seq_);
        }
        i := i + 1;
      }
      SendDeltaRecovery(latest);
    }

    method SendDeltaRecovery(latest: Option<Delta>)
      modifies this
      ensures Value() == RecoverDelta(old(Value()), latest)
    {
      if primaryCompleted && latest.Some? && Truthy(latest.value.text) {
        var delivered := if lastDelivered.Some? then Trim(lastDelivered.value) else "";
        var pending := Pending(delivered, latest.value.text.value);
        if pending.Some? && latest.value.seq_ > lastRecoverySeq {
          log := log + [Recovered(pending.value, latest.value.seq_, false)];
          flush := SendingDelta(latest.value);
          return;
        }
      }
      SendTerminalRecovery();
    }

    method SendTerminalRecovery()
      modifies this
      ensures Value() == RecoverTerminal(old(Value()))
    {
      flush := Idle;
      if primaryCompleted && terminalSeq.Some? && terminalSeq.value > lastForwardedTerminalSeq
         && terminalSeq.value > lastRecoverySeq && Truthy(terminalText) {
        var delivered := if lastDelivered.Some? then Trim(lastDelivered.value) else "";
        var pending := Pending(delivered, terminalText.value);
        if pending.Some? {
          log := log + [Recovered(pending.value, terminalSeq.value, true)];
          flush := SendingTerminal(terminalText.value);
          return;
        }
        lastForwardedTerminalSeq := Max(lastForwardedTerminalSeq, terminalSeq.value);
      }
    }

    method SubmissionSettled()
      modifies this
      ensures Value() == Step(old(Value()), SendSettles)
    {
      match flush
      case Idle =>
      case SendingSignal(delta, rest, latest) =>
        lastForwardedSeq := Max(lastForwardedSeq, delta.seq_);
        SendDeltas(rest, Latest(delta, latest));
      case SendingDelta(delta) =>
        lastDelivered, lastRecoverySeq := delta.text, delta.seq_;
        SendTerminalRecovery();
      case SendingTerminal(_) =>
        lastDelivered := terminalText;
        if terminalSeq.Some? {
          lastForwardedTerminalSeq := Max(lastForwardedTerminalSeq, terminalSeq.value);
        }
        flush := Idle;
    }
  }
}
