/**
 * When the text of a terminal event reaches the reader: what the next flush of a closed run hands over, and that
 * nothing is handed over any more once the event counts as forwarded.
 */
module ForwarderTerminals {
  import opened Options
  import opened Text
  import opened GatewayForwarder
  import opened ForwarderText

  // ----- a flush that is not disturbed

  /** How many submissions a flush may still wait for. */
  function Left(f: Flush): nat {
    match f
    case Idle => 0
    case SendingTerminal(_) => 1
    case SendingDelta(_) => 2
    case SendingSignal(_, rest, _) => |rest| + 3
  }

  lemma {:induction false} DeltasLeft(r: Run, rest: seq<Delta>, latest: Option<Delta>)
    ensures Left(Deltas(r, rest, latest).flush) <= |rest| + 2
    decreases |rest|
  {
    hide Pending;
    if rest != [] {
      DeltasLeft(r, rest[1..], latest);
      DeltasLeft(Forwarded(r, rest[0]), rest[1..], Latest(rest[0], latest));
    }
  }

  lemma SettledLeft(r: Run)
    requires r.flush != Idle
    ensures Left(Settled(r).flush) < Left(r.flush)
  {
    hide Deltas, Pending;
    match r.flush
    case SendingSignal(d, rest, latest) => DeltasLeft(Forwarded(r, d), rest, Latest(d, latest));
    case _ =>
  }

  /** The run after a flush whose submissions all settle with nothing coming in between. */
  function Finished(r: Run): Run
    decreases Left(r.flush)
  {
    if r.flush == Idle then r
    else
      SettledLeft(r);
      Finished(Settled(r))
  }

  /** All deltas of a flush dealt with, signalled where signals are sent, and the latest of them with a text. */
  function Passed(r: Run, rest: seq<Delta>, latest: Option<Delta>): (Run, Option<Delta>)
    decreases |rest|
  {
    if rest == [] then (r, latest)
    else
      var d := rest[0];
      if !Truthy(r.backendMessageId) || d.seq_ <= r.lastForwardedSeq then Passed(r, rest[1..], latest)
      else
        var signalled := if r.forwardFinalOnly then r.(log := r.log + [Signal(d.seq_, r.backendMessageId.value)]) else r;
        Passed(Forwarded(signalled, d), rest[1..], Latest(d, latest))
  }

  /** The pending part of a delta's text is handed over: the run once that has settled. */
  function DeltaShown(r: Run, latest: Option<Delta>): Run {
    if r.primaryCompleted && latest.Some? && Truthy(latest.value.text) && latest.value.seq_ > r.lastRecoverySeq
       && Pending(Delivered(r), latest.value.text.value).Some? then
      r.(log := r.log + [Recovered(Pending(Delivered(r), latest.value.text.value).value, latest.value.seq_, false)],
         lastDelivered := latest.value.text, lastRecoverySeq := latest.value.seq_)
    else r
  }

  /** The run as a flush finds it when it comes to the terminal event. */
  function BeforeTerminal(r: Run, trace: Option<string>): Run {
    var s := Attached(r, trace);
    var (passed, latest) := Passed(s.(buffered := []), SortBySeq(s.buffered), None);
    DeltaShown(passed, latest)
  }

  lemma {:induction false} DeltasFinish(r: Run, rest: seq<Delta>, latest: Option<Delta>)
    ensures var (passed, last) := Passed(r, rest, latest);
            Finished(Deltas(r, rest, latest)) == Finished(RecoverDelta(passed.(flush := Idle), last))
    decreases |rest|
  {
    hide Pending, RecoverDelta;
    if rest == [] {
      FlushForgotten(r, latest);
    } else if !Truthy(r.backendMessageId) || rest[0].seq_ <= r.lastForwardedSeq {
      DeltasFinish(r, rest[1..], latest);
    } else if r.forwardFinalOnly {
      var d := rest[0];
      var sending := Deltas(r, rest, latest);
      var signalled := r.(log := r.log + [Signal(d.seq_, r.backendMessageId.value)]);
      assert Finished(sending) == Finished(Deltas(Forwarded(sending, d), rest[1..], Latest(d, latest)));
      DeltasFinish(Forwarded(sending, d), rest[1..], Latest(d, latest));
      assert Forwarded(sending, d) == Forwarded(signalled, d).(flush := sending.flush);
      SamePassed(Forwarded(signalled, d), sending.flush, rest[1..], Latest(d, latest));
    } else {
      DeltasFinish(Forwarded(r, rest[0]), rest[1..], Latest(rest[0], latest));
    }
  }

  lemma FlushForgotten(r: Run, latest: Option<Delta>)
    ensures RecoverDelta(r, latest) == RecoverDelta(r.(flush := Idle), latest)
  {
  }

  lemma {:induction false} SamePassed(r: Run, flush: Flush, rest: seq<Delta>, latest: Option<Delta>)
    ensures var (a, x) := Passed(r, rest, latest);
            var (b, y) := Passed(r.(flush := flush), rest, latest);
            x == y && b.(flush := Idle) == a.(flush := Idle)
    decreases |rest|
  {
    if rest != [] {
      var d := rest[0];
      SamePassed(r, flush, rest[1..], latest);
      var signalled := if r.forwardFinalOnly && Truthy(r.backendMessageId)
                       then r.(log := r.log + [Signal(d.seq_, r.backendMessageId.value)]) else r;
      SamePassed(Forwarded(signalled, d), flush, rest[1..], Latest(d, latest));
      assert Forwarded(signalled.(flush := flush), d) == Forwarded(signalled, d).(flush := flush);
    }
  }

  lemma {:induction false} PassedKeeps(r: Run, rest: seq<Delta>, latest: Option<Delta>)
    ensures var s := Passed(r, rest, latest).0;
            && s == r.(log := s.log, lastForwardedSeq := s.lastForwardedSeq)
            && r.log <= s.log && forall i :: |r.log| <= i < |s.log| ==> s.log[i].Signal?
    decreases |rest|
  {
    if rest != [] {
      var d := rest[0];
      PassedKeeps(r, rest[1..], latest);
      var signalled := if r.forwardFinalOnly && Truthy(r.backendMessageId)
                       then r.(log := r.log + [Signal(d.seq_, r.backendMessageId.value)]) else r;
      PassedKeeps(Forwarded(signalled, d), rest[1..], Latest(d, latest));
    }
  }

  /** The terminal event, as the flush comes to it, has a part that is pending and has not been dealt with. */
  predicate Owed(r: Run) {
    && r.terminalSeq.Some? && Truthy(r.terminalText)
    && Pending(Delivered(r), r.terminalText.value).Some?
    && r.terminalSeq.value > r.lastForwardedTerminalSeq && r.terminalSeq.value > r.lastRecoverySeq
  }

  predicate HandsOver(log: seq<Output>, from: nat) {
    exists i :: from <= i < |log| && log[i].Recovered? && log[i].terminal
  }

  lemma TerminalFinishes(r: Run)
    requires r.primaryCompleted
    ensures var f := Finished(RecoverTerminal(r));
            && f.flush == Idle
            && f.log == r.log + if Owed(r) then [Recovered(Pending(Delivered(r), r.terminalText.value).value, r.terminalSeq.value, true)] else []
  {
    hide Pending;
    var s := RecoverTerminal(r);
    if s.flush != Idle {
      assert Finished(s) == Finished(Settled(s));
    }
  }

  lemma DeltaFinishes(r: Run, latest: Option<Delta>)
    requires r.primaryCompleted && r.flush == Idle
    ensures Finished(RecoverDelta(r, latest)) == Finished(RecoverTerminal(DeltaShown(r, latest)))
  {
    hide Pending, RecoverTerminal;
    var s := RecoverDelta(r, latest);
    if latest.Some? && Truthy(latest.value.text) && latest.value.seq_ > r.lastRecoverySeq
       && Pending(Delivered(r), latest.value.text.value).Some? {
      assert Finished(s) == Finished(Settled(s));
      assert Settled(s) == RecoverTerminal(DeltaShown(r, latest).(flush := s.flush));
      TerminalForgets(DeltaShown(r, latest), s.flush);
    }
  }

  lemma TerminalForgets(r: Run, flush: Flush)
    ensures RecoverTerminal(r.(flush := flush)) == RecoverTerminal(r)
  {
  }

  /**
   * The next flush of a closed and correlated run, left to itself, hands over the pending part of the terminal
   * text if and only if there is one, and the terminal event is numbered above every terminal forwarded and
   * above the last recovery, that of the waiting deltas included. Nothing else of the kind goes out.
   */
  lemma NextFlushHandsOver(r: Run, trace: Option<string>)
    requires r.flush == Idle && r.primaryCompleted && Truthy(Attached(r, trace).backendMessageId)
    ensures var f := Finished(Started(r, trace));
            var b := BeforeTerminal(r, trace);
            && f.flush == Idle && r.log <= b.log
            && f.log == b.log + (if Owed(b) then [Recovered(Pending(Delivered(b), b.terminalText.value).value, b.terminalSeq.value, true)] else [])
            && (HandsOver(f.log, |r.log|) <==> Owed(b))
            && b.terminalSeq == r.terminalSeq && b.terminalText == r.terminalText
            && b.lastForwardedTerminalSeq == r.lastForwardedTerminalSeq
    ensures r.buffered == [] ==> (Owed(BeforeTerminal(r, trace)) <==> Owed(r))
  {
    hide Deltas, Passed, RecoverTerminal, Pending, RecoverDelta, SortBySeq, Finished;
    var s := Attached(r, trace).(buffered := []);
    var deltas := SortBySeq(r.buffered);
    DeltasFinish(s, deltas, None);
    PassedKeeps(s, deltas, None);
    var (passed, latest) := Passed(s, deltas, None);
    DeltaFinishes(passed, latest);
    var b := DeltaShown(passed, latest);
    TerminalFinishes(b);
    var f := Finished(Started(r, trace));
    assert forall i :: |r.log| <= i < |b.log| ==> !(b.log[i].Recovered? && b.log[i].terminal);
    if Owed(b) {
      assert f.log[|b.log|].Recovered? && f.log[|b.log|].terminal;
    } else {
      assert f.log == b.log;
    }
    if r.buffered == [] {
      NothingWaits(s);
    }
  }

  lemma NothingWaits(s: Run)
    ensures SortBySeq([]) == [] && Passed(s, [], None) == (s, None)
  {
  }

  // ----- later runs

  function RunOn(r: Run, actions: seq<Action>): Run {
    if actions == [] then r else Step(RunOn(r, actions[..|actions| - 1]), actions[|actions| - 1])
  }

  /** Going on from a run is the run over all its actions. */
  lemma {:induction false} RunOnIsAfter(forwardFinalOnly: bool, before: seq<Action>, later: seq<Action>)
    ensures RunOn(After(forwardFinalOnly, before), later) == After(forwardFinalOnly, before + later)
  {
    hide Step;
    if later == [] {
      assert before + later == before;
    } else {
      RunOnIsAfter(forwardFinalOnly, before, later[..|later| - 1]);
      assert (before + later)[..|before + later| - 1] == before + later[..|later| - 1];
    }
  }

  predicate NoTerminals(actions: seq<Action>) {
    forall i :: 0 <= i < |actions| ==> !actions[i].TerminalArrives?
  }

  /** The terminal event counts as forwarded. */
  predicate Marked(r: Run) {
    r.terminalSeq.Some? && r.terminalSeq.value <= r.lastForwardedTerminalSeq
  }

  predicate DeltasHaveText(r: Run) {
    r.flush.SendingDelta? ==> Truthy(r.flush.recovered.text)
  }

  /** What the rest of a flush, coming from r, does about the terminal event. */
  predicate TerminalDealt(r: Run, s: Run) {
    && s.terminalSeq == r.terminalSeq && s.terminalText == r.terminalText
    && r.lastForwardedTerminalSeq <= s.lastForwardedTerminalSeq
    && r.log <= s.log && |s.log| <= |r.log| + 1 && DeltasHaveText(s)
    && (|s.log| > |r.log| ==> !s.log[|r.log|].Adopted?)
    && (Marked(r) ==> !HandsOver(s.log, |r.log|))
    && (s.flush.SendingTerminal? ==> !Marked(s) && HandsOver(s.log, |r.log|))
    && (!Marked(r) && Marked(s) ==> Truthy(r.terminalText) && Trim(r.terminalText.value) in {"", Delivered(r)})
  }

  lemma TerminalDeals(r: Run)
    ensures TerminalDealt(r, RecoverTerminal(r))
  {
    hide Pending, Trimmed, Trim;
    DeliveredTrimmed(r);
    if Truthy(r.terminalText) {
      PendingFacts(Delivered(r), r.terminalText.value);
    }
    var s := RecoverTerminal(r);
    if |s.log| > |r.log| {
      assert s.log[|r.log|].terminal;
    }
  }

  lemma {:induction false} DeltasDeal(r: Run, rest: seq<Delta>, latest: Option<Delta>)
    ensures TerminalDealt(r, Deltas(r, rest, latest))
    decreases |rest|
  {
    hide Pending, Trim, RecoverTerminal;
    if rest == [] {
      TerminalDeals(r);
    } else if !Truthy(r.backendMessageId) || rest[0].seq_ <= r.lastForwardedSeq {
      DeltasDeal(r, rest[1..], latest);
    } else if !r.forwardFinalOnly {
      DeltasDeal(Forwarded(r, rest[0]), rest[1..], Latest(rest[0], latest));
    }
  }

  /** What any step but the arrival of another terminal event does about the terminal event. */
  lemma StepDeals(r: Run, a: Action)
    requires !a.TerminalArrives? && DeltasHaveText(r)
    ensures var s := Step(r, a);
            && s.terminalSeq == r.terminalSeq && s.terminalText == r.terminalText
            && r.lastForwardedTerminalSeq <= s.lastForwardedTerminalSeq
            && r.log <= s.log && DeltasHaveText(s)
            && (Marked(r) || r.flush.SendingTerminal? ==> !HandsOver(s.log, |r.log|))
            && (r.flush.SendingTerminal? ==> s.flush == r.flush || (r.terminalSeq.Some? ==> Marked(s)))
            && (r.flush.SendingTerminal? && !Marked(r) && !Marked(s) && r.terminalSeq.Some? ==> s.flush == r.flush)
            && (!r.flush.SendingTerminal? && s.flush.SendingTerminal? ==> HandsOver(s.log, |r.log|))
            && (!r.flush.SendingTerminal? && !Marked(r) && Marked(s) ==>
                  Truthy(r.terminalText) && Trim(r.terminalText.value) in {"", Current(r)})
  {
    hide Deltas, RecoverTerminal, Pending, Trim, SortBySeq, TreatsTerminalAsDelivered, Plain, HasSeq;
    match a
    case DeltaArrives(_, _, _) =>
    case CloseRun(_) =>
    case FlushStarts(trace) =>
      if r.flush == Idle && Truthy(Attached(r, trace).backendMessageId) {
        DeltasDeal(Attached(r, trace).(buffered := []), SortBySeq(r.buffered), None);
      }
    case SendSettles =>
      match r.flush {
        case Idle =>
        case SendingSignal(d, rest, latest) => DeltasDeal(Forwarded(r, d), rest, Latest(d, latest));
        case SendingDelta(d) => TerminalDeals(r.(lastDelivered := d.text, lastRecoverySeq := d.seq_));
        case SendingTerminal(_) =>
      }
  }

  lemma {:induction false} RunOnDeals(r: Run, later: seq<Action>)
    requires NoTerminals(later) && DeltasHaveText(r)
    ensures var s := RunOn(r, later);
            && s.terminalSeq == r.terminalSeq && s.terminalText == r.terminalText && DeltasHaveText(s)
            && r.lastForwardedTerminalSeq <= s.lastForwardedTerminalSeq && r.log <= s.log
  {
    hide Step, DeltasHaveText;
    if later != [] {
      var n := |later| - 1;
      RunOnDeals(r, later[..n]);
      StepDeals(RunOn(r, later[..n]), later[n]);
    }
  }

  lemma {:induction false} MarkedStays(r: Run, later: seq<Action>)
    requires NoTerminals(later) && DeltasHaveText(r) && Marked(r)
    ensures Marked(RunOn(r, later)) && r.log <= RunOn(r, later).log && !HandsOver(RunOn(r, later).log, |r.log|)
  {
    hide Step, DeltasHaveText;
    if later != [] {
      var n := |later| - 1;
      MarkedStays(r, later[..n]);
      RunOnDeals(r, later[..n]);
      StepDeals(RunOn(r, later[..n]), later[n]);
    }
  }

  /**
   * Over every run: once the terminal event counts as forwarded, no continuation without a new one, however many
   * flushes it has, hands over any of its text.
   */
  lemma MarkedNeverSent(forwardFinalOnly: bool, before: seq<Action>, later: seq<Action>)
    requires NoTerminals(later) && Marked(After(forwardFinalOnly, before))
    ensures
      var r, s := After(forwardFinalOnly, before), After(forwardFinalOnly, before + later);
      Marked(s) && r.log <= s.log && !HandsOver(s.log, |r.log|)
  {
    hide After, DeltasHaveText, Marked, RunOn;
    TextsAreThere(forwardFinalOnly, before);
    MarkedStays(After(forwardFinalOnly, before), later);
    RunOnIsAfter(forwardFinalOnly, before, later);
  }

  lemma RunOnLast(r: Run, later: seq<Action>)
    requires later != []
    ensures RunOn(r, later) == Step(RunOn(r, later[..|later| - 1]), later[|later| - 1])
  {
    hide Step;
  }

  lemma {:induction false} TextsAreThere(forwardFinalOnly: bool, actions: seq<Action>)
    ensures DeltasHaveText(After(forwardFinalOnly, actions))
  {
    hide Step;
    if actions != [] {
      var n := |actions| - 1;
      TextsAreThere(forwardFinalOnly, actions[..n]);
      if !actions[n].TerminalArrives? {
        StepDeals(After(forwardFinalOnly, actions[..n]), actions[n]);
      } else {
        ArrivalHasText(After(forwardFinalOnly, actions[..n]), actions[n]);
      }
    }
  }

  lemma ArrivalHasText(r: Run, a: Action)
    requires DeltasHaveText(r) && a.TerminalArrives?
    ensures DeltasHaveText(Step(r, a))
  {
  }

  /**
   * Over every run: a terminal event that comes in while a terminal text is being sent counts as forwarded as soon as
   * that submission settles, and nothing of its text is handed over from its arrival on.
   */
  lemma LateTerminalNeverSent(
    forwardFinalOnly: bool, before: seq<Action>, n: nat, message: Option<string>, trace: Option<string>, later: seq<Action>)
    requires NoTerminals(later) && After(forwardFinalOnly, before).flush.SendingTerminal?
    ensures
      var r := After(forwardFinalOnly, before);
      var settled := Step(Step(r, TerminalArrives(n, message, trace)), SendSettles);
      && settled.terminalSeq == Some(n) && settled.terminalText == Plain(message) && Marked(settled) && settled.log == r.log
      && r.log <= RunOn(settled, later).log && !HandsOver(RunOn(settled, later).log, |r.log|)
  {
    hide After, Plain, RunOn;
    var r := After(forwardFinalOnly, before);
    MarkedStays(Step(Step(r, TerminalArrives(n, message, trace)), SendSettles), later);
  }
}
