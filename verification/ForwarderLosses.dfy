/**
 * Exactly which terminal events lose their text. A flush of a closed run looks at the last terminal event once; what it
 * finds then decides, over every run, whether any of the text is ever handed over.
 */
module ForwarderLosses {
  import opened Options
  import opened Text
  import opened GatewayForwarder
  import opened ForwarderText
  import opened ForwarderTerminals

  // ----- looking at the terminal event

  function TerminalLook(r: Run): Option<Run> {
    if r.primaryCompleted then Some(r) else None
  }

  function DeltaLook(r: Run, latest: Option<Delta>): Option<Run> {
    if r.primaryCompleted && latest.Some? && Truthy(latest.value.text) && latest.value.seq_ > r.lastRecoverySeq
       && Pending(Delivered(r), latest.value.text.value).Some?
    then None else TerminalLook(r)
  }

  function DeltasLook(r: Run, rest: seq<Delta>, latest: Option<Delta>): Option<Run>
    decreases |rest|
  {
    if rest == [] then DeltaLook(r, latest)
    else
      var d := rest[0];
      if !Truthy(r.backendMessageId) || d.seq_ <= r.lastForwardedSeq then DeltasLook(r, rest[1..], latest)
      else if r.forwardFinalOnly then None
      else DeltasLook(Forwarded(r, d), rest[1..], Latest(d, latest))
  }

  /** The run as a flush finds it when, in this step, it comes to the terminal event of a closed run; if it does. */
  function Look(r: Run, a: Action): Option<Run> {
    match a
    case FlushStarts(trace) =>
      var s := Attached(r, trace);
      if r.flush == Idle && Truthy(s.backendMessageId) then DeltasLook(s.(buffered := []), SortBySeq(s.buffered), None) else None
    case SendSettles =>
      (match r.flush
       case SendingSignal(d, rest, latest) => DeltasLook(Forwarded(r, d), rest, Latest(d, latest))
       case SendingDelta(d) => TerminalLook(r.(lastDelivered := d.text, lastRecoverySeq := d.seq_))
       case _ => None)
    case _ => None
  }

  /** A delta text is being sent only on a closed run, and with a number above those recovered. */
  predicate Orderly(r: Run) {
    r.flush.SendingDelta? ==> r.primaryCompleted && Truthy(r.flush.recovered.text) && r.flush.recovered.seq_ > r.lastRecoverySeq
  }

  /** The same as far as the terminal event is concerned. */
  predicate SameTerminal(r: Run, s: Run) {
    && s.terminalSeq == r.terminalSeq && s.terminalText == r.terminalText
    && s.lastForwardedTerminalSeq == r.lastForwardedTerminalSeq
  }

  /** What a part of a flush that hands over at most one thing does, when it does not come to the terminal event. */
  predicate PassesBy(r: Run, s: Run) {
    && SameTerminal(r, s) && s.lastRecoverySeq == r.lastRecoverySeq && s.lastDelivered == r.lastDelivered
    && s.primaryCompleted == r.primaryCompleted && r.log <= s.log && !s.flush.SendingTerminal? && Orderly(s)
    && (s.flush.SendingDelta? ==> Current(s) !in {"", Delivered(r)} && Gives(r, s) == Some(Current(s)))
    && (!s.flush.SendingDelta? ==> Gives(r, s) == None)
    && !HandsOver(s.log, |r.log|) && (r.primaryCompleted ==> s.flush != Idle)
  }

  /** The text of which this step hands over a part, or which it adopts. */
  function Gives(r: Run, s: Run): Option<string> {
    if |s.log| <= |r.log| then None
    else
      match s.log[|r.log|]
      case Signal(_, _) => None
      case Recovered(_, _, _) => Some(Trim(InFlight(s.flush)))
      case Adopted(text) => Some(Trim(text))
  }

  lemma {:induction false} DeltasLookOrPass(r: Run, rest: seq<Delta>, latest: Option<Delta>)
    ensures
      match DeltasLook(r, rest, latest)
      case Some(x) => Deltas(r, rest, latest) == RecoverTerminal(x) && x == r.(lastForwardedSeq := x.lastForwardedSeq) && x.primaryCompleted
      case None => PassesBy(r, Deltas(r, rest, latest))
    decreases |rest|
  {
    hide RecoverTerminal, Pending, Trim;
    if rest == [] {
      DeltaLookOrPass(r, latest);
    } else if !Truthy(r.backendMessageId) || rest[0].seq_ <= r.lastForwardedSeq {
      DeltasLookOrPass(r, rest[1..], latest);
    } else if !r.forwardFinalOnly {
      DeltasLookOrPass(Forwarded(r, rest[0]), rest[1..], Latest(rest[0], latest));
    }
  }

  lemma DeltaLookOrPass(r: Run, latest: Option<Delta>)
    ensures
      match DeltaLook(r, latest)
      case Some(x) => RecoverDelta(r, latest) == RecoverTerminal(x) && x == r && x.primaryCompleted
      case None => PassesBy(r, RecoverDelta(r, latest))
  {
    hide Pending, Trim, Trimmed;
    DeliveredTrimmed(r);
    if latest.Some? && Truthy(latest.value.text) {
      PendingFacts(Delivered(r), latest.value.text.value);
    }
  }

  /** The close takes the terminal text as the primary reply. */
  predicate Adopting(r: Run, a: Action) {
    a.CloseRun? && TreatsTerminalAsDelivered(a.reason) && Truthy(r.terminalText) && !Truthy(r.lastDelivered)
  }

  /** A step that comes to the terminal event, coming to it as x. */
  predicate ComesTo(r: Run, s: Run, x: Run) {
    && s == RecoverTerminal(x) && x.primaryCompleted && !r.flush.SendingTerminal?
    && SameTerminal(r, x) && x.log == r.log && r.lastRecoverySeq <= x.lastRecoverySeq && Delivered(x) == Current(r)
  }

  /** A step that does not. */
  predicate StepsBy(r: Run, a: Action, s: Run) {
    && s.terminalSeq == r.terminalSeq && s.terminalText == r.terminalText && s.lastRecoverySeq == r.lastRecoverySeq
    && (r.primaryCompleted ==> s.primaryCompleted) && r.log <= s.log && Orderly(s) && !HandsOver(s.log, |r.log|)
    && (if r.flush.SendingTerminal? then
          || (s.flush == r.flush && s.lastForwardedTerminalSeq == r.lastForwardedTerminalSeq && (Adopting(r, a) || Gives(r, s) == None))
          || (s.flush == Idle && s.lastDelivered == r.terminalText && Gives(r, s) == None && (r.terminalSeq.Some? ==> Marked(s)))
        else
          SameTerminal(r, s) && !s.flush.SendingTerminal? && (Adopting(r, a) || GivesDelta(r, s)))
    && (Adopting(r, a) ==> Gives(r, s) == Some(Trim(r.terminalText.value)))
  }

  /** At most the text of a delta is given, one that was not the last text shown. */
  predicate GivesDelta(r: Run, s: Run) {
    if s.flush.SendingDelta? && !r.flush.SendingDelta? then Gives(r, s) == Some(Current(s)) && Current(s) !in {"", Current(r)}
    else Gives(r, s) == None && Current(s) == Current(r)
  }

  predicate LooksOrPasses(r: Run, a: Action) {
    match Look(r, a)
    case Some(x) => ComesTo(r, Step(r, a), x)
    case None => StepsBy(r, a, Step(r, a))
  }

  lemma StepLooksOrPasses(r: Run, a: Action)
    requires !a.TerminalArrives? && Orderly(r)
    ensures LooksOrPasses(r, a)
  {
    hide LooksOrPasses;
    match a
    case DeltaArrives(_, _, _) => ArrivalPasses(r, a);
    case CloseRun(_) => ClosePasses(r, a);
    case FlushStarts(_) => StartLooksOrPasses(r, a);
    case SendSettles => SettleLooksOrPasses(r, a);
  }

  lemma ArrivalPasses(r: Run, a: Action)
    requires a.DeltaArrives? && Orderly(r)
    ensures LooksOrPasses(r, a)
  {
    hide Trim, Plain, HasSeq;
  }

  lemma ClosePasses(r: Run, a: Action)
    requires a.CloseRun? && Orderly(r)
    ensures LooksOrPasses(r, a)
  {
    hide Trim, TreatsTerminalAsDelivered;
  }

  lemma StartLooksOrPasses(r: Run, a: Action)
    requires a.FlushStarts? && Orderly(r)
    ensures LooksOrPasses(r, a)
  {
    hide Deltas, DeltasLook, RecoverTerminal, Trim, SortBySeq;
    if r.flush == Idle && Truthy(Attached(r, a.trace).backendMessageId) {
      DeltasLookOrPass(Attached(r, a.trace).(buffered := []), SortBySeq(r.buffered), None);
    }
  }

  lemma SettleLooksOrPasses(r: Run, a: Action)
    requires a.SendSettles? && Orderly(r)
    ensures LooksOrPasses(r, a)
  {
    hide Deltas, DeltasLook, RecoverTerminal, Trim;
    if r.flush.SendingSignal? {
      var d := r.flush.delta;
      DeltasLookOrPass(Forwarded(r, d), r.flush.rest, Latest(d, r.flush.latest));
    }
  }

  /** The terminal event will not be handed over any more: it counts as forwarded, or a recovery has overtaken it. */
  predicate Barred(r: Run) {
    r.terminalSeq.Some? && (r.terminalSeq.value <= r.lastForwardedTerminalSeq || r.terminalSeq.value <= r.lastRecoverySeq)
  }

  /** The terminal event is there and has this text. */
  predicate HasText(r: Run, text: string) {
    r.terminalSeq.Some? && r.terminalText == Some(text) && text != "" && Trim(text) != ""
  }

  /** What a look decides. */
  lemma LookDecides(x: Run, text: string)
    requires x.primaryCompleted && HasText(x, text)
    ensures
      var s := RecoverTerminal(x);
      var owed := !Barred(x) && Trim(text) != Delivered(x);
      && s.terminalSeq == x.terminalSeq && s.terminalText == x.terminalText && s.lastRecoverySeq == x.lastRecoverySeq
      && x.log <= s.log && Orderly(s)
      && (HandsOver(s.log, |x.log|) <==> owed) && Gives(x, s) == (if owed then Some(Trim(text)) else None)
      && (!owed ==> Barred(s))
  {
    hide Pending, Trim, Trimmed;
    DeliveredTrimmed(x);
    PendingFacts(Delivered(x), text);
    var s := RecoverTerminal(x);
    if |s.log| > |x.log| {
      assert s.log[|x.log|].terminal;
    }
  }

  // ----- up to the look, and after it

  predicate NoLook(r: Run, actions: seq<Action>) {
    forall i :: 0 <= i < |actions| ==> Look(RunOn(r, actions[..i]), actions[i]).None?
  }

  predicate StepGives(r: Run, a: Action, text: string) {
    Gives(r, Step(r, a)) == Some(Trim(text))
  }

  predicate GivenIn(r: Run, actions: seq<Action>, text: string) {
    exists i :: 0 <= i < |actions| && StepGives(RunOn(r, actions[..i]), actions[i], text)
  }

  predicate AdoptsIn(r: Run, actions: seq<Action>) {
    exists i :: 0 <= i < |actions| && Adopting(RunOn(r, actions[..i]), actions[i])
  }

  lemma Fronts(r: Run, actions: seq<Action>, text: string)
    requires actions != []
    ensures
      var n := |actions| - 1;
      var b, a := RunOn(r, actions[..n]), actions[n];
      && RunOn(r, actions) == Step(b, a)
      && (NoLook(r, actions) <==> NoLook(r, actions[..n]) && Look(b, a).None?)
      && (GivenIn(r, actions, text) <==> GivenIn(r, actions[..n], text) || StepGives(b, a, text))
      && (AdoptsIn(r, actions) <==> AdoptsIn(r, actions[..n]) || Adopting(b, a))
  {
    hide *;
    RunOnLast(r, actions);
    FrontLooks(r, actions);
    FrontGives(r, actions, text);
    FrontAdopts(r, actions);
  }

  lemma FrontLooks(r: Run, actions: seq<Action>)
    requires actions != []
    ensures var n := |actions| - 1;
            NoLook(r, actions) <==> NoLook(r, actions[..n]) && Look(RunOn(r, actions[..n]), actions[n]).None?
  {
    hide Look, RunOn;
    var n := |actions| - 1;
    assert forall i :: 0 <= i < n ==> actions[..n][..i] == actions[..i] && actions[..n][i] == actions[i];
  }

  lemma FrontGives(r: Run, actions: seq<Action>, text: string)
    requires actions != []
    ensures var n := |actions| - 1;
            GivenIn(r, actions, text) <==> GivenIn(r, actions[..n], text) || StepGives(RunOn(r, actions[..n]), actions[n], text)
  {
    hide StepGives, RunOn;
    var n := |actions| - 1;
    assert forall i :: 0 <= i < n ==> actions[..n][..i] == actions[..i] && actions[..n][i] == actions[i];
  }

  lemma FrontAdopts(r: Run, actions: seq<Action>)
    requires actions != []
    ensures var n := |actions| - 1;
            AdoptsIn(r, actions) <==> AdoptsIn(r, actions[..n]) || Adopting(RunOn(r, actions[..n]), actions[n])
  {
    hide Adopting, RunOn;
    var n := |actions| - 1;
    assert forall i :: 0 <= i < n ==> actions[..n][..i] == actions[..i] && actions[..n][i] == actions[i];
  }

  lemma NothingYet(r: Run, text: string)
    ensures RunOn(r, []) == r && !GivenIn(r, [], text) && !AdoptsIn(r, [])
  {
  }

  /** Where no terminal text is being sent, nothing about the terminal event changes until a flush looks at it. */
  lemma {:induction false} Waiting(r: Run, actions: seq<Action>)
    requires NoTerminals(actions) && NoLook(r, actions) && Orderly(r) && !r.flush.SendingTerminal?
    ensures
      var s := RunOn(r, actions);
      && SameTerminal(r, s) && !s.flush.SendingTerminal? && Orderly(s) && r.log <= s.log && !HandsOver(s.log, |r.log|)
  {
    hide Step, Look, RunOn, NoLook, Orderly, GivesDelta, Gives;
    if actions == [] {
      NothingYet(r, "");
    } else {
      var n := |actions| - 1;
      Fronts(r, actions, "");
      Waiting(r, actions[..n]);
      StepLooksOrPasses(RunOn(r, actions[..n]), actions[n]);
    }
  }

  /** Where another text is being sent, the terminal event counts as forwarded once that has settled. */
  lemma {:induction false} WaitingForAnother(r: Run, actions: seq<Action>)
    requires NoTerminals(actions) && NoLook(r, actions) && Orderly(r) && r.flush.SendingTerminal? && r.terminalSeq.Some?
    ensures
      var s := RunOn(r, actions);
      && s.terminalSeq == r.terminalSeq && s.terminalText == r.terminalText && Orderly(s)
      && (s.flush == r.flush || (Marked(s) && !s.flush.SendingTerminal?))
      && r.log <= s.log && !HandsOver(s.log, |r.log|)
  {
    hide Step, Look, RunOn, NoLook, Orderly, GivesDelta, Gives;
    if actions == [] {
      NothingYet(r, "");
    } else {
      var n := |actions| - 1;
      Fronts(r, actions, "");
      WaitingForAnother(r, actions[..n]);
      StepLooksOrPasses(RunOn(r, actions[..n]), actions[n]);
    }
  }

  lemma BarredLook(x: Run)
    requires Barred(x)
    ensures RecoverTerminal(x) == x.(flush := Idle)
  {
  }

  /** A terminal event that is barred stays so, and nothing of its text is handed over. */
  lemma {:induction false} BarredStays(r: Run, actions: seq<Action>)
    requires NoTerminals(actions) && Barred(r) && Orderly(r)
    ensures
      var s := RunOn(r, actions);
      Barred(s) && Orderly(s) && r.log <= s.log && !HandsOver(s.log, |r.log|)
  {
    hide Step, Look, RunOn, RecoverTerminal, GivesDelta, Gives;
    if actions == [] {
      NothingYet(r, "");
    } else {
      var n := |actions| - 1;
      var b := RunOn(r, actions[..n]);
      Fronts(r, actions, "");
      BarredStays(r, actions[..n]);
      StepLooksOrPasses(b, actions[n]);
      if Look(b, actions[n]).Some? {
        BarredLook(Look(b, actions[n]).value);
      }
    }
  }

  lemma {:induction false} RunsAreOrderly(forwardFinalOnly: bool, actions: seq<Action>)
    ensures Orderly(After(forwardFinalOnly, actions))
  {
    hide Step, RecoverTerminal, Look;
    if actions != [] {
      var n := |actions| - 1;
      var b := After(forwardFinalOnly, actions[..n]);
      RunsAreOrderly(forwardFinalOnly, actions[..n]);
      if actions[n].TerminalArrives? {
        ArrivalStays(b, actions[n]);
      } else {
        StepLooksOrPasses(b, actions[n]);
        if Look(b, actions[n]).Some? {
          LookEnds(Look(b, actions[n]).value);
        }
      }
    }
  }

  lemma ArrivalStays(r: Run, a: Action)
    requires a.TerminalArrives?
    ensures
      var s := Step(r, a);
      && s.flush == r.flush && s.log == r.log && s.lastForwardedTerminalSeq == r.lastForwardedTerminalSeq
      && s.lastRecoverySeq == r.lastRecoverySeq && s.lastDelivered == r.lastDelivered && Current(s) == Current(r)
      && s.primaryCompleted == r.primaryCompleted && (Orderly(r) ==> Orderly(s))
      && s.terminalSeq == Some(a.seq_) && s.terminalText == Plain(a.message)
  {
  }

  lemma LookEnds(x: Run)
    ensures !RecoverTerminal(x).flush.SendingDelta?
  {
  }

  // ----- handed over

  /**
   * Over every run. A terminal event with a text comes in; then come actions during which no flush of the closed run
   * gets as far as the terminal event, one with which a flush does, and any more, with no other terminal event among
   * them. Some of its text is handed over, at whatever moment, if and only if it was numbered above the terminal
   * events forwarded when it came in, no other terminal text was then being sent, and to the flush it is numbered
   * above the last recovery and its text does not count as shown. It is then handed over by that flush.
   */
  lemma HandedOverExactly(
    forwardFinalOnly: bool, before: seq<Action>, arrival: Action, waiting: seq<Action>, look: Action, later: seq<Action>)
    requires arrival.TerminalArrives? && Plain(arrival.message).Some? && NoTerminals(waiting + [look] + later)
    requires
      var arrived := After(forwardFinalOnly, before + [arrival]);
      NoLook(arrived, waiting) && Look(RunOn(arrived, waiting), look).Some?
    ensures
      var r, arrived := After(forwardFinalOnly, before), After(forwardFinalOnly, before + [arrival]);
      var x := Look(RunOn(arrived, waiting), look).value;
      var looked := Step(RunOn(arrived, waiting), look);
      var handed := HandsOver(RunOn(looked, later).log, |arrived.log|);
      && (handed <==> && arrival.seq_ > r.lastForwardedTerminalSeq && !r.flush.SendingTerminal?
                      && arrival.seq_ > x.lastRecoverySeq && Plain(arrival.message).value != Delivered(x))
      && (handed ==> HandsOver(looked.log, |arrived.log|))
  {
    hide After, Plain, RunOn, Look, Step, NoLook, RecoverTerminal, Gives, Orderly;
    var r, arrived := After(forwardFinalOnly, before), After(forwardFinalOnly, before + [arrival]);
    var text := Plain(arrival.message).value;
    Arrives(forwardFinalOnly, before, arrival);
    NoTerminalParts(waiting, look, later);
    var s := RunOn(arrived, waiting);
    if arrived.flush.SendingTerminal? {
      WaitingForAnother(arrived, waiting);
    } else {
      Waiting(arrived, waiting);
    }
    StepLooksOrPasses(s, look);
    var x := Look(s, look).value;
    LookDecides(x, text);
    var looked := Step(s, look);
    LaterHands(looked, later, |arrived.log|);
    HandsOverLater(s.log, looked.log, |arrived.log|);
  }

  lemma Arrives(forwardFinalOnly: bool, before: seq<Action>, arrival: Action)
    requires arrival.TerminalArrives? && Plain(arrival.message).Some?
    ensures
      var r, s := After(forwardFinalOnly, before), After(forwardFinalOnly, before + [arrival]);
      && Orderly(s) && s.flush == r.flush && s.log == r.log && s.lastForwardedTerminalSeq == r.lastForwardedTerminalSeq
      && s.lastRecoverySeq == r.lastRecoverySeq && Current(s) == Current(r) && s.terminalSeq == Some(arrival.seq_)
      && HasText(s, Plain(arrival.message).value)
      && Trim(Plain(arrival.message).value) == Plain(arrival.message).value
  {
    hide Step, Trim, Trimmed, Orderly;
    assert (before + [arrival])[..|before|] == before;
    RunsAreOrderly(forwardFinalOnly, before + [arrival]);
    ArrivalStays(After(forwardFinalOnly, before), arrival);
    PlainIsTrimmed(arrival.message);
  }

  lemma PlainIsTrimmed(message: Option<string>)
    ensures var text := Plain(message); text.Some? ==> Trim(text.value) == text.value != ""
  {
    hide Trim, Trimmed;
    PlainTrimmed(message);
    if Plain(message).Some? {
      TrimIsTrimmed(Plain(message).value);
    }
  }

  lemma NoTerminalParts(waiting: seq<Action>, look: Action, later: seq<Action>)
    requires NoTerminals(waiting + [look] + later)
    ensures NoTerminals(waiting) && !look.TerminalArrives? && NoTerminals(later)
  {
    var all := waiting + [look] + later;
    assert forall i :: 0 <= i < |waiting| ==> waiting[i] == all[i];
    assert all[|waiting|] == look;
    assert forall i :: 0 <= i < |later| ==> later[i] == all[|waiting| + 1 + i];
  }

  lemma LaterHands(looked: Run, later: seq<Action>, from: nat)
    requires NoTerminals(later) && Orderly(looked) && from <= |looked.log|
    ensures looked.log <= RunOn(looked, later).log
    ensures HandsOver(looked.log, from) ==> HandsOver(RunOn(looked, later).log, from)
    ensures Barred(looked) && !HandsOver(looked.log, from) ==> !HandsOver(RunOn(looked, later).log, from)
  {
    hide Step, RunOn, Barred;
    var s := RunOn(looked, later);
    RunOnDeals(looked, later);
    HandsOverLater(looked.log, s.log, from);
    if Barred(looked) {
      BarredStays(looked, later);
    }
  }

  lemma HandsOverLater(log: seq<Output>, more: seq<Output>, from: nat)
    requires log <= more && from <= |log|
    ensures HandsOver(more, from) <==> HandsOver(log, from) || HandsOver(more, |log|)
  {
    if HandsOver(log, from) {
      var i :| from <= i < |log| && log[i].Recovered? && log[i].terminal;
      assert more[i] == log[i];
    }
    if HandsOver(more, |log|) {
      var i :| |log| <= i < |more| && more[i].Recovered? && more[i].terminal;
      assert more[i].terminal;
    }
    if HandsOver(more, from) {
      var i :| from <= i < |more| && more[i].Recovered? && more[i].terminal;
      if i < |log| {
        assert log[i] == more[i];
      }
    }
  }

  // ----- lost

  /** The text given last: a part of it was handed over, or it was adopted as the primary reply. */
  function LastGiven(forwardFinalOnly: bool, actions: seq<Action>): Option<string> {
    if actions == [] then None
    else
      var before := actions[..|actions| - 1];
      var r := After(forwardFinalOnly, before);
      var given := Gives(r, Step(r, actions[|actions| - 1]));
      if given.Some? then given else LastGiven(forwardFinalOnly, before)
  }

  /** What has been given while the terminal event waits, with nothing else being sent at first. */
  lemma {:induction false} GivenWaiting(r: Run, actions: seq<Action>, text: string)
    requires NoTerminals(actions) && NoLook(r, actions) && Orderly(r) && !r.flush.SendingTerminal? && HasText(r, text)
    requires !AdoptsIn(r, actions)
    ensures
      var s := RunOn(r, actions);
      && (Current(s) == Current(r) || s.flush.SendingDelta?)
      && (GivenIn(r, actions, text) <==> Current(s) == Trim(text) && Current(s) != Current(r))
  {
    hide Step, Look, RunOn, NoLook, Orderly, Gives, Current, HasText, Adopting, GivenIn, AdoptsIn;
    if actions == [] {
      NothingYet(r, text);
    } else {
      var n := |actions| - 1;
      var b := RunOn(r, actions[..n]);
      Fronts(r, actions, text);
      GivenWaiting(r, actions[..n], text);
      Waiting(r, actions[..n]);
      StepLooksOrPasses(b, actions[n]);
      if b.flush.SendingDelta? {
        SendingStays(b, actions[n]);
      }
    }
  }

  /** A delta text stays in flight until the flush comes to the terminal event. */
  lemma SendingStays(r: Run, a: Action)
    requires !a.TerminalArrives? && Orderly(r) && r.flush.SendingDelta? && Look(r, a).None?
    ensures Step(r, a).flush == r.flush
  {
  }

  lemma {:induction false} GivenWaitingForAnother(r: Run, actions: seq<Action>, text: string)
    requires NoTerminals(actions) && NoLook(r, actions) && Orderly(r) && r.flush.SendingTerminal? && HasText(r, text)
    requires !AdoptsIn(r, actions)
    ensures
      var s := RunOn(r, actions);
      && !GivenIn(r, actions, text)
      && (s.flush == r.flush || s.flush.SendingDelta? || Current(s) == Trim(text))
  {
    hide Step, Look, RunOn, NoLook, Orderly, Gives, HasText, Adopting, GivenIn, AdoptsIn;
    if actions == [] {
      NothingYet(r, text);
    } else {
      var n := |actions| - 1;
      var b := RunOn(r, actions[..n]);
      Fronts(r, actions, text);
      GivenWaitingForAnother(r, actions[..n], text);
      TextIsThere(r, text);
      WaitingForAnother(r, actions[..n]);
      StepLooksOrPasses(b, actions[n]);
      if b.flush.SendingDelta? {
        SendingStays(b, actions[n]);
      }
      var s := RunOn(r, actions);
      if s.flush == Idle && s.lastDelivered == Some(text) {
        IdleShows(s, text);
      }
    }
  }

  lemma IdleShows(r: Run, text: string)
    requires r.flush == Idle && r.lastDelivered == Some(text)
    ensures Current(r) == Trim(text)
  {
  }

  lemma TextIsThere(r: Run, text: string)
    requires HasText(r, text)
    ensures r.terminalSeq.Some? && r.terminalText == Some(text) && Truthy(r.terminalText)
  {
  }

  lemma {:induction false} AdoptedIsGiven(r: Run, actions: seq<Action>, text: string)
    requires NoTerminals(actions) && NoLook(r, actions) && Orderly(r) && HasText(r, text) && AdoptsIn(r, actions)
    ensures GivenIn(r, actions, text)
  {
    hide Step, Look, RunOn, NoLook, Orderly, Gives, Current, HasText, Adopting, GivenIn, AdoptsIn;
    if actions == [] {
      NothingYet(r, text);
    } else {
      var n := |actions| - 1;
      var b := RunOn(r, actions[..n]);
      Fronts(r, actions, text);
      TextIsThere(r, text);
      if AdoptsIn(r, actions[..n]) {
        AdoptedIsGiven(r, actions[..n], text);
      } else {
        if r.flush.SendingTerminal? {
          WaitingForAnother(r, actions[..n]);
        } else {
          Waiting(r, actions[..n]);
        }
        StepLooksOrPasses(b, actions[n]);
      }
    }
  }

  /** The text was not the last one given when the event came in, and no action since then gave it. */
  predicate Lost(forwardFinalOnly: bool, before: seq<Action>, arrival: Action, since: seq<Action>, text: string) {
    LastGiven(forwardFinalOnly, before) != Some(text) && !GivenIn(After(forwardFinalOnly, before + [arrival]), since, text)
  }

  /**
   * Over every run: when a flush has come to a terminal event with a text, the text was never given, in whole or in its
   * pending part, if and only if it was not the last text given when the event came in, no close since then adopted
   * it (a close for a reason that is no failure, with nothing delivered yet), and
   * - another terminal text was being sent when it came in; or
   * - to the flush it counts as shown, and did so already when it came in, although it was not given; or
   * - it does not count as shown, and is numbered at or below a terminal event forwarded before it came in, or at or
   *   below the last recovery when the flush came to it.
   */
  lemma TerminalLostExactly(forwardFinalOnly: bool, before: seq<Action>, arrival: Action, waiting: seq<Action>, look: Action)
    requires arrival.TerminalArrives? && Plain(arrival.message).Some? && NoTerminals(waiting + [look])
    requires
      var arrived := After(forwardFinalOnly, before + [arrival]);
      NoLook(arrived, waiting) && Look(RunOn(arrived, waiting), look).Some?
    ensures
      var r, arrived := After(forwardFinalOnly, before), After(forwardFinalOnly, before + [arrival]);
      var x := Look(RunOn(arrived, waiting), look).value;
      var text := Plain(arrival.message).value;
      Lost(forwardFinalOnly, before, arrival, waiting + [look], text) <==>
        && LastGiven(forwardFinalOnly, before) != Some(text) && !AdoptsIn(arrived, waiting)
        && (|| r.flush.SendingTerminal?
            || (if Delivered(x) == text then Current(r) == text
                else arrival.seq_ <= r.lastForwardedTerminalSeq || arrival.seq_ <= x.lastRecoverySeq))
  {
    hide After, Plain, RunOn, Look, Step, NoLook, Adopting, RecoverTerminal, Gives, Orderly, GivenIn, AdoptsIn, HasText, Current, LastGiven, HandsOver;
    var r, arrived := After(forwardFinalOnly, before), After(forwardFinalOnly, before + [arrival]);
    var text := Plain(arrival.message).value;
    Arrives(forwardFinalOnly, before, arrival);
    TextIsThere(arrived, text);
    assert waiting + [look] + [] == waiting + [look];
    NoTerminalParts(waiting, look, []);
    var s, window := RunOn(arrived, waiting), waiting + [look];
    assert window[..|window| - 1] == waiting;
    Fronts(arrived, window, text);
    if AdoptsIn(arrived, waiting) {
      AdoptedIsGiven(arrived, waiting, text);
    } else {
      if arrived.flush.SendingTerminal? {
        WaitingForAnother(arrived, waiting);
        GivenWaitingForAnother(arrived, waiting, text);
      } else {
        Waiting(arrived, waiting);
        GivenWaiting(arrived, waiting, text);
      }
      StepLooksOrPasses(s, look);
      LookGives(s, look, text);
    }
  }

  lemma LookGives(r: Run, a: Action, text: string)
    requires Look(r, a).Some? && ComesTo(r, Step(r, a), Look(r, a).value) && r.terminalText == Some(text) && r.terminalSeq.Some?
    requires text != "" && Trim(text) != ""
    ensures StepGives(r, a, text) <==> !Barred(Look(r, a).value) && Trim(text) != Delivered(Look(r, a).value)
  {
    hide Look, Step, RecoverTerminal;
    LookDecides(Look(r, a).value, text);
  }

  // ----- where the account is right

  /** No terminal event comes in while one is being sent, and no close adopts a text while another is being sent. */
  predicate Undisturbed(forwardFinalOnly: bool, actions: seq<Action>) {
    forall k :: 0 <= k < |actions| ==> Orderliness(After(forwardFinalOnly, actions[..k]), actions[k])
  }

  predicate Orderliness(r: Run, a: Action) {
    && (a.TerminalArrives? ==> !r.flush.SendingTerminal?)
    && (Adopting(r, a) ==> !Recovering(r.flush))
  }

  /** The terminal text being sent is that of the last terminal event, which is not blank. */
  predicate SendsItsOwn(r: Run) {
    && (r.flush.SendingTerminal? ==> r.terminalSeq.Some? && r.terminalText == Some(r.flush.text))
    && (r.terminalText.Some? ==> Trim(r.terminalText.value) != "")
  }

  function TextOf(shown: string): Option<string> {
    if shown == "" then None else Some(shown)
  }

  lemma OwnLook(x: Run)
    requires x.primaryCompleted && SendsItsOwn(x.(flush := Idle))
    ensures
      var s := RecoverTerminal(x);
      && SendsItsOwn(s) && (if Gives(x, s).Some? then Gives(x, s) == TextOf(Current(s)) else Current(s) == Delivered(x))
  {
    hide Trim, Trimmed, Pending;
    DeliveredTrimmed(x);
    if Truthy(x.terminalText) {
      PendingFacts(Delivered(x), x.terminalText.value);
    }
  }

  /** Given texts are not blank. */
  predicate GivesText(r: Run, s: Run) {
    if Gives(r, s).Some? then Gives(r, s) == TextOf(Current(s)) else Current(s) == Current(r)
  }

  lemma OwnStep(r: Run, a: Action)
    requires Orderly(r) && SendsItsOwn(r) && Orderliness(r, a)
    ensures SendsItsOwn(Step(r, a)) && Orderly(Step(r, a)) && GivesText(r, Step(r, a))
  {
    hide Step, Look, RecoverTerminal, Trim, Trimmed, Plain, TreatsTerminalAsDelivered;
    if a.TerminalArrives? {
      ArrivalStays(r, a);
      PlainIsTrimmed(a.message);
    } else {
      StepLooksOrPasses(r, a);
      if Look(r, a).Some? {
        OwnLook(Look(r, a).value);
        LookEnds(Look(r, a).value);
      } else if Adopting(r, a) {
        AdoptedShows(r, a);
      } else if r.flush.SendingTerminal? && Step(r, a).flush == Idle {
        IdleShows(Step(r, a), r.flush.text);
      }
    }
  }

  lemma AdoptedShows(r: Run, a: Action)
    requires Adopting(r, a) && !Recovering(r.flush)
    ensures Step(r, a).flush == r.flush && Current(Step(r, a)) == Trim(r.terminalText.value)
  {
  }

  /** In an undisturbed run what counts as shown, or as being sent, is what was given last. */
  lemma {:induction false} AccountIsRight(forwardFinalOnly: bool, actions: seq<Action>)
    requires Undisturbed(forwardFinalOnly, actions)
    ensures
      var r := After(forwardFinalOnly, actions);
      Orderly(r) && SendsItsOwn(r) && LastGiven(forwardFinalOnly, actions) == TextOf(Current(r))
  {
    hide Step, Orderliness, Gives, Orderly, SendsItsOwn;
    if actions == [] {
      NothingGiven(forwardFinalOnly);
    } else {
      var n := |actions| - 1;
      assert forall i :: 0 <= i < n ==> actions[..n][..i] == actions[..i] && actions[..n][i] == actions[i];
      AccountIsRight(forwardFinalOnly, actions[..n]);
      OwnStep(After(forwardFinalOnly, actions[..n]), actions[n]);
    }
  }

  lemma NothingGiven(forwardFinalOnly: bool)
    ensures var r := NewRun(forwardFinalOnly);
            Orderly(r) && SendsItsOwn(r) && Current(r) == ""
  {
  }

  /**
   * The three ways to lose a terminal text in a run that was undisturbed until the event came in: it came in while
   * another terminal text was being sent, its number was not above a terminal event forwarded before, or a recovery
   * had overtaken it when the flush came to it. The text is then lost unless it was shown already or is adopted.
   */
  lemma ThreeWaysToLose(forwardFinalOnly: bool, before: seq<Action>, arrival: Action, waiting: seq<Action>, look: Action)
    requires arrival.TerminalArrives? && Plain(arrival.message).Some? && NoTerminals(waiting + [look])
    requires Undisturbed(forwardFinalOnly, before)
    requires
      var arrived := After(forwardFinalOnly, before + [arrival]);
      NoLook(arrived, waiting) && Look(RunOn(arrived, waiting), look).Some?
    ensures
      var r, arrived := After(forwardFinalOnly, before), After(forwardFinalOnly, before + [arrival]);
      var x := Look(RunOn(arrived, waiting), look).value;
      var text := Plain(arrival.message).value;
      Lost(forwardFinalOnly, before, arrival, waiting + [look], text) <==>
        && Current(r) != text && !AdoptsIn(arrived, waiting)
        && (|| r.flush.SendingTerminal?
            || (Delivered(x) != text && (arrival.seq_ <= r.lastForwardedTerminalSeq || arrival.seq_ <= x.lastRecoverySeq)))
  {
    hide After, RunOn, Look, NoLook, Current, LastGiven, Lost, AdoptsIn, Undisturbed, Delivered, NoTerminals, Trim;
    AccountIsRight(forwardFinalOnly, before);
    TerminalLostExactly(forwardFinalOnly, before, arrival, waiting, look);
  }

  // ----- a look takes place

  /** Once a flush of a closed run is under way it comes to the terminal event before it is idle again. */
  lemma FlushLooks(r: Run, actions: seq<Action>)
    requires NoTerminals(actions) && Orderly(r) && r.primaryCompleted && r.flush != Idle && !r.flush.SendingTerminal?
    requires RunOn(r, actions).flush == Idle
    ensures !NoLook(r, actions)
  {
    hide Step, Look, RunOn, NoLook;
    if NoLook(r, actions) {
      StaysBusy(r, actions);
    }
  }

  lemma {:induction false} StaysBusy(r: Run, actions: seq<Action>)
    requires NoTerminals(actions) && Orderly(r) && r.primaryCompleted && r.flush != Idle && !r.flush.SendingTerminal?
    requires NoLook(r, actions)
    ensures
      var s := RunOn(r, actions);
      s.flush != Idle && s.primaryCompleted && Orderly(s) && !s.flush.SendingTerminal?
  {
    hide Step, Look, RunOn, NoLook, Gives, Orderly, GivesDelta;
    if actions == [] {
      NothingYet(r, "");
    } else {
      var n := |actions| - 1;
      var b := RunOn(r, actions[..n]);
      Fronts(r, actions, "");
      StaysBusy(r, actions[..n]);
      StepLooksOrPasses(b, actions[n]);
      BusyStep(b, actions[n]);
    }
  }

  lemma BusyStep(r: Run, a: Action)
    requires !a.TerminalArrives? && Orderly(r) && r.primaryCompleted && r.flush != Idle && Look(r, a).None?
    ensures r.flush.SendingTerminal? || Step(r, a).flush != Idle
  {
    hide Deltas, DeltasLook, TreatsTerminalAsDelivered, HasSeq, Plain;
    if a.SendSettles? && r.flush.SendingSignal? {
      DeltasLookOrPass(Forwarded(r, r.flush.delta), r.flush.rest, Latest(r.flush.delta, r.flush.latest));
    }
  }

  // ----- a terminal event that is replaced before any flush comes to it

  function Instead(r: Run, n: Option<nat>, text: Option<string>): Run {
    r.(terminalSeq := n, terminalText := text)
  }

  lemma {:induction false} DeltasIgnore(r: Run, rest: seq<Delta>, latest: Option<Delta>, n: Option<nat>, text: Option<string>)
    requires DeltasLook(r, rest, latest).None?
    ensures Deltas(Instead(r, n, text), rest, latest) == Instead(Deltas(r, rest, latest), n, text)
    ensures DeltasLook(Instead(r, n, text), rest, latest).None?
    decreases |rest|
  {
    hide Pending, Trim;
    if rest == [] {
      assert Delivered(Instead(r, n, text)) == Delivered(r);
    } else {
      var d := rest[0];
      assert Forwarded(Instead(r, n, text), d) == Instead(Forwarded(r, d), n, text);
      if !Truthy(r.backendMessageId) || d.seq_ <= r.lastForwardedSeq {
        DeltasIgnore(r, rest[1..], latest, n, text);
      } else if !r.forwardFinalOnly {
        DeltasIgnore(Forwarded(r, d), rest[1..], Latest(d, latest), n, text);
      }
    }
  }

  predicate ReadsTerminal(r: Run, a: Action) {
    Look(r, a).Some? || Adopting(r, a) || r.flush.SendingTerminal? || a.TerminalArrives?
  }

  lemma StepIgnores(r: Run, a: Action, n: Option<nat>, text: Option<string>)
    requires Orderly(r) && !ReadsTerminal(r, a) && !Adopting(Instead(r, n, text), a)
    ensures Step(Instead(r, n, text), a) == Instead(Step(r, a), n, text)
    ensures Orderly(Step(r, a)) && !Step(r, a).flush.SendingTerminal?
  {
    StepLooksOrPasses(r, a);
    hide Deltas, DeltasLook, RecoverTerminal, Pending, Trim, SortBySeq, TreatsTerminalAsDelivered, Plain, HasSeq, LooksOrPasses;
    match a
    case DeltaArrives(_, _, _) =>
    case CloseRun(_) =>
    case FlushStarts(trace) =>
      var s := Attached(r, trace);
      assert Attached(Instead(r, n, text), trace) == Instead(s, n, text);
      if r.flush == Idle && Truthy(s.backendMessageId) {
        DeltasIgnore(s.(buffered := []), SortBySeq(s.buffered), None, n, text);
        DeltasLookOrPass(s.(buffered := []), SortBySeq(s.buffered), None);
        assert Instead(s, n, text).(buffered := []) == Instead(s.(buffered := []), n, text);
      }
    case SendSettles =>
      if r.flush.SendingSignal? {
        var d := r.flush.delta;
        assert Forwarded(Instead(r, n, text), d) == Instead(Forwarded(r, d), n, text);
        DeltasIgnore(Forwarded(r, d), r.flush.rest, Latest(d, r.flush.latest), n, text);
        DeltasLookOrPass(Forwarded(r, d), r.flush.rest, Latest(d, r.flush.latest));
      }
  }

  predicate NothingReads(r: Run, actions: seq<Action>) {
    forall i :: 0 <= i < |actions| ==> !ReadsTerminal(RunOn(r, actions[..i]), actions[i])
  }

  lemma {:induction false} RunIgnores(r: Run, actions: seq<Action>, n: Option<nat>, text: Option<string>)
    requires Orderly(r) && !r.flush.SendingTerminal? && NothingReads(r, actions) && !AdoptsIn(Instead(r, n, text), actions)
    ensures RunOn(Instead(r, n, text), actions) == Instead(RunOn(r, actions), n, text)
    ensures Orderly(RunOn(r, actions))
  {
    hide Step, ReadsTerminal, Adopting, RunOn, AdoptsIn, Orderly;
    if actions == [] {
      NothingYet(r, "");
      NothingYet(Instead(r, n, text), "");
    } else {
      var m := |actions| - 1;
      var b := RunOn(r, actions[..m]);
      assert forall i :: 0 <= i < m ==> actions[..m][..i] == actions[..i] && actions[..m][i] == actions[i];
      Fronts(r, actions, "");
      Fronts(Instead(r, n, text), actions, "");
      RunIgnores(r, actions[..m], n, text);
      StepIgnores(b, actions[m], n, text);
    }
  }

  /**
   * A terminal event that is replaced by another one before any flush comes to it, or any close adopts its text, leaves
   * no trace but its correlation: the run goes on exactly as without it, and its text is not given.
   */
  lemma ReplacedLeavesNoTrace(r: Run, replaced: Action, between: seq<Action>, next: Action)
    requires Orderly(r) && replaced.TerminalArrives? && next.TerminalArrives? && !r.flush.SendingTerminal?
    requires NothingReads(Attached(r, replaced.trace), between) && !AdoptsIn(Step(r, replaced), between)
    ensures Step(RunOn(Step(r, replaced), between), next) == Step(RunOn(Attached(r, replaced.trace), between), next)
  {
    hide RunOn, NothingReads, AdoptsIn, Plain;
    var s := Attached(r, replaced.trace);
    RunIgnores(s, between, Some(replaced.seq_), Plain(replaced.message));
  }
}
