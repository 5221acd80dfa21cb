/**
 * What the recovered pieces of a run spell. The reader sees the primary reply, where it was adopted from the
 * terminal event, and then the recovered pieces; the run is faithful when these spell the last full text.
 */
module ForwarderText {
  import opened Options
  import opened Text
  import opened GatewayForwarder

  predicate Recovering(f: Flush) {
    f.SendingDelta? || f.SendingTerminal?
  }

  /** The full text whose missing part is being sent. */
  function InFlight(f: Flush): string {
    match f
    case SendingDelta(d) => if d.text.Some? then d.text.value else ""
    case SendingTerminal(t) => t
    case _ => ""
  }

  /** The last full text of which everything has been shown or is being sent. */
  function Current(r: Run): string {
    if Recovering(r.flush) then Trim(InFlight(r.flush)) else Delivered(r)
  }

  function ShownBy(o: Output): seq<string> {
    match o
    case Signal(_, _) => []
    case Recovered(piece, _, _) => [piece]
    case Adopted(text) => [Trim(text)]
  }

  /** The pieces of text the reader has been given, in order. */
  function Shown(log: seq<Output>): seq<string> {
    if log == [] then [] else Shown(log[..|log| - 1]) + ShownBy(log[|log| - 1])
  }

  ghost predicate Faithful(r: Run) {
    Spells(Current(r), Shown(r.log))
  }

  // ----- counting what is written

  function InkLen(s: string): nat {
    if s == "" then 0 else InkLen(s[..|s| - 1]) + if IsSpace(s[|s| - 1]) then 0 else 1
  }

  function TotalInk(pieces: seq<string>): nat {
    if pieces == [] then 0 else TotalInk(pieces[..|pieces| - 1]) + InkLen(pieces[|pieces| - 1])
  }

  lemma {:induction false} InkConcat(a: string, b: string)
    ensures InkLen(a + b) == InkLen(a) + InkLen(b)
  {
    if b == "" {
      assert a + b == a;
    } else {
      InkConcat(a, b[..|b| - 1]);
      assert (a + b)[..|a + b| - 1] == a + b[..|b| - 1];
    }
  }

  lemma {:induction false} InkOfBlank(s: string)
    requires Blank(s)
    ensures InkLen(s) == 0
  {
    if s != "" {
      InkOfBlank(s[..|s| - 1]);
    }
  }

  lemma InkOfTrimmed(s: string)
    requires Trimmed(s)
    ensures InkLen(s) == 0 <==> s == ""
  {
  }

  lemma {:induction false} InkOfPieces(pieces: seq<string>, gaps: seq<string>)
    requires |pieces| == |gaps| && forall g :: g in gaps ==> Blank(g)
    ensures InkLen(Interleave(pieces, gaps)) == TotalInk(pieces)
  {
    if pieces != [] {
      var n := |pieces| - 1;
      InkOfPieces(pieces[..n], gaps[..n]);
      InkConcat(Interleave(pieces[..n], gaps[..n]), pieces[n]);
      InkConcat(Interleave(pieces[..n], gaps[..n]) + pieces[n], gaps[n]);
      InkOfBlank(gaps[n]);
    }
  }

  lemma InkOfSpelled(text: string, pieces: seq<string>)
    requires Spells(text, pieces)
    ensures InkLen(text) == TotalInk(pieces)
  {
    var gaps :| SpelledWith(text, pieces, gaps);
    InkOfPieces(pieces, gaps);
  }

  lemma TotalInkOne(pieces: seq<string>, piece: string)
    ensures TotalInk(pieces + [piece]) == TotalInk(pieces) + InkLen(piece)
  {
    assert (pieces + [piece])[..|pieces|] == pieces;
  }

  // ----- what is pending

  /** Nothing is pending exactly when the text is blank or shown already; a piece is trimmed and never blank. */
  lemma PendingFacts(delivered: string, text: string)
    requires Trimmed(delivered)
    ensures Pending(delivered, text).None? <==> Trim(text) == "" || Trim(text) == delivered
    ensures Pending(delivered, text).Some? ==> Trimmed(Pending(delivered, text).value) && Pending(delivered, text).value != ""
    ensures Pending(delivered, text).Some? && !(delivered <= Trim(text)) ==> Pending(delivered, text).value == Trim(text)
    ensures Pending(delivered, text).Some? && delivered <= Trim(text) ==>
              exists gap :: Blank(gap) && (delivered == "" ==> gap == "") && Trim(text) == delivered + gap + Pending(delivered, text).value
  {
    hide Trim, IsSpace;
    TrimIsTrimmed(text);
    var whole := Trim(text);
    if delivered <= whole && whole != delivered && delivered != "" {
      var gap := SuffixOf(delivered, whole);
    } else if delivered == "" && whole != "" {
      assert Blank("") && whole == delivered + "" + whole;
    }
  }

  lemma SuffixOf(delivered: string, whole: string) returns (gap: string)
    requires delivered < whole && Trimmed(whole)
    ensures var suffix := Trim(whole[|delivered|..]);
            suffix != "" && Trimmed(suffix) && Blank(gap) && whole == delivered + gap + suffix
  {
    hide Trim, IsSpace;
    var rest := whole[|delivered|..];
    var back;
    gap, back := TrimSplits(rest);
    assert rest[|rest| - 1] == whole[|whole| - 1];
    TrimIsTrimmed(rest);
    assert back == "";
    assert whole == delivered + rest;
    assert Trim(rest) == "" ==> rest == gap;
  }

  // ----- one step

  ghost predicate Well(r: Run) {
    && (r.terminalText.Some? ==> r.terminalText.value != "" && Trimmed(r.terminalText.value))
    && (r.flush.SendingTerminal? ==> r.terminalText == Some(r.flush.text))
    && (r.flush.SendingDelta? ==> Truthy(r.flush.recovered.text))
  }

  /** How a run looks after the rest of a flush: either a piece has been handed over, or none has. */
  predicate Continues(r: Run, s: Run, piece: Option<string>) {
    && s.lastDelivered == r.lastDelivered && s.terminalText == r.terminalText
    && s.primaryCompleted == r.primaryCompleted
    && |r.log| <= |s.log| <= |r.log| + 1
    && s.log[..|r.log|] == r.log
    && if piece.None? then
         !Recovering(s.flush) && (|s.log| > |r.log| ==> s.log[|r.log|].Signal?)
       else
         && Recovering(s.flush) && |s.log| > |r.log| && s.log[|r.log|].Recovered? && s.log[|r.log|].piece == piece.value
         && Pending(Delivered(r), InFlight(s.flush)) == piece && r.primaryCompleted
         && (s.flush.SendingTerminal? ==> s.terminalText == Some(s.flush.text))
         && (s.flush.SendingDelta? ==> Truthy(s.flush.recovered.text))
  }

  lemma TerminalContinues(r: Run) returns (piece: Option<string>)
    ensures Continues(r, RecoverTerminal(r), piece)
  {
    hide Pending;
    var s := RecoverTerminal(r);
    piece := if Recovering(s.flush) then Pending(Delivered(r), r.terminalText.value) else None;
  }

  lemma DeltaContinues(r: Run, latest: Option<Delta>) returns (piece: Option<string>)
    ensures Continues(r, RecoverDelta(r, latest), piece)
  {
    hide Pending, RecoverTerminal;
    piece := TerminalContinues(r);
    var s := RecoverDelta(r, latest);
    if s.flush.SendingDelta? && |s.log| > |r.log| && s != RecoverTerminal(r) {
      piece := Pending(Delivered(r), latest.value.text.value);
    }
  }

  lemma {:induction false} DeltasContinue(r: Run, rest: seq<Delta>, latest: Option<Delta>) returns (piece: Option<string>)
    ensures Continues(r, Deltas(r, rest, latest), piece)
    decreases |rest|
  {
    hide Pending, RecoverDelta, InFlight;
    if rest == [] {
      piece := DeltaContinues(r, latest);
    } else if !Truthy(r.backendMessageId) || rest[0].seq_ <= r.lastForwardedSeq {
      piece := DeltasContinue(r, rest[1..], latest);
    } else if r.forwardFinalOnly {
      piece := None;
    } else {
      piece := DeltasContinue(Forwarded(r, rest[0]), rest[1..], Latest(rest[0], latest));
    }
  }

  /** The text before the recoveries of a step: where the submission that settles showed its text, that text. */
  function Before(r: Run, a: Action): Run {
    match a
    case SendSettles =>
      (match r.flush
       case SendingDelta(d) => r.(lastDelivered := d.text, flush := Idle)
       case SendingTerminal(_) => r.(lastDelivered := r.terminalText, flush := Idle)
       case _ => r.(flush := Idle))
    case FlushStarts(_) => r
    case TerminalArrives(_, message, _) => r.(terminalText := Plain(message))
    case CloseRun(_) => r.(primaryCompleted := true)
    case DeltaArrives(_, _, _) => r
  }

  predicate Quiet(r: Run, a: Action) {
    a.TerminalArrives? ==> !r.flush.SendingTerminal?
  }

  lemma BeforeKeeps(r: Run, a: Action)
    requires Well(r) && Quiet(r, a)
    ensures Well(Before(r, a)) && Current(Before(r, a)) == Current(r) && Before(r, a).log == r.log
  {
    hide Trim, Trimmed, Plain;
    if a.TerminalArrives? {
      PlainTrimmed(a.message);
    }
  }

  /** Every step other than a close continues from the text before it. */
  lemma StepContinues(r: Run, a: Action) returns (piece: Option<string>)
    requires Well(r) && Quiet(r, a) && !a.CloseRun? && (a.FlushStarts? ==> r.flush == Idle) && (a.SendSettles? ==> r.flush != Idle)
    requires a.FlushStarts? || a.SendSettles?
    ensures Continues(Before(r, a), Step(r, a), piece)
  {
    hide Deltas, RecoverTerminal, Pending, InFlight, SortBySeq;
    match a
    case FlushStarts(trace) =>
      piece := None;
      var s := Attached(r, trace);
      if Truthy(s.backendMessageId) {
        piece := DeltasContinue(s.(buffered := []), SortBySeq(s.buffered), None);
      }
    case SendSettles =>
      match r.flush {
        case SendingSignal(d, rest, latest) =>
          piece := DeltasContinue(Forwarded(r, d), rest, Latest(d, latest));
        case SendingDelta(d) =>
          piece := TerminalContinues(r.(lastDelivered := d.text, lastRecoverySeq := d.seq_));
        case SendingTerminal(_) =>
          piece := None;
      }
  }

  /**
   * The step shows text the reader already has. Either it hands over a text that does not begin with the text
   * delivered before it, so that the whole of it goes out again; or it closes the run, taking the terminal
   * text as delivered, while a recovery is still being sent.
   */
  predicate Repeats(r: Run, a: Action) {
    var s := Step(r, a);
    && |s.log| > |r.log|
    && if a.CloseRun? then Recovering(r.flush)
       else s.log[|r.log|].Recovered? && !(Delivered(s) <= Current(s))
  }

  predicate TooMuch(r: Run) {
    TotalInk(Shown(r.log)) > InkLen(Current(r))
  }

  lemma TooMuchIsUnfaithful(r: Run)
    requires TooMuch(r)
    ensures !Faithful(r)
  {
    if Faithful(r) {
      InkOfSpelled(Current(r), Shown(r.log));
    }
  }

  lemma DeliveredTrimmed(r: Run)
    ensures Trimmed(Delivered(r))
  {
    if r.lastDelivered.Some? {
      TrimIsTrimmed(r.lastDelivered.value);
    }
  }

  lemma ShownMore(log: seq<Output>, o: Output)
    ensures Shown(log + [o]) == Shown(log) + ShownBy(o)
  {
    assert (log + [o])[..|log|] == log;
  }

  /** A piece handed over: faithfulness is kept exactly when the text extends the delivered one. */
  lemma PieceShown(delivered: string, shown: seq<string>, text: string, piece: string)
    requires Trimmed(delivered) && Pending(delivered, text) == Some(piece)
    ensures Spells(delivered, shown) && delivered <= Trim(text) ==> Spells(Trim(text), shown + [piece])
    ensures Spells(delivered, shown) && !(delivered <= Trim(text)) ==> TotalInk(shown + [piece]) > InkLen(Trim(text))
    ensures TotalInk(shown) > InkLen(delivered) ==> TotalInk(shown + [piece]) > InkLen(Trim(text))
  {
    hide Spells, Trimmed, Trim, Pending, TotalInk, Blank;
    PendingFacts(delivered, text);
    TotalInkOne(shown, piece);
    if delivered <= Trim(text) {
      var gap :| Blank(gap) && (delivered == "" ==> gap == "") && Trim(text) == delivered + gap + piece;
      InkConcat(delivered + gap, piece);
      InkConcat(delivered, gap);
      InkOfBlank(gap);
      if Spells(delivered, shown) {
        if shown == [] {
          SpelledByNothing(delivered);
        }
        BlankNothing();
        SpellsExtend(delivered, shown, gap, piece, "");
        assert delivered + gap + piece + "" == Trim(text);
      }
    } else {
      InkOfTrimmed(delivered);
      if Spells(delivered, shown) {
        InkOfSpelled(delivered, shown);
      }
    }
  }

  lemma BlankNothing()
    ensures Blank("")
  {
  }

  lemma SpelledByNothing(text: string)
    requires Spells(text, [])
    ensures text == ""
  {
  }

  lemma ContinuedKeeps(b: Run, s: Run, piece: Option<string>)
    requires Continues(b, s, piece) && Well(b) && !Recovering(b.flush)
    ensures Well(s) && (piece.Some? <==> |s.log| > |b.log| && s.log[|b.log|].Recovered?)
    ensures Faithful(b) && (piece.Some? ==> Delivered(s) <= Current(s)) ==> Faithful(s)
    ensures Faithful(b) && piece.Some? && !(Delivered(s) <= Current(s)) ==> TooMuch(s)
    ensures TooMuch(b) ==> TooMuch(s)
  {
    hide Pending, Spells, TotalInk, InkLen, Trimmed, Shown, InFlight;
    if |s.log| > |b.log| {
      assert s.log == b.log + [s.log[|b.log|]];
      ShownMore(b.log, s.log[|b.log|]);
    } else {
      assert s.log == b.log;
    }
    DeliveredTrimmed(b);
    if piece.Some? {
      PieceShown(Delivered(b), Shown(b.log), InFlight(s.flush), piece.value);
    } else {
      assert Shown(s.log) == Shown(b.log);
    }
  }

  /** A flush step keeps a faithful run faithful unless it repeats, and then and thereafter there is too much. */
  lemma FlushStepKeeps(r: Run, a: Action)
    requires Well(r) && (a.FlushStarts? || a.SendSettles?)
    ensures Well(Step(r, a))
    ensures Faithful(r) && !Repeats(r, a) ==> Faithful(Step(r, a))
    ensures Faithful(r) && Repeats(r, a) ==> TooMuch(Step(r, a))
    ensures TooMuch(r) ==> TooMuch(Step(r, a))
  {
    if (a.FlushStarts? && r.flush == Idle) || (a.SendSettles? && r.flush != Idle) {
      hide Continues, Spells, TotalInk, InkLen, Trimmed, Shown, Step, Well;
      BeforeKeeps(r, a);
      var piece := StepContinues(r, a);
      BeforeIdles(r, a);
      ContinuedKeeps(Before(r, a), Step(r, a), piece);
    }
  }

  lemma BeforeIdles(r: Run, a: Action)
    requires (a.FlushStarts? && r.flush == Idle) || a.SendSettles?
    ensures !Recovering(Before(r, a).flush)
  {
  }

  lemma CloseKeeps(r: Run, reason: string)
    requires Well(r)
    ensures var s := Step(r, CloseRun(reason));
            && Well(s)
            && (Faithful(r) && !Repeats(r, CloseRun(reason)) ==> Faithful(s))
            && (Faithful(r) && Repeats(r, CloseRun(reason)) ==> TooMuch(s))
            && (TooMuch(r) ==> TooMuch(s))
  {
    hide TreatsTerminalAsDelivered, Spells, TotalInk, InkLen;
    var s := Step(r, CloseRun(reason));
    if s.log != r.log {
      var text := r.terminalText.value;
      ShownMore(r.log, Adopted(text));
      TrimIsTrimmed(text);
      TotalInkOne(Shown(r.log), text);
      InkOfTrimmed(text);
      if Faithful(r) {
        InkOfSpelled(Current(r), Shown(r.log));
        if !Recovering(r.flush) {
          NothingDelivered(r);
          SpellsNothingMore(text, Shown(r.log));
        }
      }
      if !Recovering(r.flush) {
        NothingDelivered(r);
        InkOfBlank("");
      }
    }
  }

  lemma NothingDelivered(r: Run)
    requires !Truthy(r.lastDelivered)
    ensures Delivered(r) == ""
  {
    TrimIsTrimmed("");
  }

  lemma SpellsNothingMore(text: string, shown: seq<string>)
    requires Spells("", shown)
    ensures Spells(text, shown + [text])
  {
    SpellsOne(text, "");
    assert text + "" == text;
    SpellsConcat("", shown, text, [text]);
    assert "" + text == text;
  }

  lemma StepKeeps(r: Run, a: Action)
    requires Well(r) && Quiet(r, a)
    ensures Well(Step(r, a))
    ensures Faithful(r) && !Repeats(r, a) ==> Faithful(Step(r, a))
    ensures Faithful(r) && Repeats(r, a) ==> TooMuch(Step(r, a))
    ensures TooMuch(r) ==> TooMuch(Step(r, a))
  {
    match a
    case FlushStarts(_) => FlushStepKeeps(r, a);
    case SendSettles => FlushStepKeeps(r, a);
    case CloseRun(reason) => CloseKeeps(r, reason);
    case TerminalArrives(_, _, _) => ArrivalKeeps(r, a);
    case DeltaArrives(_, _, _) => ArrivalKeeps(r, a);
  }

  lemma ArrivalKeeps(r: Run, a: Action)
    requires Well(r) && Quiet(r, a) && (a.TerminalArrives? || a.DeltaArrives?)
    ensures var s := Step(r, a); Well(s) && Current(s) == Current(r) && s.log == r.log
  {
    hide Trim, Trimmed, Plain, HasSeq;
    PlainTrimmed(a.message);
  }

  lemma PlainTrimmed(message: Option<string>)
    ensures Plain(message).Some? ==> Plain(message).value != "" && Trimmed(Plain(message).value)
  {
    if message.Some? {
      TrimIsTrimmed(message.value);
    }
  }

  // ----- whole runs

  /** No terminal event comes in while a terminal text is being sent. */
  predicate QuietTerminals(forwardFinalOnly: bool, actions: seq<Action>) {
    forall k :: 0 <= k < |actions| ==> Quiet(After(forwardFinalOnly, actions[..k]), actions[k])
  }

  predicate NothingRepeated(forwardFinalOnly: bool, actions: seq<Action>) {
    forall k :: 0 <= k < |actions| ==> !Repeats(After(forwardFinalOnly, actions[..k]), actions[k])
  }

  lemma LastStep(forwardFinalOnly: bool, actions: seq<Action>)
    requires actions != []
    ensures var before := actions[..|actions| - 1];
            var r := After(forwardFinalOnly, before);
            && After(forwardFinalOnly, actions) == Step(r, actions[|actions| - 1])
            && (QuietTerminals(forwardFinalOnly, actions) <==>
                  QuietTerminals(forwardFinalOnly, before) && Quiet(r, actions[|actions| - 1]))
            && (NothingRepeated(forwardFinalOnly, actions) <==>
                  NothingRepeated(forwardFinalOnly, before) && !Repeats(r, actions[|actions| - 1]))
  {
    hide *;
    AfterLast(forwardFinalOnly, actions);
    QuietLast(forwardFinalOnly, actions);
    RepeatedLast(forwardFinalOnly, actions);
  }

  lemma AfterLast(forwardFinalOnly: bool, actions: seq<Action>)
    requires actions != []
    ensures After(forwardFinalOnly, actions) == Step(After(forwardFinalOnly, actions[..|actions| - 1]), actions[|actions| - 1])
  {
    hide Step;
  }

  lemma QuietLast(forwardFinalOnly: bool, actions: seq<Action>)
    requires actions != []
    ensures var before := actions[..|actions| - 1];
            QuietTerminals(forwardFinalOnly, actions) <==>
              QuietTerminals(forwardFinalOnly, before) && Quiet(After(forwardFinalOnly, before), actions[|actions| - 1])
  {
    hide After, Quiet;
    var before := actions[..|actions| - 1];
    forall i | 0 <= i < |before| ensures before[..i] == actions[..i] && before[i] == actions[i] {}
  }

  lemma RepeatedLast(forwardFinalOnly: bool, actions: seq<Action>)
    requires actions != []
    ensures var before := actions[..|actions| - 1];
            NothingRepeated(forwardFinalOnly, actions) <==>
              NothingRepeated(forwardFinalOnly, before) && !Repeats(After(forwardFinalOnly, before), actions[|actions| - 1])
  {
    hide After, Repeats;
    var before := actions[..|actions| - 1];
    forall i | 0 <= i < |before| ensures before[..i] == actions[..i] && before[i] == actions[i] {}
  }

  lemma {:induction false} FaithfulOrTooMuch(forwardFinalOnly: bool, actions: seq<Action>)
    requires QuietTerminals(forwardFinalOnly, actions)
    ensures var r := After(forwardFinalOnly, actions);
            Well(r) && if NothingRepeated(forwardFinalOnly, actions) then Faithful(r) else TooMuch(r)
  {
    hide *;
    if actions == [] {
      AtFirst(forwardFinalOnly);
    } else {
      var k := |actions| - 1;
      LastStep(forwardFinalOnly, actions);
      FaithfulOrTooMuch(forwardFinalOnly, actions[..k]);
      StepKeeps(After(forwardFinalOnly, actions[..k]), actions[k]);
    }
  }

  lemma AtFirst(forwardFinalOnly: bool)
    ensures Well(After(forwardFinalOnly, [])) && Faithful(After(forwardFinalOnly, [])) && NothingRepeated(forwardFinalOnly, [])
  {
    SpellsNothing();
  }

  /**
   * Over every run in which no terminal event comes in while one is being sent: the text taken as delivered,
   * followed by the recovered pieces, spells the last full text up to white space between them, exactly when
   * no step repeats text that was already there.
   */
  lemma RecoveryConservesText(forwardFinalOnly: bool, actions: seq<Action>)
    requires QuietTerminals(forwardFinalOnly, actions)
    ensures var r := After(forwardFinalOnly, actions);
            Spells(Current(r), Shown(r.log)) <==> NothingRepeated(forwardFinalOnly, actions)
  {
    hide QuietTerminals, NothingRepeated, Spells, Current, Shown, TooMuch;
    var r := After(forwardFinalOnly, actions);
    FaithfulOrTooMuch(forwardFinalOnly, actions);
    if TooMuch(r) {
      TooMuchIsUnfaithful(r);
    }
  }

  predicate Closed(actions: seq<Action>) {
    exists i :: 0 <= i < |actions| && actions[i].CloseRun?
  }

  /** Nothing is recovered before the primary reply is complete. */
  lemma {:induction false} NothingRecoveredBeforeClose(forwardFinalOnly: bool, actions: seq<Action>)
    ensures var r := After(forwardFinalOnly, actions);
            && (r.primaryCompleted ==> Closed(actions))
            && ((exists i :: 0 <= i < |r.log| && !r.log[i].Signal?) || Recovering(r.flush) ==> r.primaryCompleted)
  {
    hide Step;
    if actions != [] {
      var k := |actions| - 1;
      NothingRecoveredBeforeClose(forwardFinalOnly, actions[..k]);
      OnlyCloseCompletes(After(forwardFinalOnly, actions[..k]), actions[k]);
      assert Closed(actions[..k]) ==> Closed(actions);
    }
  }

  lemma OnlyCloseCompletes(r: Run, a: Action)
    requires (exists i :: 0 <= i < |r.log| && !r.log[i].Signal?) || Recovering(r.flush) ==> r.primaryCompleted
    ensures var s := Step(r, a);
            && (s.primaryCompleted <==> r.primaryCompleted || a.CloseRun?)
            && ((exists i :: 0 <= i < |s.log| && !s.log[i].Signal?) || Recovering(s.flush) ==> s.primaryCompleted)
  {
    hide Deltas, RecoverTerminal, Pending, InFlight, SortBySeq, TreatsTerminalAsDelivered, Plain;
    var s := Step(r, a);
    if a.FlushStarts? && r.flush == Idle && Truthy(Attached(r, a.trace).backendMessageId) {
      var b := Attached(r, a.trace).(buffered := []);
      var piece := DeltasContinue(b, SortBySeq(r.buffered), None);
      assert forall i :: 0 <= i < |r.log| ==> s.log[i] == r.log[i];
    } else if a.SendSettles? {
      match r.flush
      case Idle =>
      case SendingSignal(d, rest, latest) =>
        var piece := DeltasContinue(Forwarded(r, d), rest, Latest(d, latest));
        assert forall i :: 0 <= i < |r.log| ==> s.log[i] == r.log[i];
      case SendingDelta(d) =>
        var piece := TerminalContinues(r.(lastDelivered := d.text, lastRecoverySeq := d.seq_));
      case SendingTerminal(_) =>
    }
  }

  /** A recovery is never for a text that is blank or the same as the one delivered, and its piece is not blank. */
  lemma UnchangedTextNotResent(r: Run, a: Action)
    requires Well(r) && (a.FlushStarts? || a.SendSettles?)
    requires |Step(r, a).log| > |r.log| && Step(r, a).log[|r.log|].Recovered?
    ensures var s := Step(r, a);
            && Recovering(s.flush) && Current(s) != Delivered(s) && Current(s) != ""
            && Trimmed(s.log[|r.log|].piece) && s.log[|r.log|].piece != ""
  {
    hide Pending, Deltas, RecoverTerminal, SortBySeq, Trimmed;
    var piece := StepContinues(r, a);
    DeliveredTrimmed(Before(r, a));
    PendingFacts(Delivered(Before(r, a)), InFlight(Step(r, a).flush));
  }
}
