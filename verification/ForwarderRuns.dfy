/** Runs that recover text faithfully, told from what comes in; and two runs that do not. */
module ForwarderRuns {
  import opened Options
  import opened Text
  import opened GatewayForwarder
  import opened ForwarderText

  /** The text each number carries: every text begins with the texts of the numbers before it. */
  ghost predicate Growing(said: nat -> Option<string>) {
    && (forall n :: said(n).Some? ==> said(n).value != "" && Trimmed(said(n).value))
    && (forall m, n :: m <= n && said(m).Some? && said(n).Some? ==> said(m).value <= said(n).value)
  }

  /**
   * What may come in: deltas numbered above the terminal event seen, terminal events in order and never while
   * a flush is under way, and no close that adopts the terminal text while deltas are still waiting.
   */
  predicate Calm(r: Run, a: Action, said: nat -> Option<string>) {
    match a
    case DeltaArrives(n, message, _) =>
      Plain(message) == said(n) && (r.terminalSeq.Some? ==> n > r.terminalSeq.value)
    case TerminalArrives(n, message, _) =>
      Plain(message) == said(n) && r.flush == Idle && (r.terminalSeq.Some? ==> n >= r.terminalSeq.value)
    case CloseRun(_) => Step(r, a).log == r.log || (r.flush == Idle && r.buffered == [])
    case FlushStarts(_) => true
    case SendSettles => true
  }

  predicate CalmRun(forwardFinalOnly: bool, actions: seq<Action>, said: nat -> Option<string>) {
    forall k :: 0 <= k < |actions| ==> Calm(After(forwardFinalOnly, actions[..k]), actions[k], said)
  }

  /** The waiting deltas come after text q, or will be passed over. */
  predicate Later(deltas: seq<Delta>, q: int, forwarded: int, said: nat -> Option<string>) {
    forall i :: 0 <= i < |deltas| ==>
      deltas[i].text == said(deltas[i].seq_) && (deltas[i].seq_ > q || deltas[i].seq_ <= forwarded)
  }

  predicate LatestAfter(latest: Option<Delta>, q: int, forwarded: int, said: nat -> Option<string>) {
    latest.Some? ==> latest.value.text == said(latest.value.seq_) && q < latest.value.seq_ <= forwarded
  }

  predicate AboveTerminal(r: Run) {
    r.terminalSeq.Some? ==> forall i :: 0 <= i < |r.buffered| ==> r.buffered[i].seq_ > r.terminalSeq.value
  }

  /** Text q is the one delivered last; everything that may still be recovered comes after it. */
  predicate Tracks(r: Run, q: int, said: nat -> Option<string>) {
    && (r.lastDelivered.Some? ==> q >= 0 && r.lastDelivered == said(q))
    && (q > r.lastRecoverySeq && q >= 0 ==> r.terminalSeq.Some? && q <= r.terminalSeq.value)
    && r.lastRecoverySeq <= r.lastForwardedSeq && -1 <= r.lastForwardedSeq && -1 <= q
    && r.terminalText == (if r.terminalSeq.Some? then said(r.terminalSeq.value) else None)
    && Later(r.buffered, q, r.lastForwardedSeq, said)
  }

  predicate FlushTracks(r: Run, q: int, said: nat -> Option<string>) {
    && (r.flush != Idle ==> AboveTerminal(r))
    && match r.flush
       case Idle => true
       case SendingSignal(d, rest, latest) =>
         && d.text == said(d.seq_) && d.seq_ > q
         && Later(rest, q, r.lastForwardedSeq, said) && LatestAfter(latest, q, r.lastForwardedSeq, said)
       case SendingDelta(d) => d.text == said(d.seq_) && q < d.seq_ <= r.lastForwardedSeq
       case SendingTerminal(_) => r.terminalSeq.Some? && r.terminalText == said(r.terminalSeq.value)
  }

  /** Whatever is being recovered begins with what has been delivered. */
  predicate Extends(s: Run) {
    Recovering(s.flush) ==> Delivered(s) <= Current(s)
  }

  lemma SaidExtends(r: Run, q: int, n: nat, said: nat -> Option<string>)
    requires Growing(said) && Tracks(r, q, said) && q <= n && Truthy(said(n))
    ensures Delivered(r) <= Trim(said(n).value)
  {
    TrimIsTrimmed(said(n).value);
    if r.lastDelivered.Some? {
      TrimIsTrimmed(r.lastDelivered.value);
    }
  }

  lemma TerminalTracks(r: Run, q: int, said: nat -> Option<string>)
    requires Growing(said) && Tracks(r, q, said) && AboveTerminal(r)
    ensures var s := RecoverTerminal(r); Tracks(s, q, said) && FlushTracks(s, q, said) && Extends(s)
  {
    hide Pending, Trim, Later, Growing;
    if r.terminalSeq.Some? && r.terminalSeq.value > r.lastRecoverySeq && Truthy(r.terminalText) {
      SaidExtends(r, q, r.terminalSeq.value, said);
    }
  }

  lemma DeltaTracks(r: Run, latest: Option<Delta>, q: int, said: nat -> Option<string>)
    requires Growing(said) && Tracks(r, q, said) && AboveTerminal(r) && LatestAfter(latest, q, r.lastForwardedSeq, said)
    ensures var s := RecoverDelta(r, latest); Tracks(s, q, said) && FlushTracks(s, q, said) && Extends(s)
  {
    hide Pending, Trim, Later, Growing, RecoverTerminal;
    TerminalTracks(r, q, said);
    if latest.Some? && Truthy(latest.value.text) {
      SaidExtends(r, q, latest.value.seq_, said);
    }
  }

  lemma {:induction false} DeltasTrack(r: Run, rest: seq<Delta>, latest: Option<Delta>, q: int, said: nat -> Option<string>)
    requires Growing(said) && Tracks(r, q, said) && AboveTerminal(r)
    requires Later(rest, q, r.lastForwardedSeq, said) && LatestAfter(latest, q, r.lastForwardedSeq, said)
    ensures var s := Deltas(r, rest, latest); Tracks(s, q, said) && FlushTracks(s, q, said) && Extends(s)
    decreases |rest|
  {
    hide RecoverDelta, Growing, Trim;
    if rest == [] {
      DeltaTracks(r, latest, q, said);
    } else {
      assert Later(rest[1..], q, r.lastForwardedSeq, said);
      if !Truthy(r.backendMessageId) || rest[0].seq_ <= r.lastForwardedSeq {
        DeltasTrack(r, rest[1..], latest, q, said);
      } else if !r.forwardFinalOnly {
        DeltasTrack(Forwarded(r, rest[0]), rest[1..], Latest(rest[0], latest), q, said);
      }
    }
  }

  lemma {:induction false} InsertLater(s: seq<Delta>, d: Delta, q: int, forwarded: int, said: nat -> Option<string>)
    requires Later(s + [d], q, forwarded, said)
    ensures Later(InsertBySeq(s, d), q, forwarded, said)
  {
    assert (s + [d])[|s|] == d && forall i :: 0 <= i < |s| ==> (s + [d])[i] == s[i];
    if s != [] {
      assert forall i :: 0 <= i < |s[1..] + [d]| ==> (s[1..] + [d])[i] == (s + [d])[i + 1];
      InsertLater(s[1..], d, q, forwarded, said);
    }
  }

  lemma {:induction false} SortLater(s: seq<Delta>, q: int, forwarded: int, said: nat -> Option<string>)
    requires Later(s, q, forwarded, said)
    ensures Later(SortBySeq(s), q, forwarded, said)
  {
    hide InsertBySeq;
    if s != [] {
      var n := |s| - 1;
      SortLater(s[..n], q, forwarded, said);
      InsertLater(SortBySeq(s[..n]), s[n], q, forwarded, said);
    }
  }

  lemma SettledTracks(r: Run, q: int, said: nat -> Option<string>) returns (next: int)
    requires Growing(said) && Tracks(r, q, said) && FlushTracks(r, q, said)
    ensures var s := Settled(r); Tracks(s, next, said) && FlushTracks(s, next, said) && Extends(s)
  {
    hide Growing, Deltas, RecoverTerminal, Trim;
    next := q;
    match r.flush
    case Idle =>
    case SendingSignal(d, rest, latest) =>
      DeltasTrack(Forwarded(r, d), rest, Latest(d, latest), q, said);
    case SendingDelta(d) =>
      next := d.seq_;
      TerminalTracks(r.(lastDelivered := d.text, lastRecoverySeq := d.seq_), next, said);
    case SendingTerminal(_) =>
      next := r.terminalSeq.value;
  }

  lemma LaterMore(s: seq<Delta>, d: Delta, q: int, forwarded: int, said: nat -> Option<string>)
    requires Later(s, q, forwarded, said) && d.text == said(d.seq_) && d.seq_ > q
    ensures Later(s + [d], q, forwarded, said)
  {
  }

  lemma ArrivalTracks(r: Run, a: Action, q: int, said: nat -> Option<string>)
    requires Tracks(r, q, said) && FlushTracks(r, q, said) && Calm(r, a, said) && (a.DeltaArrives? || a.TerminalArrives?)
    ensures var s := Step(r, a); Tracks(s, q, said) && FlushTracks(s, q, said) && s.log == r.log
  {
    hide Plain, Later, HasSeq, AboveTerminal;
    if a.DeltaArrives? {
      var s := Step(r, a);
      AboveMore(r, Delta(a.seq_, Plain(a.message), r.nextReceivedOrder));
      if s.buffered != r.buffered {
        LaterMore(r.buffered, Delta(a.seq_, Plain(a.message), r.nextReceivedOrder), q, r.lastForwardedSeq, said);
      }
      SameAbove(r, s);
    }
  }

  lemma SameAbove(r: Run, s: Run)
    requires r.terminalSeq == s.terminalSeq
    ensures AboveTerminal(r.(buffered := s.buffered)) == AboveTerminal(s)
    ensures r.buffered == s.buffered ==> AboveTerminal(r) == AboveTerminal(s)
  {
  }

  lemma AboveMore(r: Run, d: Delta)
    requires r.terminalSeq.Some? ==> d.seq_ > r.terminalSeq.value
    ensures AboveTerminal(r) ==> AboveTerminal(r.(buffered := r.buffered + [d]))
  {
  }

  lemma CloseTracks(r: Run, reason: string, q: int, said: nat -> Option<string>) returns (next: int)
    requires Tracks(r, q, said) && FlushTracks(r, q, said) && Calm(r, CloseRun(reason), said)
    ensures var s := Step(r, CloseRun(reason)); Tracks(s, next, said) && FlushTracks(s, next, said)
    ensures Step(r, CloseRun(reason)).log != r.log ==> r.flush == Idle
  {
    hide TreatsTerminalAsDelivered;
    var s := Step(r, CloseRun(reason));
    next := if s.log != r.log then r.terminalSeq.value else q;
    assert |s.log| == |r.log| || s.log == r.log + [Adopted(r.terminalText.value)];
  }

  lemma CalmStep(r: Run, a: Action, q: int, said: nat -> Option<string>) returns (next: int)
    requires Growing(said) && Tracks(r, q, said) && FlushTracks(r, q, said) && Calm(r, a, said)
    ensures Tracks(Step(r, a), next, said) && FlushTracks(Step(r, a), next, said)
    ensures !Repeats(r, a) && Quiet(r, a)
  {
    hide Growing, Deltas, Settled, SortBySeq, TreatsTerminalAsDelivered, Plain, Trim;
    next := q;
    match a
    case DeltaArrives(_, _, _) => ArrivalTracks(r, a, q, said);
    case TerminalArrives(_, _, _) => ArrivalTracks(r, a, q, said);
    case CloseRun(reason) => next := CloseTracks(r, reason, q, said);
    case FlushStarts(trace) =>
      var s := Attached(r, trace);
      if r.flush == Idle && Truthy(s.backendMessageId) {
        SortLater(s.buffered, q, s.lastForwardedSeq, said);
        DeltasTrack(s.(buffered := []), SortBySeq(s.buffered), None, q, said);
        var piece := DeltasContinue(s.(buffered := []), SortBySeq(s.buffered), None);
      }
    case SendSettles =>
      next := SettledTracks(r, q, said);
      RecoveredWhileRecovering(r);
  }

  /** Where a settled submission leads to a new recovery, that recovery is under way. */
  lemma RecoveredWhileRecovering(r: Run)
    ensures var s := Settled(r);
            |s.log| > |r.log| && s.log[|r.log|].Recovered? ==> Recovering(s.flush)
  {
    hide Deltas, RecoverTerminal, Pending, InFlight;
    match r.flush
    case Idle =>
    case SendingSignal(d, rest, latest) =>
      var piece := DeltasContinue(Forwarded(r, d), rest, Latest(d, latest));
    case SendingDelta(d) =>
      var piece := TerminalContinues(r.(lastDelivered := d.text, lastRecoverySeq := d.seq_));
    case SendingTerminal(_) =>
  }

  lemma {:induction false} CalmRunTracks(forwardFinalOnly: bool, actions: seq<Action>, said: nat -> Option<string>) returns (q: int)
    requires Growing(said) && CalmRun(forwardFinalOnly, actions, said)
    ensures Tracks(After(forwardFinalOnly, actions), q, said) && FlushTracks(After(forwardFinalOnly, actions), q, said)
    ensures NothingRepeated(forwardFinalOnly, actions) && QuietTerminals(forwardFinalOnly, actions)
  {
    hide *;
    if actions == [] {
      q := -1;
      AtFirstTracks(forwardFinalOnly, said);
    } else {
      var k := |actions| - 1;
      CalmBefore(forwardFinalOnly, actions, said);
      q := CalmRunTracks(forwardFinalOnly, actions[..k], said);
      q := CalmStep(After(forwardFinalOnly, actions[..k]), actions[k], q, said);
      LastStep(forwardFinalOnly, actions);
    }
  }

  lemma CalmBefore(forwardFinalOnly: bool, actions: seq<Action>, said: nat -> Option<string>)
    requires CalmRun(forwardFinalOnly, actions, said) && actions != []
    ensures CalmRun(forwardFinalOnly, actions[..|actions| - 1], said)
    ensures Calm(After(forwardFinalOnly, actions[..|actions| - 1]), actions[|actions| - 1], said)
  {
    hide After, Calm;
    var before := actions[..|actions| - 1];
    assert forall i :: 0 <= i < |before| ==> before[..i] == actions[..i] && before[i] == actions[i];
  }

  lemma AtFirstTracks(forwardFinalOnly: bool, said: nat -> Option<string>)
    ensures var r := After(forwardFinalOnly, []); Tracks(r, -1, said) && FlushTracks(r, -1, said)
    ensures NothingRepeated(forwardFinalOnly, []) && QuietTerminals(forwardFinalOnly, [])
  {
  }

  /**
   * When each text begins with the texts numbered before it and the events come in calmly, what the reader has
   * been given spells the last full text: nothing is repeated and nothing left out.
   */
  lemma CalmRunsConserveText(forwardFinalOnly: bool, actions: seq<Action>, said: nat -> Option<string>)
    requires Growing(said) && CalmRun(forwardFinalOnly, actions, said)
    ensures var r := After(forwardFinalOnly, actions); Spells(Current(r), Shown(r.log))
  {
    hide *;
    var q := CalmRunTracks(forwardFinalOnly, actions, said);
    RecoveryConservesText(forwardFinalOnly, actions);
  }

  // ----- which closes adopt

  function LowerChar(c: char): char {
    if 'A' <= c <= 'Z' then c - 'A' + 'a' else c
  }

  /** The word stands somewhere in the reason, in whatever case. */
  predicate Mentions(reason: string, word: string) {
    exists i :: 0 <= i <= |reason| - |word| && MentionsAt(reason, word, i)
  }

  predicate MentionsAt(reason: string, word: string, i: nat)
    requires i + |word| <= |reason|
  {
    forall j :: 0 <= j < |word| ==> LowerChar(reason[i + j]) == word[j]
  }

  lemma MentionsContains(reason: string, word: string)
    ensures Contains(Lower(reason), word) <==> Mentions(reason, word)
  {
    hide MentionsAt, Lower;
    assert |Lower(reason)| == |reason| by { LowerLength(reason); }
    forall i: nat | i + |word| <= |reason| ensures word <= Lower(reason)[i..] <==> MentionsAt(reason, word, i) {
      MentionsThere(reason, word, i);
    }
  }

  lemma LowerLength(reason: string)
    ensures |Lower(reason)| == |reason|
  {
  }

  lemma MentionsThere(reason: string, word: string, i: nat)
    requires i + |word| <= |reason| == |Lower(reason)|
    ensures word <= Lower(reason)[i..] <==> MentionsAt(reason, word, i)
  {
    var rest := Lower(reason)[i..];
    assert forall j :: 0 <= j < |word| ==> rest[j] == LowerChar(reason[i + j]);
    if MentionsAt(reason, word, i) {
      assert rest[..|word|] == word;
    }
  }

  /** A close takes the terminal text as delivered unless its reason mentions a failure, or that there is no reply. */
  lemma ReasonsThatDeliver(reason: string)
    ensures TreatsTerminalAsDelivered(reason) <==>
              forall word :: word in {"aborted", "error", "timeout", "failed", "no_message", "no_reply"} ==> !Mentions(reason, word)
  {
    hide Contains, Lower, Mentions;
    MentionsContains(reason, "aborted");
    MentionsContains(reason, "error");
    MentionsContains(reason, "timeout");
    MentionsContains(reason, "failed");
    MentionsContains(reason, "no_message");
    MentionsContains(reason, "no_reply");
  }

  // ----- where it fails

  const LATE_TERMINAL: seq<Action> := [
    TerminalArrives(1, Some("a"), Some("m")),
    CloseRun("error"),
    FlushStarts(None),
    TerminalArrives(2, Some("b"), None),
    SendSettles,
    FlushStarts(None)]

  lemma {:induction false} AfterMore(forwardFinalOnly: bool, actions: seq<Action>, n: nat)
    requires n < |actions|
    ensures After(forwardFinalOnly, actions[..n + 1]) == Step(After(forwardFinalOnly, actions[..n]), actions[n])
  {
    assert actions[..n + 1][..n] == actions[..n];
  }

  lemma PlainOf(s: string)
    requires Trimmed(s) && s != ""
    ensures Plain(Some(s)) == Some(s) && Trim(s) == s
  {
    TrimIsTrimmed(s);
  }

  lemma ErrorIsNotDelivered()
    ensures !TreatsTerminalAsDelivered("error")
  {
    assert Lower("error") == "error";
    assert "error" <= Lower("error")[0..];
    assert Contains(Lower("error"), "error");
  }

  /** A run that loses a terminal text: the second one, "b", counts as forwarded, and only "a" was sent. */
  lemma LateTerminalLost()
    ensures var r := After(true, LATE_TERMINAL);
            && r.log == [Recovered("a", 1, true)] && r.terminalText == Some("b") && r.lastForwardedTerminalSeq == 2 && r.flush == Idle
  {
    LateTerminalState();
  }

  lemma LateTerminalState()
    ensures After(true, LATE_TERMINAL) ==
              NewRun(true).(backendMessageId := Some("m"), primaryCompleted := true, terminalSeq := Some(2), terminalText := Some("b"),
                            lastDelivered := Some("b"), lastForwardedTerminalSeq := 2, log := [Recovered("a", 1, true)])
  {
    hide Trim, TreatsTerminalAsDelivered, After, Plain;
    PlainOf("a");
    PlainOf("b");
    ErrorIsNotDelivered();
    var actions := LATE_TERMINAL;
    assert actions[..0] == [] && actions[..6] == actions;
    Nothing(true);
    AfterMore(true, actions, 0);
    AfterMore(true, actions, 1);
    AfterMore(true, actions, 2);
    AfterMore(true, actions, 3);
    AfterMore(true, actions, 4);
    AfterMore(true, actions, 5);
    assert SortBySeq([]) == [];
  }

  /** The same text once more is not sent either: it counts as shown, although it never was. */
  lemma LateTerminalStaysLost()
    ensures var r := After(true, LATE_TERMINAL + [TerminalArrives(3, Some("b"), None), FlushStarts(None)]);
            && r.log == [Recovered("a", 1, true)] && r.terminalText == Some("b") && r.lastForwardedTerminalSeq == 3 && r.flush == Idle
  {
    hide Trim, TreatsTerminalAsDelivered, After, Plain;
    PlainOf("b");
    LateTerminalState();
    var actions := LATE_TERMINAL + [TerminalArrives(3, Some("b"), None), FlushStarts(None)];
    assert actions[..6] == LATE_TERMINAL && actions[..8] == actions;
    AfterMore(true, actions, 6);
    AfterMore(true, actions, 7);
    assert SortBySeq([]) == [];
  }

  const OVERTAKEN: seq<Action> := [
    DeltaArrives(5, Some("x"), Some("m")),
    CloseRun("error"),
    FlushStarts(None),
    SendSettles,
    SendSettles,
    TerminalArrives(3, Some("abc"), None),
    FlushStarts(None)]

  lemma OvertakenStart()
    ensures After(true, OVERTAKEN[..5]) ==
              NewRun(true).(backendMessageId := Some("m"), nextReceivedOrder := 1, primaryCompleted := true, lastForwardedSeq := 5,
                            lastRecoverySeq := 5, lastDelivered := Some("x"), log := [Signal(5, "m"), Recovered("x", 5, false)])
  {
    hide Trim, TreatsTerminalAsDelivered, After, Plain, SortBySeq;
    PlainOf("x");
    ErrorIsNotDelivered();
    var actions, d := OVERTAKEN, Delta(5, Some("x"), 0);
    assert actions[..0] == [];
    Nothing(true);
    AfterMore(true, actions, 0);
    assert After(true, actions[..1]).buffered == [d];
    AfterMore(true, actions, 1);
    SortOne(d);
    assert [d][1..] == [];
    AfterMore(true, actions, 2);
    assert After(true, actions[..3]).flush == SendingSignal(d, [], None);
    AfterMore(true, actions, 3);
    assert After(true, actions[..4]).flush == SendingDelta(d);
    AfterMore(true, actions, 4);
  }

  /**
   * Another run that loses a terminal text: a recovery has overtaken its number. The text "abc" is pending and does not
   * count as forwarded, and no flush to come changes anything.
   */
  lemma OvertakenTerminalLost()
    ensures var r := After(true, OVERTAKEN);
            && r.log == [Signal(5, "m"), Recovered("x", 5, false)] && r.terminalText == Some("abc") && r.flush == Idle
            && r.primaryCompleted && r.lastForwardedTerminalSeq == -1 && Pending(Delivered(r), "abc") == Some("abc")
            && forall trace :: Step(r, FlushStarts(trace)) == r
  {
    hide Trim, TreatsTerminalAsDelivered, After, Plain, SortBySeq;
    PlainOf("abc");
    PlainOf("x");
    OvertakenStart();
    var actions := OVERTAKEN;
    assert actions[..7] == actions;
    AfterMore(true, actions, 5);
    assert SortBySeq([]) == [] by { SortNone(); }
    AfterMore(true, actions, 6);
  }

  lemma SortNone()
    ensures SortBySeq([]) == []
  {
  }

  lemma Nothing(forwardFinalOnly: bool)
    ensures After(forwardFinalOnly, []) == NewRun(forwardFinalOnly)
  {
  }

  const BEHIND: seq<Action> := [
    DeltaArrives(0, None, Some("m")),
    CloseRun("error"),
    FlushStarts(None),
    DeltaArrives(1, Some("a"), None),
    TerminalArrives(2, Some("a b"), None),
    SendSettles,
    SendSettles,
    FlushStarts(None),
    SendSettles]

  /**
   * Events in order, each text beginning with the one before, no terminal event while a terminal text is being
   * sent; yet the text of the delta that waited behind the flush goes out again after the terminal text.
   */
  lemma DeltaBehindTerminalRepeats()
    ensures QuietTerminals(true, BEHIND)
    ensures Repeats(After(true, BEHIND[..8]), BEHIND[8])
    ensures !Spells(Current(After(true, BEHIND)), Shown(After(true, BEHIND).log))
    ensures After(true, BEHIND).log == [Signal(0, "m"), Recovered("a b", 2, true), Signal(1, "m"), Recovered("a", 1, false)]
  {
    hide *;
    BehindSteps();
    RecoveryConservesText(true, BEHIND);
    RepeatedSomewhere();
  }

  /** The run after the terminal text has been sent and the delta behind it has been taken up. */
  function Waiting(log: seq<Output>, flush: Flush): Run {
    Run(true, Some("m"), 0, -1, true, None, Some(2), Some("a b"), -1, [Delta(1, Some("a"), 1)], 2, flush, log)
  }

  lemma BehindFirst()
    ensures forall k :: 0 <= k < 3 ==> Quiet(After(true, BEHIND[..k]), BEHIND[k])
    ensures After(true, BEHIND[..3]) ==
            Run(true, Some("m"), -1, -1, true, None, None, None, -1, [], 1, SendingSignal(Delta(0, None, 0), [], None), [Signal(0, "m")])
  {
    hide Trim, TreatsTerminalAsDelivered, After, Plain, SortBySeq, Quiet;
    PlainNone();
    ErrorIsNotDelivered();
    var actions := BEHIND;
    assert actions[..0] == [];
    Nothing(true);
    AfterMore(true, actions, 0);
    assert After(true, actions[..1]) == NewRun(true).(backendMessageId := Some("m"), buffered := [Delta(0, None, 0)], nextReceivedOrder := 1);
    AfterMore(true, actions, 1);
    SortOne(Delta(0, None, 0));
    assert [Delta(0, None, 0)][1..] == [];
    assert After(true, actions[..2]).backendMessageId == Some("m");
    AfterMore(true, actions, 2);
    assert forall k :: 0 <= k < 3 ==> Quiet(After(true, actions[..k]), actions[k]) by {
      OnlyTerminalsDisturb();
    }
  }

  lemma OnlyTerminalsDisturb()
    ensures forall r, a: Action :: !a.TerminalArrives? ==> Quiet(r, a)
  {
  }

  lemma BehindStart()
    ensures forall k :: 0 <= k < 5 ==> Quiet(After(true, BEHIND[..k]), BEHIND[k])
    ensures var r := After(true, BEHIND[..5]);
            r == Waiting([Signal(0, "m")], SendingSignal(Delta(0, None, 0), [], None)).(lastForwardedSeq := -1)
  {
    hide Trim, TreatsTerminalAsDelivered, After, Plain, SortBySeq, Deltas;
    PlainOf("a");
    PlainOf("a b");
    BehindFirst();
    var actions := BEHIND;
    AfterMore(true, actions, 3);
    assert After(true, actions[..4]).buffered == [Delta(1, Some("a"), 1)];
    AfterMore(true, actions, 4);
  }

  lemma SortOne(d: Delta)
    ensures SortBySeq([d]) == [d]
  {
    assert [d][..0] == [];
  }

  lemma BehindEnd()
    ensures forall k :: 5 <= k < 9 ==> Quiet(After(true, BEHIND[..k]), BEHIND[k])
    ensures var r := After(true, BEHIND[..8]);
            && r.lastDelivered == Some("a b") && r.lastForwardedSeq == 0 && r.lastRecoverySeq == -1 && r.primaryCompleted
            && r.flush == SendingSignal(Delta(1, Some("a"), 1), [], None)
            && r.log == [Signal(0, "m"), Recovered("a b", 2, true), Signal(1, "m")]
  {
    hide Trim, TreatsTerminalAsDelivered, After, Plain;
    PlainOf("a b");
    BehindStart();
    var actions := BEHIND;
    AfterMore(true, actions, 5);
    assert After(true, actions[..6]).flush == SendingTerminal("a b");
    AfterMore(true, actions, 6);
    assert After(true, actions[..7]).flush == Idle;
    SortOne(Delta(1, Some("a"), 1));
    AfterMore(true, actions, 7);
  }

  lemma BehindSteps()
    ensures QuietTerminals(true, BEHIND)
    ensures Repeats(After(true, BEHIND[..8]), BEHIND[8])
    ensures After(true, BEHIND).log == [Signal(0, "m"), Recovered("a b", 2, true), Signal(1, "m"), Recovered("a", 1, false)]
  {
    hide Trim, TreatsTerminalAsDelivered, After, Plain, Quiet;
    PlainOf("a");
    PlainOf("a b");
    BehindStart();
    BehindEnd();
    AfterMore(true, BEHIND, 8);
    assert BEHIND[..9] == BEHIND;
  }

  lemma RepeatedSomewhere()
    requires Repeats(After(true, BEHIND[..8]), BEHIND[8])
    ensures !NothingRepeated(true, BEHIND)
  {
    hide Repeats, After;
  }

  lemma PlainNone()
    ensures Plain(None) == None
  {
  }
}
