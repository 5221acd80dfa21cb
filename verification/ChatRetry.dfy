/** The attempt loop of a chat task: how often it sends, under which keys, and that it always comes to an answer. */
module ChatRetry {
  import opened Options
  import opened Decimal

  datatype Reason = TransportInterruption | ReplySessionInitConflict | Upstream | NonRetryable

  /** Limits as the constructor normalises them. */
  datatype Limits = Limits(attempts: nat, conflictAttempts: nat)

  function Normalised(attempts: int, conflictAttempts: int): (l: Limits)
    ensures 1 <= l.attempts <= l.conflictAttempts
  {
    var a := if attempts < 1 then 1 else attempts;
    Limits(a, if conflictAttempts < a then a else conflictAttempts)
  }

  predicate Usable(l: Limits) {
    1 <= l.attempts <= l.conflictAttempts
  }

  function MaxLoopAttempts(l: Limits): nat {
    if l.attempts < l.conflictAttempts then l.conflictAttempts else l.attempts
  }

  function AttemptsForReason(l: Limits, reason: Reason): nat {
    if reason.ReplySessionInitConflict? then l.conflictAttempts else l.attempts
  }

  /** What the handler around the wait catches: a lost connection, or anything else; and what it then finds. */
  datatype Caught =
    | Disconnected(inTranscript: bool)
    | Missing(inTranscript: bool, slashCommand: bool)

  /**
   * How a turn of the loop goes, with the time it has left and the delay it would wait. After a terminal error the
   * recovery of a session conflict may itself throw, which the handler around the wait catches.
   */
  datatype Course =
    | SendThrows(reason: Reason, rejectsPayload: bool, recoveryThrows: bool)
    | NoRunId
    | Answered
    | TerminalError(reason: Reason, inTranscript: bool, recovery: Option<Caught>)
    | WaitThrows(caught: Caught)

  datatype Turn = Turn(remainingMs: nat, laterRemainingMs: nat, backoffMs: nat, course: Course)

  datatype Send = Send(attempt: nat, key: string, fallback: bool, suffix: Option<string>)

  datatype End = TimedOut | Finished | Failed | Threw | FellThrough

  /** The variables of the loop, and the sends so far. */
  datatype Loop = Loop(attempt: nat, fallback: bool, suffix: Option<string>, sends: seq<Send>, turn: nat)

  datatype Next = Again(loop: Loop) | Over(end: End, sends: seq<Send>)

  const TRANSPORT_SUFFIX := "transport-recovery"
  const CONFLICT_SUFFIX := "reply-session-init-conflict"

  function AttemptKey(taskId: string, attempt: nat, suffix: Option<string>): string {
    if suffix.None? || suffix.value == "" || attempt <= 1 then taskId
    else taskId + ":" + suffix.value + ":" + Digits(attempt)
  }

  function SuffixAfter(suffix: Option<string>, reason: Reason): Option<string> {
    match reason
    case TransportInterruption => Some(TRANSPORT_SUFFIX)
    case ReplySessionInitConflict => Some(CONFLICT_SUFFIX)
    case _ => suffix
  }

  predicate HasTime(remainingMs: nat, backoffMs: nat) {
    remainingMs > backoffMs + 1000
  }

  function Start(fallback: bool): Loop {
    Loop(1, fallback, None, [], 0)
  }

  function Retry(s: Loop, suffix: Option<string>): Next {
    Again(s.(attempt := s.attempt + 1, suffix := suffix, turn := s.turn + 1))
  }

  function TakeTurn(l: Limits, taskId: string, s: Loop, t: Turn): Next {
    if t.remainingMs < 300 then Over(TimedOut, s.sends)
    else
      var sends := s.sends + [Send(s.attempt, AttemptKey(taskId, s.attempt, s.suffix), !s.fallback, s.suffix)];
      var sent := s.(sends := sends);
      match t.course
      case SendThrows(reason, rejectsPayload, recoveryThrows) =>
        var suffix := SuffixAfter(s.suffix, reason);
        if s.fallback && rejectsPayload then Again(sent.(fallback := false, suffix := suffix, turn := s.turn + 1))
        else if s.attempt < AttemptsForReason(l, reason) && HasTime(t.remainingMs, t.backoffMs) then
          if reason.ReplySessionInitConflict? && recoveryThrows then Over(Threw, sends) else Retry(sent, suffix)
        else Over(Failed, sends)
      case NoRunId => Over(Failed, sends)
      case Answered => Over(Finished, sends)
      case TerminalError(reason, inTranscript, recovery) =>
        if !reason.NonRetryable? && s.attempt < AttemptsForReason(l, reason) && HasTime(t.remainingMs, t.backoffMs) then
          var suffixed := sent.(suffix := SuffixAfter(s.suffix, reason));
          if reason.ReplySessionInitConflict? && recovery.Some? then Handled(l, suffixed, t, recovery.value)
          else Retry(suffixed, suffixed.suffix)
        else Over(if inTranscript then Finished else Failed, sends)
      case WaitThrows(caught) => Handled(l, sent, t, caught)
  }

  /** The handler around the wait: a reply found in the transcript ends the task, otherwise the smaller limit counts. */
  function Handled(l: Limits, s: Loop, t: Turn, caught: Caught): Next {
    if caught.inTranscript || (caught.Missing? && caught.slashCommand) then Over(Finished, s.sends)
    else if s.attempt < l.attempts && HasTime(t.laterRemainingMs, t.backoffMs) then
      Retry(s, if caught.Disconnected? then Some(TRANSPORT_SUFFIX) else s.suffix)
    else Over(Failed, s.sends)
  }

  /** The loop from some point on: first the unused fallback, then the attempts left, measure what is to come. */
  function RunFrom(l: Limits, taskId: string, s: Loop, turns: nat -> Turn): (r: Next)
    ensures r.Over?
    decreases s.fallback, MaxLoopAttempts(l) + 1 - s.attempt
  {
    if s.attempt > MaxLoopAttempts(l) then Over(FellThrough, s.sends)
    else
      var next := TakeTurn(l, taskId, s, turns(s.turn));
      if next.Over? then next else RunFrom(l, taskId, next.loop, turns)
  }

  method RunChatTask(l: Limits, taskId: string, hasFallback: bool, turns: nat -> Turn) returns (end: End, sends: seq<Send>)
    requires Usable(l)
    ensures Over(end, sends) == RunFrom(l, taskId, Start(hasFallback), turns)
    ensures end != FellThrough
    ensures |sends| <= MaxLoopAttempts(l) + 1
    ensures !hasFallback ==> |sends| <= MaxLoopAttempts(l)
  {
    var attempt, turn := 1, 0;
    var fallback := hasFallback;
    var suffix: Option<string> := None;
    sends := [];
    while attempt <= MaxLoopAttempts(l)
      invariant 1 <= attempt <= MaxLoopAttempts(l)
      invariant |sends| == attempt - 1 + (if hasFallback && !fallback then 1 else 0)
      invariant !hasFallback ==> !fallback
      invariant RunFrom(l, taskId, Loop(attempt, fallback, suffix, sends, turn), turns) == RunFrom(l, taskId, Start(hasFallback), turns)
      decreases fallback, MaxLoopAttempts(l) - attempt
    {
      var t := turns(turn);
      turn := turn + 1;
      if t.remainingMs < 300 {
        return TimedOut, sends;
      }
      sends := sends + [Send(attempt, AttemptKey(taskId, attempt, suffix), !fallback, suffix)];
      var thrown: Option<Caught> := None;
      match t.course {
        case SendThrows(reason, rejectsPayload, recoveryThrows) =>
          suffix := SuffixAfter(suffix, reason);
          if fallback && rejectsPayload {
            fallback := false;
            attempt := attempt - 1;
          } else if attempt < AttemptsForReason(l, reason) && HasTime(t.remainingMs, t.backoffMs) {
            if reason.ReplySessionInitConflict? && recoveryThrows {
              return Threw, sends;
            }
          } else {
            return Failed, sends;
          }
        case NoRunId =>
          return Failed, sends;
        case Answered =>
          return Finished, sends;
        case TerminalError(reason, inTranscript, recovery) =>
          if reason.NonRetryable? || attempt >= AttemptsForReason(l, reason) || !HasTime(t.remainingMs, t.backoffMs) {
            return if inTranscript then Finished else Failed, sends;
          }
          suffix := SuffixAfter(suffix, reason);
          if reason.ReplySessionInitConflict? && recovery.Some? {
            thrown := recovery;
          }
        case WaitThrows(caught) =>
          thrown := Some(caught);
      }
      if thrown.Some? {
        var caught := thrown.value;
        if caught.inTranscript || (caught.Missing? && caught.slashCommand) {
          return Finished, sends;
        }
        if attempt >= l.attempts || !HasTime(t.laterRemainingMs, t.backoffMs) {
          return Failed, sends;
        }
        if caught.Disconnected? {
          suffix := Some(TRANSPORT_SUFFIX);
        }
      }
      attempt := attempt + 1;
    }
    return FellThrough, sends;
  }

  // ----- attempts and keys

  /** The turn shows a transport interruption or a session conflict. */
  predicate Interrupts(t: Turn) {
    match t.course
    case SendThrows(reason, _, _) => reason.TransportInterruption? || reason.ReplySessionInitConflict?
    case TerminalError(reason, _, _) => reason.TransportInterruption? || reason.ReplySessionInitConflict?
    case WaitThrows(caught) => caught.Disconnected?
    case _ => false
  }

  predicate KnownSuffix(suffix: Option<string>) {
    suffix.None? || suffix.value == TRANSPORT_SUFFIX || suffix.value == CONFLICT_SUFFIX
  }

  /** Attempt numbers go up; one may be used twice, the second time with the fallback. */
  predicate InTurn(a: Send, b: Send) {
    1 <= a.attempt <= b.attempt && (a.attempt == b.attempt ==> !a.fallback && b.fallback)
  }

  predicate Keyed(send: Send, taskId: string) {
    send.key == AttemptKey(taskId, send.attempt, send.suffix) && KnownSuffix(send.suffix)
  }

  predicate Interrupted(turns: nat -> Turn, n: nat) {
    exists k :: 0 <= k < n && Interrupts(turns(k))
  }

  /** What is known of the sends of a run: send i is made in turn i, with a suffix exactly after an interruption. */
  predicate Sound(sends: seq<Send>, taskId: string, turns: nat -> Turn) {
    && (forall i, j :: 0 <= i < j < |sends| ==> InTurn(sends[i], sends[j]))
    && (forall i :: 0 <= i < |sends| ==>
          Keyed(sends[i], taskId) && 1 <= sends[i].attempt && (sends[i].suffix.Some? <==> Interrupted(turns, i)))
  }

  predicate Good(s: Loop, taskId: string, turns: nat -> Turn) {
    && Sound(s.sends, taskId, turns) && s.turn == |s.sends| && 1 <= s.attempt && KnownSuffix(s.suffix)
    && (s.suffix.Some? <==> Interrupted(turns, s.turn))
    && (forall i :: 0 <= i < |s.sends| ==> InTurn(s.sends[i], CurrentSend(s, taskId)))
    && (s.fallback ==> forall i :: 0 <= i < |s.sends| ==> SentPlain(s.sends[i]))
  }

  predicate SentPlain(send: Send) {
    !send.fallback
  }

  function CurrentSend(s: Loop, taskId: string): Send {
    Send(s.attempt, AttemptKey(taskId, s.attempt, s.suffix), !s.fallback, s.suffix)
  }

  /** What a turn leaves behind: the sends of before and at most one more, under the current key. */
  lemma TurnShape(l: Limits, taskId: string, s: Loop, t: Turn)
    ensures var next := TakeTurn(l, taskId, s, t);
            match next
            case Over(end, sends) => (sends == s.sends || sends == s.sends + [CurrentSend(s, taskId)]) && end != FellThrough
            case Again(loop) =>
              && loop.sends == s.sends + [CurrentSend(s, taskId)] && loop.turn == s.turn + 1
              && (if Interrupts(t) then loop.suffix.Some? && KnownSuffix(loop.suffix) else loop.suffix == s.suffix)
              && (|| (loop.attempt == s.attempt && s.fallback && !loop.fallback)
                  || (loop.attempt == s.attempt + 1 && loop.fallback == s.fallback))
  {
  }

  lemma InterruptedNext(turns: nat -> Turn, n: nat)
    ensures Interrupted(turns, n + 1) <==> Interrupted(turns, n) || Interrupts(turns(n))
  {
  }

  lemma SoundMore(s: Loop, taskId: string, turns: nat -> Turn)
    requires Good(s, taskId, turns)
    ensures Sound(s.sends + [CurrentSend(s, taskId)], taskId, turns)
  {
    hide AttemptKey, Interrupted, InTurn, KnownSuffix;
  }

  lemma TurnKeepsGood(l: Limits, taskId: string, s: Loop, turns: nat -> Turn)
    requires Good(s, taskId, turns) && TakeTurn(l, taskId, s, turns(s.turn)).Again?
    ensures Good(TakeTurn(l, taskId, s, turns(s.turn)).loop, taskId, turns)
  {
    hide TakeTurn, AttemptKey, Interrupted, KnownSuffix, Sound, Interrupts;
    var t := turns(s.turn);
    var loop := TakeTurn(l, taskId, s, t).loop;
    TurnShape(l, taskId, s, t);
    InterruptedNext(turns, s.turn);
    SoundMore(s, taskId, turns);
    forall i | 0 <= i < |loop.sends| ensures InTurn(loop.sends[i], CurrentSend(loop, taskId)) {
      if i < |s.sends| {
        assert InTurn(s.sends[i], CurrentSend(s, taskId));
        assert s.fallback ==> SentPlain(s.sends[i]);
      }
    }
  }

  lemma {:induction false} RunIsSound(l: Limits, taskId: string, s: Loop, turns: nat -> Turn)
    requires Good(s, taskId, turns)
    ensures Sound(RunFrom(l, taskId, s, turns).sends, taskId, turns)
    decreases s.fallback, MaxLoopAttempts(l) + 1 - s.attempt
  {
    hide TakeTurn, Sound;
    if s.attempt <= MaxLoopAttempts(l) {
      var t := turns(s.turn);
      TurnShape(l, taskId, s, t);
      SoundMore(s, taskId, turns);
      var next := TakeTurn(l, taskId, s, t);
      if next.Again? {
        TurnKeepsGood(l, taskId, s, turns);
        RunIsSound(l, taskId, next.loop, turns);
      }
    }
  }

  // ----- distinct keys

  lemma ColonAt(whole: string, p: string, a: string)
    requires whole == p + ":" + a && AllDigits(a)
    ensures whole[|p|] == ':' && (forall i :: |p| < i < |whole| ==> whole[i] != ':') && whole[|p| + 1..] == a
  {
    forall i | |p| < i < |whole| ensures whole[i] != ':' {
      assert whole[i] == a[i - |p| - 1];
    }
  }

  lemma LastColon(p: string, q: string, a: string, b: string)
    requires p + ":" + a == q + ":" + b && AllDigits(a) && AllDigits(b)
    ensures a == b
  {
    ColonAt(p + ":" + a, p, a);
    ColonAt(p + ":" + a, q, b);
  }

  /** Keys of different attempts differ as soon as one of them has a suffix and is not the first attempt's. */
  lemma KeysDiffer(taskId: string, m: nat, n: nat, suffixM: Option<string>, suffix: string)
    requires m != n && 1 <= m < n && suffix != ""
    ensures AttemptKey(taskId, m, suffixM) != AttemptKey(taskId, n, Some(suffix))
  {
    var key := AttemptKey(taskId, n, Some(suffix));
    assert |key| > |taskId|;
    if suffixM.Some? && suffixM.value != "" && m > 1 {
      ValueOfDigits(m);
      ValueOfDigits(n);
      var p, q := taskId + ":" + suffixM.value, taskId + ":" + suffix;
      assert AttemptKey(taskId, m, suffixM) == p + ":" + Digits(m) && key == q + ":" + Digits(n);
      if AttemptKey(taskId, m, suffixM) == key {
        LastColon(p, q, Digits(m), Digits(n));
      }
    }
  }

  /**
   * In every run: attempt numbers never repeat but for the fallback's resend; and once a turn has shown a
   * transport interruption or a session conflict, no send goes out under a key that a send of another attempt
   * number has had.
   */
  lemma KeysDistinctOnceInterrupted(l: Limits, taskId: string, hasFallback: bool, turns: nat -> Turn, i: nat, j: nat)
    requires i < j < |RunFrom(l, taskId, Start(hasFallback), turns).sends|
    ensures var sends := RunFrom(l, taskId, Start(hasFallback), turns).sends;
            && InTurn(sends[i], sends[j])
            && (Interrupted(turns, j) && sends[i].attempt != sends[j].attempt ==> sends[i].key != sends[j].key)
  {
    hide RunFrom, AttemptKey, Interrupted;
    assert !Interrupted(turns, 0) by { NotYetInterrupted(turns); }
    RunIsSound(l, taskId, Start(hasFallback), turns);
    var sends := RunFrom(l, taskId, Start(hasFallback), turns).sends;
    if sends[j].suffix.Some? && sends[i].attempt != sends[j].attempt {
      KeysDiffer(taskId, sends[i].attempt, sends[j].attempt, sends[i].suffix, sends[j].suffix.value);
    }
  }

  /**
   * In every run a send goes out under another key than the task's own exactly when an earlier turn showed an
   * interruption or a conflict and the send is not of the first attempt. The fallback's resend of the first
   * attempt keeps the task's key even after a conflict.
   */
  lemma RetryKeyExactly(l: Limits, taskId: string, hasFallback: bool, turns: nat -> Turn, j: nat)
    requires j < |RunFrom(l, taskId, Start(hasFallback), turns).sends|
    ensures var send := RunFrom(l, taskId, Start(hasFallback), turns).sends[j];
            && (send.key != taskId <==> Interrupted(turns, j) && send.attempt > 1)
            && (send.suffix.Some? <==> Interrupted(turns, j))
  {
    hide RunFrom, AttemptKey, Interrupted;
    assert !Interrupted(turns, 0) by { NotYetInterrupted(turns); }
    RunIsSound(l, taskId, Start(hasFallback), turns);
    var send := RunFrom(l, taskId, Start(hasFallback), turns).sends[j];
    assert Keyed(send, taskId);
    RetryKey(taskId, send.attempt, send.suffix);
  }

  const TRY_TWICE := Limits(2, 2)

  /** One error that is a conflict and rejects the payload; or a conflict first, and then a rejection. */
  function ConflictAndRejection(n: nat): Turn {
    Turn(10_000, 10_000, 0, if n == 0 then SendThrows(ReplySessionInitConflict, true, false) else Answered)
  }

  function ConflictThenRejection(n: nat): Turn {
    Turn(10_000, 10_000, 0,
         if n == 0 then SendThrows(ReplySessionInitConflict, false, false)
         else if n == 1 then SendThrows(NonRetryable, true, false)
         else Answered)
  }

  /** The fallback's resend goes out under the key of the send it repeats: on the first attempt that is the task's own. */
  lemma ResendKeepsTheKey(taskId: string)
    ensures
      var sends := RunFrom(TRY_TWICE, taskId, Start(true), ConflictAndRejection).sends;
      && |sends| == 2 && sends[0].key == sends[1].key == taskId && sends[1].attempt == 1 && sends[1].fallback
      && Interrupted(ConflictAndRejection, 1)
    ensures
      var sends := RunFrom(TRY_TWICE, taskId, Start(true), ConflictThenRejection).sends;
      && |sends| == 3 && sends[0].key == taskId && sends[1].key == sends[2].key != taskId
      && sends[1].attempt == sends[2].attempt == 2 && sends[2].fallback
  {
    assert Interrupts(ConflictAndRejection(0));
    RetryKey(taskId, 2, Some(CONFLICT_SUFFIX));
    OneTurn(taskId, Start(true), ConflictAndRejection);
    OneTurn(taskId, Start(true), ConflictThenRejection);
  }

  lemma OneTurn(taskId: string, s: Loop, turns: nat -> Turn)
    requires s.attempt <= 2
    ensures var next := TakeTurn(TRY_TWICE, taskId, s, turns(s.turn));
            RunFrom(TRY_TWICE, taskId, s, turns) == if next.Over? then next else RunFrom(TRY_TWICE, taskId, next.loop, turns)
  {
  }

  lemma RetryKey(taskId: string, attempt: nat, suffix: Option<string>)
    requires KnownSuffix(suffix)
    ensures AttemptKey(taskId, attempt, suffix) != taskId <==> suffix.Some? && attempt > 1
  {
    if suffix.Some? && attempt > 1 {
      assert |AttemptKey(taskId, attempt, suffix)| > |taskId|;
    }
  }

  lemma NotYetInterrupted(turns: nat -> Turn)
    ensures !Interrupted(turns, 0)
  {
  }

  // ----- how often

  predicate Conflicts(t: Turn) {
    (t.course.SendThrows? || t.course.TerminalError?) && t.course.reason.ReplySessionInitConflict?
  }

  /**
   * From any point of the loop: it comes to an end by itself and not by running out of attempts, after at most
   * one send for each attempt left and one for the fallback; without a session conflict the smaller limit holds.
   */
  lemma {:induction false} SendsBounded(l: Limits, taskId: string, s: Loop, turns: nat -> Turn, limit: nat)
    requires Usable(l) && 1 <= s.attempt <= limit
    requires limit == MaxLoopAttempts(l) || (limit == l.attempts && forall n :: !Conflicts(turns(n)))
    ensures var r := RunFrom(l, taskId, s, turns);
            && r.Over? && r.end != FellThrough
            && |r.sends| <= |s.sends| + (limit + 1 - s.attempt) + (if s.fallback then 1 else 0)
    decreases s.fallback, limit + 1 - s.attempt
  {
    hide AttemptKey;
    var t := turns(s.turn);
    assert limit == l.attempts && l.attempts < l.conflictAttempts ==> !Conflicts(t);
    var next := TakeTurn(l, taskId, s, t);
    if next.Again? {
      SendsBounded(l, taskId, next.loop, turns, limit);
    }
  }

  /** A task sends at most as often as the larger limit allows and once more, and at most the smaller without conflicts. */
  lemma TaskSendsBounded(l: Limits, taskId: string, hasFallback: bool, turns: nat -> Turn)
    requires Usable(l)
    ensures |RunFrom(l, taskId, Start(hasFallback), turns).sends| <= MaxLoopAttempts(l) + if hasFallback then 1 else 0
    ensures (forall n :: !Conflicts(turns(n))) ==>
              |RunFrom(l, taskId, Start(hasFallback), turns).sends| <= l.attempts + if hasFallback then 1 else 0
  {
    hide RunFrom;
    SendsBounded(l, taskId, Start(hasFallback), turns, MaxLoopAttempts(l));
    if forall n :: !Conflicts(turns(n)) {
      SendsBounded(l, taskId, Start(hasFallback), turns, l.attempts);
    }
  }

  function AlwaysConflict(n: nat): Turn {
    Turn(10_000, 10_000, 0, SendThrows(ReplySessionInitConflict, true, false))
  }

  lemma {:induction false} ConflictsUseAll(l: Limits, taskId: string, s: Loop)
    requires Usable(l) && 1 <= s.attempt <= MaxLoopAttempts(l)
    ensures |RunFrom(l, taskId, s, AlwaysConflict).sends| == |s.sends| + (MaxLoopAttempts(l) + 1 - s.attempt) + (if s.fallback then 1 else 0)
    decreases s.fallback, MaxLoopAttempts(l) + 1 - s.attempt
  {
    hide AttemptKey;
    var next := TakeTurn(l, taskId, s, AlwaysConflict(s.turn));
    if next.Again? {
      ConflictsUseAll(l, taskId, next.loop);
    }
  }

  /** The bound is reached: a rejected payload and then conflicts throughout use every attempt and the fallback. */
  lemma BoundIsReached(l: Limits, taskId: string)
    requires Usable(l)
    ensures |RunFrom(l, taskId, Start(true), AlwaysConflict).sends| == MaxLoopAttempts(l) + 1
  {
    ConflictsUseAll(l, taskId, Start(true));
  }
}
