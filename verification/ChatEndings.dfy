/** How a chat task ends, over every run of the attempt loop: said of the turns and the attempt numbers alone. */
module ChatEndings {
  import opened Options
  import opened ChatRetry

  // ----- what a turn leads to

  /** How many attempts an error of this kind allows. */
  function Allowed(l: Limits, reason: Reason): nat {
    if reason == ReplySessionInitConflict then l.conflictAttempts else l.attempts
  }

  /** The payload was rejected while the fallback had not been used yet. */
  predicate Resends(t: Turn, send: Send) {
    t.course.SendThrows? && t.course.rejectsPayload && !send.fallback
  }

  /** There are attempts left and time for the delay and a second more. */
  predicate MayTryAgain(t: Turn, attempt: nat, allowed: nat) {
    attempt < allowed && t.backoffMs + 1000 < t.remainingMs
  }

  /** A reply was found in the transcript, or a slash command needs none. */
  predicate FindsReply(caught: Caught) {
    caught.inTranscript || caught == Missing(false, true)
  }

  predicate TriesAfterWait(l: Limits, t: Turn, attempt: nat, caught: Caught) {
    !FindsReply(caught) && attempt < l.attempts && t.backoffMs + 1000 < t.laterRemainingMs
  }

  /** A terminal error that may be tried again. */
  predicate ErrorIsRetried(l: Limits, t: Turn, attempt: nat) {
    t.course.TerminalError? && t.course.reason != NonRetryable && MayTryAgain(t, attempt, Allowed(l, t.course.reason))
  }

  /** What the handler around the wait caught in this turn, if anything reached it. */
  function CaughtIn(l: Limits, t: Turn, attempt: nat): Option<Caught> {
    if t.course.WaitThrows? then Some(t.course.caught)
    else if ErrorIsRetried(l, t, attempt) && t.course.reason == ReplySessionInitConflict then t.course.recovery
    else None
  }

  /** Recovering a session conflict before the next send throws. */
  predicate Throws(l: Limits, t: Turn, send: Send) {
    && t.course.SendThrows? && t.course.reason == ReplySessionInitConflict && t.course.recoveryThrows && !Resends(t, send)
    && MayTryAgain(t, send.attempt, l.conflictAttempts)
  }

  /** The turn is followed by another one. */
  predicate GoesOn(l: Limits, t: Turn, send: Send) {
    var caught := CaughtIn(l, t, send.attempt);
    || Resends(t, send)
    || (t.course.SendThrows? && !Throws(l, t, send) && MayTryAgain(t, send.attempt, Allowed(l, t.course.reason)))
    || (ErrorIsRetried(l, t, send.attempt) && caught.None?)
    || (caught.Some? && TriesAfterWait(l, t, send.attempt, caught.value))
  }

  /** The turn gives the task its reply. */
  predicate Replies(l: Limits, t: Turn, send: Send) {
    var caught := CaughtIn(l, t, send.attempt);
    || t.course.Answered?
    || (t.course.TerminalError? && !ErrorIsRetried(l, t, send.attempt) && t.course.inTranscript)
    || (caught.Some? && FindsReply(caught.value))
  }

  // ----- over a run

  /** b is the send after a, which met that turn. */
  predicate Next(l: Limits, t: Turn, a: Send, b: Send) {
    && t.remainingMs >= 300 && GoesOn(l, t, a)
    && b.attempt == (if Resends(t, a) then a.attempt else a.attempt + 1)
    && (b.fallback <==> a.fallback || Resends(t, a))
  }

  predicate IsFirst(send: Send, hasFallback: bool) {
    send.attempt == 1 && (send.fallback <==> !hasFallback)
  }

  /** Each send from the n-th on follows the one before it. */
  predicate Chained(l: Limits, sends: seq<Send>, turns: nat -> Turn, n: nat) {
    forall i :: n <= i < |sends| - 1 ==> Next(l, turns(i), sends[i], sends[i + 1])
  }

  /** Whether and how the task ended at its last send. */
  predicate EndsAt(l: Limits, end: End, sends: seq<Send>, turns: nat -> Turn) {
    if sends == [] then end == TimedOut && turns(0).remainingMs < 300
    else
      var n := |sends| - 1;
      var t, send := turns(n), sends[n];
      && t.remainingMs >= 300
      && (end == TimedOut <==> GoesOn(l, t, send)) && (end == TimedOut ==> turns(n + 1).remainingMs < 300)
      && (end == Finished <==> Replies(l, t, send))
      && (end == Threw <==> Throws(l, t, send))
      && (end == Failed <==> !GoesOn(l, t, send) && !Replies(l, t, send) && !Throws(l, t, send))
  }

  /** What one turn with time left does to the loop. */
  lemma TurnLeads(l: Limits, taskId: string, s: Loop, t: Turn)
    requires t.remainingMs >= 300
    ensures
      var next := TakeTurn(l, taskId, s, t);
      var send := CurrentSend(s, taskId);
      && (next.Again? <==> GoesOn(l, t, send))
      && (next.Again? ==>
            && next.loop.sends == s.sends + [send] && next.loop.turn == s.turn + 1
            && next.loop.attempt == (if Resends(t, send) then s.attempt else s.attempt + 1)
            && (!next.loop.fallback <==> !s.fallback || Resends(t, send)))
      && (next.Over? ==>
            && next.sends == s.sends + [send]
            && (next.end == Finished <==> Replies(l, t, send))
            && (next.end == Threw <==> Throws(l, t, send))
            && next.end in {Finished, Threw, Failed})
      && (next.Again? ==> !Replies(l, t, send) && !Throws(l, t, send))
  {
    hide AttemptKey;
  }

  lemma GoesOnWithin(l: Limits, t: Turn, send: Send)
    requires Usable(l) && GoesOn(l, t, send) && !Resends(t, send)
    ensures send.attempt < MaxLoopAttempts(l)
  {
  }

  lemma {:induction false} RunEnds(l: Limits, taskId: string, s: Loop, turns: nat -> Turn)
    requires Usable(l) && 1 <= s.attempt <= MaxLoopAttempts(l) && s.turn == |s.sends|
    ensures
      var r := RunFrom(l, taskId, s, turns);
      var n := |s.sends|;
      && s.sends <= r.sends && Chained(l, r.sends, turns, n)
      && (if |r.sends| == n then r.end == TimedOut && turns(n).remainingMs < 300
          else r.sends[n] == CurrentSend(s, taskId) && EndsAt(l, r.end, r.sends, turns))
    decreases s.fallback, MaxLoopAttempts(l) + 1 - s.attempt
  {
    hide TakeTurn, GoesOn, Replies, Throws, AttemptKey, Resends;
    var t, n := turns(s.turn), |s.sends|;
    var next := TakeTurn(l, taskId, s, t);
    if t.remainingMs < 300 {
      OutOfTime(l, taskId, s, t);
    } else {
      TurnLeads(l, taskId, s, t);
      var send := CurrentSend(s, taskId);
      if next.Again? {
        if !Resends(t, send) {
          GoesOnWithin(l, t, send);
        } else {
          ResendUsesFallback(t, s, taskId);
        }
        RunEnds(l, taskId, next.loop, turns);
        var r := RunFrom(l, taskId, s, turns);
        assert r.sends[n] == next.loop.sends[n] == send;
        forall i | n <= i < |r.sends| - 1 ensures Next(l, turns(i), r.sends[i], r.sends[i + 1]) {
        }
      }
    }
  }

  lemma ResendUsesFallback(t: Turn, s: Loop, taskId: string)
    requires Resends(t, CurrentSend(s, taskId))
    ensures s.fallback
  {
  }

  lemma OutOfTime(l: Limits, taskId: string, s: Loop, t: Turn)
    requires t.remainingMs < 300
    ensures TakeTurn(l, taskId, s, t) == Over(TimedOut, s.sends)
  {
  }

  /**
   How every task ends. Its first send is attempt 1; each send follows the one before, because that turn went on: a rejected
   payload is resent with the fallback at the same attempt, anything else counts one up. At the last send it is finished if
   and only if the turn gave a reply: it was answered, or met a terminal error that is not retried with the reply in the
   transcript, or the handler around the wait found one or a slash command. It threw if and only if recovering a conflict
   before the next send threw; it timed out if and only if the turn went on and the next had no time; and failed otherwise.
   */
  lemma TaskEnds(l: Limits, taskId: string, hasFallback: bool, turns: nat -> Turn)
    requires Usable(l)
    ensures
      var r := RunFrom(l, taskId, Start(hasFallback), turns);
      && (r.sends != [] ==> IsFirst(r.sends[0], hasFallback))
      && Chained(l, r.sends, turns, 0) && EndsAt(l, r.end, r.sends, turns)
  {
    hide RunFrom;
    RunEnds(l, taskId, Start(hasFallback), turns);
  }
}
