/** Delta signals: each at most once, in increasing order, under one correlation, and none lost unless overtaken. */
module ForwarderSignals {
  import opened Options
  import opened Text
  import opened GatewayForwarder

  predicate Signalled(log: seq<Output>, n: nat) {
    exists i :: 0 <= i < |log| && log[i].Signal? && log[i].seq_ == n
  }

  /** No signal comes before or together with one of a smaller or equal number, and all go to one message. */
  predicate InOrder(log: seq<Output>) {
    forall i, j :: 0 <= i < j < |log| && log[i].Signal? && log[j].Signal? ==>
      log[i].seq_ < log[j].seq_ && log[i].backendMessageId == log[j].backendMessageId
  }

  predicate Received(actions: seq<Action>, n: nat) {
    exists i :: 0 <= i < |actions| && actions[i].DeltaArrives? && actions[i].seq_ == n
  }

  /** The largest number forwarded so far, or being forwarded. */
  function Top(r: Run): int {
    if r.flush.SendingSignal? then Max(r.lastForwardedSeq, r.flush.delta.seq_) else r.lastForwardedSeq
  }

  predicate Ascending(s: seq<Delta>) {
    forall i, j :: 0 <= i < j < |s| ==> s[i].seq_ < s[j].seq_
  }

  predicate DistinctSeqs(s: seq<Delta>) {
    forall i, j :: 0 <= i < j < |s| ==> s[i].seq_ != s[j].seq_
  }

  predicate Above(s: seq<Delta>, n: int) {
    forall i :: 0 <= i < |s| ==> s[i].seq_ > n
  }

  /** What holds between the steps of a run. */
  predicate Orderly(r: Run) {
    && InOrder(r.log)
    && (forall i :: 0 <= i < |r.log| && r.log[i].Signal? ==>
          r.log[i].seq_ <= Top(r) && Truthy(r.backendMessageId) && r.backendMessageId == Some(r.log[i].backendMessageId))
    && DistinctSeqs(r.buffered)
    && (r.flush != Idle ==> Truthy(r.backendMessageId))
    && (r.flush.SendingSignal? ==>
          Signalled(r.log, r.flush.delta.seq_) && Ascending(r.flush.rest) && Above(r.flush.rest, Top(r)))
    && (!r.forwardFinalOnly ==> forall i :: 0 <= i < |r.log| ==> !r.log[i].Signal?)
  }

  // ----- the sort

  lemma Cons(d: Delta, s: seq<Delta>)
    ensures forall n: nat :: HasSeq([d] + s, n) <==> d.seq_ == n || HasSeq(s, n)
    ensures Ascending(s) && (s == [] || d.seq_ < s[0].seq_) ==> Ascending([d] + s)
    ensures s != [] ==> HasSeq(s, s[0].seq_)
  {
    var t := [d] + s;
    assert t[0] == d && forall i :: 0 <= i < |s| ==> t[i + 1] == s[i];
  }

  lemma {:induction false} InsertedSeqs(s: seq<Delta>, d: Delta)
    requires Ascending(s) && !HasSeq(s, d.seq_)
    ensures Ascending(InsertBySeq(s, d)) && InsertBySeq(s, d) != []
    ensures InsertBySeq(s, d)[0].seq_ == if s == [] || d.seq_ < s[0].seq_ then d.seq_ else s[0].seq_
    ensures forall n: nat :: HasSeq(InsertBySeq(s, d), n) <==> HasSeq(s, n) || n == d.seq_
  {
    hide HasSeq;
    Cons(d, s);
    if s != [] && d.seq_ >= s[0].seq_ {
      Cons(s[0], s[1..]);
      assert [s[0]] + s[1..] == s;
      InsertedSeqs(s[1..], d);
      Cons(s[0], InsertBySeq(s[1..], d));
    } else {
      assert InsertBySeq(s, d) == [d] + s;
    }
  }

  /** Distinct numbers come out ascending, and they are the same numbers. */
  lemma {:induction false} SortedSeqs(s: seq<Delta>)
    requires DistinctSeqs(s)
    ensures Ascending(SortBySeq(s))
    ensures forall n: nat :: HasSeq(SortBySeq(s), n) <==> HasSeq(s, n)
  {
    if s != [] {
      var n := |s| - 1;
      SortedSeqs(s[..n]);
      assert forall m: nat :: HasSeq(s, m) <==> HasSeq(s[..n], m) || s[n].seq_ == m by {
        assert forall i :: 0 <= i < n ==> s[..n][i] == s[i];
      }
      InsertedSeqs(SortBySeq(s[..n]), s[n]);
    }
  }

  predicate NotAfter(d: Delta, e: Delta) {
    d.seq_ < e.seq_ || (d.seq_ == e.seq_ && d.receivedOrder <= e.receivedOrder)
  }

  /** By number, and those with the same number in the order in which they were received. */
  ghost predicate ByNumber(s: seq<Delta>) {
    forall i, j :: 0 <= i < j < |s| ==> NotAfter(s[i], s[j])
  }

  lemma InFront(d: Delta, s: seq<Delta>)
    requires ByNumber(s) && forall e :: e in s ==> NotAfter(d, e)
    ensures ByNumber([d] + s)
  {
    hide NotAfter;
  }

  lemma {:induction false} InsertedIs(s: seq<Delta>, d: Delta)
    ensures multiset(InsertBySeq(s, d)) == multiset(s) + multiset{d}
    ensures forall e :: e in InsertBySeq(s, d) <==> e in s || e == d
  {
    if s != [] {
      InsertedIs(s[1..], d);
      assert s == [s[0]] + s[1..];
    }
  }

  lemma {:induction false} InsertedInOrder(s: seq<Delta>, d: Delta)
    requires ByNumber(s)
    ensures ByNumber(InsertBySeq(s, d))
  {
    hide ByNumber;
    if s == [] {
      SingleInOrder(d);
    } else {
      TailInOrder(s);
      InsertedIs(s[1..], d);
      if NotAfter(s[0], d) {
        InsertedInOrder(s[1..], d);
        InFront(s[0], InsertBySeq(s[1..], d));
      } else {
        forall e | e in s ensures NotAfter(d, e) {
          assert s == [s[0]] + s[1..];
        }
        InFront(d, s);
      }
    }
  }

  lemma SingleInOrder(d: Delta)
    ensures ByNumber([d])
  {
  }

  lemma TailInOrder(s: seq<Delta>)
    requires ByNumber(s) && s != []
    ensures ByNumber(s[1..]) && forall e :: e in s[1..] ==> NotAfter(s[0], e)
  {
    hide NotAfter;
  }

  /** Sorting any waiting deltas, whatever their numbers, puts them in that order and neither loses nor repeats one. */
  lemma {:induction false} SortedInOrder(s: seq<Delta>)
    ensures ByNumber(SortBySeq(s)) && multiset(SortBySeq(s)) == multiset(s)
  {
    hide NotAfter, InsertBySeq;
    if s != [] {
      var n := |s| - 1;
      SortedInOrder(s[..n]);
      InsertedInOrder(SortBySeq(s[..n]), s[n]);
      InsertedIs(SortBySeq(s[..n]), s[n]);
      assert s == s[..n] + [s[n]];
    }
  }

  // ----- the loop over the deltas

  /** The part of the run the recovery steps leave alone. */
  ghost predicate SameSignals(r: Run, s: Run) {
    && s.forwardFinalOnly == r.forwardFinalOnly && s.backendMessageId == r.backendMessageId
    && s.lastForwardedSeq == r.lastForwardedSeq && s.buffered == r.buffered
    && !s.flush.SendingSignal?
    && (s.log == r.log || exists o :: s.log == r.log + [o] && !o.Signal?)
  }

  lemma RecoveryKeepsSignals(r: Run, latest: Option<Delta>)
    ensures SameSignals(r, RecoverTerminal(r))
    ensures SameSignals(r, RecoverDelta(r, latest))
  {
    hide Pending;
  }

  lemma SameSignalsFacts(r: Run, s: Run)
    requires SameSignals(r, s)
    ensures s.forwardFinalOnly == r.forwardFinalOnly && s.buffered == r.buffered && !s.flush.SendingSignal?
    ensures s.backendMessageId == r.backendMessageId
  {
  }

  lemma SameSignalsKeepOrder(r: Run, s: Run)
    requires Orderly(r.(flush := Idle)) && Truthy(r.backendMessageId) && SameSignals(r, s)
    ensures Orderly(s) && Top(s) == r.lastForwardedSeq
    ensures forall n: nat :: Signalled(r.log, n) <==> Signalled(s.log, n)
  {
    if s.log != r.log {
      var o :| s.log == r.log + [o] && !o.Signal?;
      assert forall i :: 0 <= i < |r.log| ==> s.log[i] == r.log[i];
    }
  }

  /** Going through the rest of a flush keeps the order, and every number above those forwarded finds its place. */
  lemma {:induction false} DeltasKeepOrder(r: Run, rest: seq<Delta>, latest: Option<Delta>)
    requires Orderly(r.(flush := Idle)) && Truthy(r.backendMessageId) && Ascending(rest)
    ensures var s := Deltas(r, rest, latest);
            && Orderly(s) && s.buffered == r.buffered && s.forwardFinalOnly == r.forwardFinalOnly
            && (forall n: nat :: Signalled(r.log, n) ==> Signalled(s.log, n))
            && (forall n: nat :: Signalled(s.log, n) ==> Signalled(r.log, n) || HasSeq(rest, n))
            && (s.flush.SendingSignal? ==> forall n: nat :: HasSeq(s.flush.rest, n) ==> HasSeq(rest, n))
            && (r.forwardFinalOnly ==> forall n: nat :: HasSeq(rest, n) && n > r.lastForwardedSeq ==> Placed(s, n))
    decreases |rest|
  {
    hide RecoverDelta, SameSignals, Orderly, Ascending;
    if rest == [] {
      RecoveryKeepsSignals(r, latest);
      SameSignalsKeepOrder(r, Deltas(r, rest, latest));
      SameSignalsFacts(r, Deltas(r, rest, latest));
    } else {
      var d := rest[0];
      Tail(rest);
      if d.seq_ <= r.lastForwardedSeq {
        DeltasKeepOrder(r, rest[1..], latest);
      } else if r.forwardFinalOnly {
        SignalSent(r, rest, latest);
      } else {
        ForwardedKeepsOrder(r, d);
        DeltasKeepOrder(Forwarded(r, d), rest[1..], Latest(d, latest));
      }
    }
  }

  lemma Tail(rest: seq<Delta>)
    requires rest != [] && Ascending(rest)
    ensures Ascending(rest[1..]) && Above(rest[1..], rest[0].seq_)
    ensures forall n: nat :: HasSeq(rest, n) <==> rest[0].seq_ == n || HasSeq(rest[1..], n)
  {
    assert forall i :: 0 <= i < |rest[1..]| ==> rest[1..][i] == rest[i + 1];
  }

  lemma ForwardedKeepsOrder(r: Run, d: Delta)
    requires Orderly(r.(flush := Idle))
    ensures Orderly(Forwarded(r, d).(flush := Idle))
  {
  }

  lemma SignalSent(r: Run, rest: seq<Delta>, latest: Option<Delta>)
    requires Orderly(r.(flush := Idle)) && Truthy(r.backendMessageId) && rest != [] && Ascending(rest)
    requires r.forwardFinalOnly && rest[0].seq_ > r.lastForwardedSeq
    ensures var s := Deltas(r, rest, latest);
            && Orderly(s) && s.log == r.log + [Signal(rest[0].seq_, r.backendMessageId.value)]
            && s.flush == SendingSignal(rest[0], rest[1..], latest) && s.buffered == r.buffered && s.forwardFinalOnly
            && (forall n: nat :: Signalled(s.log, n) <==> Signalled(r.log, n) || n == rest[0].seq_)
  {
    hide RecoverDelta;
    Tail(rest);
    var s := Deltas(r, rest, latest);
    assert forall i :: 0 <= i < |r.log| ==> s.log[i] == r.log[i];
    assert s.log[|r.log|] == Signal(rest[0].seq_, r.backendMessageId.value);
    assert Top(r.(flush := Idle)) == r.lastForwardedSeq;
  }

  // ----- every run

  /** Waiting in the buffer or in the flush under way, or sent. */
  predicate Placed(r: Run, n: nat) {
    || HasSeq(r.buffered, n)
    || (r.flush.SendingSignal? && HasSeq(r.flush.rest, n))
    || Signalled(r.log, n)
  }

  lemma StepKeepsOrder(r: Run, a: Action)
    requires Orderly(r)
    ensures Orderly(Step(r, a))
    ensures r.forwardFinalOnly == Step(r, a).forwardFinalOnly
    ensures forall n: nat :: Signalled(r.log, n) ==> Signalled(Step(r, a).log, n)
    ensures forall n: nat :: Placed(Step(r, a), n) ==> Placed(r, n) || (a.DeltaArrives? && a.seq_ == n)
    ensures Truthy(r.backendMessageId) ==> Step(r, a).backendMessageId == r.backendMessageId
    ensures r.forwardFinalOnly ==> forall n: nat :: Placed(r, n) ==>
              Placed(Step(r, a), n) || (HasSeq(r.buffered, n) && n <= Top(r))
    ensures a.DeltaArrives? ==> Placed(Step(r, a), a.seq_) || a.seq_ <= Top(r)
  {
    hide Deltas, RecoverTerminal, TreatsTerminalAsDelivered, Plain, SortBySeq;
    match a
    case DeltaArrives(n, message, trace) => ArrivalKeepsOrder(r, n, message, trace);
    case TerminalArrives(n, message, trace) =>
      AttachedKeepsOrder(r, trace);
    case CloseRun(reason) =>
      CloseKeepsOrder(r, reason);
    case FlushStarts(trace) =>
      AttachedKeepsOrder(r, trace);
      if r.flush == Idle && Truthy(Attached(r, trace).backendMessageId) {
        var s := Attached(r, trace).(buffered := []);
        assert Orderly(s);
        SortedSeqs(r.buffered);
        DeltasKeepOrder(s, SortBySeq(r.buffered), None);
        DeltasKeepId(s, SortBySeq(r.buffered), None);
      }
    case SendSettles =>
      SettledKeepsOrder(r);
  }

  lemma AttachedKeepsOrder(r: Run, trace: Option<string>)
    requires Orderly(r)
    ensures Orderly(Attached(r, trace))
  {
  }

  lemma CloseKeepsOrder(r: Run, reason: string)
    requires Orderly(r)
    ensures var s := Step(r, CloseRun(reason));
            && Orderly(s) && s.buffered == r.buffered && s.flush == r.flush && s.backendMessageId == r.backendMessageId
            && forall n: nat :: Signalled(r.log, n) <==> Signalled(s.log, n)
  {
    hide TreatsTerminalAsDelivered;
    var s := Step(r, CloseRun(reason));
    assert forall i :: 0 <= i < |r.log| ==> s.log[i] == r.log[i];
    assert s.log == r.log || (s.log == r.log + [s.log[|r.log|]] && s.log[|r.log|].Adopted?);
    assert Top(s) == Top(r);
  }

  lemma ArrivalKeepsOrder(r: Run, n: nat, message: Option<string>, trace: Option<string>)
    requires Orderly(r)
    ensures var s := Step(r, DeltaArrives(n, message, trace));
            && Orderly(s) && s.log == r.log && s.flush == r.flush
            && (forall m: nat :: HasSeq(r.buffered, m) ==> HasSeq(s.buffered, m))
            && (forall m: nat :: HasSeq(s.buffered, m) ==> HasSeq(r.buffered, m) || m == n)
            && (HasSeq(s.buffered, n) || n <= r.lastForwardedSeq)
  {
    hide Plain, HasSeq, DistinctSeqs, InOrder, Signalled, Above, Ascending;
    AttachedKeepsOrder(r, trace);
    var s := Step(r, DeltaArrives(n, message, trace));
    BufferMore(r.buffered, Delta(n, Plain(message), r.nextReceivedOrder));
    assert Top(s) == Top(r);
  }

  lemma BufferMore(buffered: seq<Delta>, d: Delta)
    ensures forall m: nat :: HasSeq(buffered + [d], m) <==> HasSeq(buffered, m) || m == d.seq_
    ensures DistinctSeqs(buffered) && !HasSeq(buffered, d.seq_) ==> DistinctSeqs(buffered + [d])
  {
    var more := buffered + [d];
    assert more[|buffered|] == d && forall i :: 0 <= i < |buffered| ==> more[i] == buffered[i];
  }

  lemma SettledKeepsOrder(r: Run)
    requires Orderly(r)
    ensures var s := Settled(r);
            && Orderly(s) && s.buffered == r.buffered && s.backendMessageId == r.backendMessageId
            && s.forwardFinalOnly == r.forwardFinalOnly
            && (forall n: nat :: Signalled(r.log, n) ==> Signalled(s.log, n))
            && (forall n: nat :: Placed(s, n) ==> Placed(r, n))
            && (r.forwardFinalOnly ==> forall n: nat :: Placed(r, n) ==> Placed(s, n))
  {
    hide Deltas, RecoverTerminal, Latest;
    match r.flush
    case Idle =>
    case SendingSignal(d, rest, latest) =>
      var s := Forwarded(r, d);
      assert Orderly(s.(flush := Idle)) && s.lastForwardedSeq == Top(r);
      DeltasKeepOrder(s, rest, Latest(d, latest));
      DeltasKeepId(s, rest, Latest(d, latest));
    case SendingDelta(d) =>
      var s := r.(lastDelivered := d.text, lastRecoverySeq := d.seq_);
      RecoveryKeepsSignals(s, None);
      assert Orderly(s.(flush := Idle));
      SameSignalsKeepOrder(s, RecoverTerminal(s));
    case SendingTerminal(_) =>
  }

  lemma {:induction false} DeltasKeepId(r: Run, rest: seq<Delta>, latest: Option<Delta>)
    ensures Deltas(r, rest, latest).backendMessageId == r.backendMessageId
    decreases |rest|
  {
    hide RecoverDelta;
    if rest == [] {
      RecoveryKeepsSignals(r, latest);
    } else if !Truthy(r.backendMessageId) || rest[0].seq_ <= r.lastForwardedSeq {
      DeltasKeepId(r, rest[1..], latest);
    } else if !r.forwardFinalOnly {
      DeltasKeepId(Forwarded(r, rest[0]), rest[1..], Latest(rest[0], latest));
    }
  }

  /**
   * Over any order of arrivals, duplicates included, and whatever comes in while a flush is waiting: the
   * signals sent carry strictly increasing numbers and one correlation, and each is for a delta received.
   */
  lemma {:induction false} SignalsAtMostOnce(forwardFinalOnly: bool, actions: seq<Action>)
    ensures var r := After(forwardFinalOnly, actions);
            && Orderly(r) && InOrder(r.log) && r.forwardFinalOnly == forwardFinalOnly
            && (forall n: nat :: Placed(r, n) ==> Received(actions, n))
            && (forwardFinalOnly || forall n: nat :: !Signalled(r.log, n))
  {
    hide Step, Orderly, Placed;
    var r := After(forwardFinalOnly, actions);
    if actions == [] {
      NothingYet(forwardFinalOnly);
    } else {
      var k := |actions| - 1;
      SignalsAtMostOnce(forwardFinalOnly, actions[..k]);
      StepKeepsOrder(After(forwardFinalOnly, actions[..k]), actions[k]);
      assert forall n: nat :: Received(actions[..k], n) ==> Received(actions, n);
    }
    OrderlyFacts(r);
  }

  lemma NothingYet(forwardFinalOnly: bool)
    ensures Orderly(NewRun(forwardFinalOnly)) && forall n: nat :: !Placed(NewRun(forwardFinalOnly), n)
  {
  }

  lemma OrderlyFacts(r: Run)
    requires Orderly(r)
    ensures InOrder(r.log)
    ensures !r.forwardFinalOnly ==> forall n: nat :: !Signalled(r.log, n)
  {
  }

  /**
   * The delta came too late: when it came in, or while it waited in the buffer, a delta numbered at least as
   * high had been forwarded or was being forwarded.
   */
  predicate Overtaken(forwardFinalOnly: bool, actions: seq<Action>, n: nat) {
    exists k :: 0 <= k < |actions| && OvertakenAt(After(forwardFinalOnly, actions[..k]), actions[k], n)
  }

  predicate OvertakenAt(r: Run, a: Action, n: nat) {
    n <= Top(r) && (HasSeq(r.buffered, n) || (a.DeltaArrives? && a.seq_ == n))
  }

  /** Every delta received is waiting, or has been signalled, or was overtaken: none is dropped for another reason. */
  lemma {:induction false} NoDeltaLost(actions: seq<Action>, n: nat)
    requires Received(actions, n)
    ensures Placed(After(true, actions), n) || Overtaken(true, actions, n)
  {
    hide Step, Orderly, Placed, Top;
    var k := |actions| - 1;
    var r := After(true, actions[..k]);
    SignalsAtMostOnce(true, actions[..k]);
    StepKeepsOrder(r, actions[k]);
    assert actions == actions[..k] + [actions[k]];
    if Received(actions[..k], n) {
      NoDeltaLost(actions[..k], n);
      if Overtaken(true, actions[..k], n) {
        OvertakenLater(actions, n);
      }
    }
    assert OvertakenAt(r, actions[k], n) ==> Overtaken(true, actions, n);
  }

  lemma OvertakenLater(actions: seq<Action>, n: nat)
    requires actions != [] && Overtaken(true, actions[..|actions| - 1], n)
    ensures Overtaken(true, actions, n)
  {
    hide After, OvertakenAt;
    var before := actions[..|actions| - 1];
    var k :| 0 <= k < |before| && OvertakenAt(After(true, before[..k]), before[k], n);
    assert before[..k] == actions[..k] && before[k] == actions[k];
  }
}
