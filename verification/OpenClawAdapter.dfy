/** From an OpenClaw signal to the lifecycle status it reports. */
module OpenClawAdapter {
  import opened Options
  import opened LifecycleContract

  const PROVIDER := "openclaw"

  datatype Phase = Start | Finishing | End | Error
  datatype Persisted = StillRunning | Done | PersistedFailed | Killed | TimedOut
  datatype ApprovalPhase = Requested | Resolved
  datatype ApprovalStatus = Pending | Approved | Denied | Unavailable

  datatype Signal =
    | Lifecycle(phase: Phase, aborted: bool, yielded: bool, paused: bool, liveness: Option<string>, persisted: Option<Persisted>)
    | Approval(approvalPhase: ApprovalPhase, approval: ApprovalStatus)
    | ActiveRun(hasActiveRun: bool, waiting: bool)
    | Unparsed

  datatype Observation = Observation(status: Status, diagnostics: Option<Diagnostics>)

  function PhaseName(p: Phase): string {
    match p
    case Start => "start"
    case Finishing => "finishing"
    case End => "end"
    case Error => "error"
  }

  function LifecycleObservation(s: Signal): Option<Observation>
    requires s.Lifecycle?
  {
    var reason := if s.liveness.Some? && s.liveness.value != "" then s.liveness else None;
    var diagnostics := Diagnostics(Some("lifecycle"), Some(PhaseName(s.phase)), reason);
    if s.phase == Start then Some(Observation(Running, Some(diagnostics)))
    else if s.phase == Finishing then None
    else if s.yielded && s.paused then Some(Observation(Waiting, Some(diagnostics.(reasonCode := Some("yielded_paused")))))
    else if s.aborted || s.persisted == Some(Killed) then Some(Observation(Cancelled, Some(diagnostics)))
    else if
      || s.phase == Error
      || s.persisted in {Some(PersistedFailed), Some(TimedOut)}
      || s.liveness in {Some("blocked"), Some("abandoned")}
    then Some(Observation(Failed, Some(diagnostics)))
    else Some(Observation(Completed, Some(diagnostics)))
  }

  function Observe(s: Signal): (r: Option<Observation>)
  {
    match s
    case Unparsed => None
    case Lifecycle(_, _, _, _, liveness, _) =>
      if liveness.Some? && |liveness.value| > 128 then None else LifecycleObservation(s)
    case Approval(phase, approval) =>
      if phase == Requested && approval == Pending then
        Some(Observation(Waiting, Some(Diagnostics(Some("approval"), Some("pending"), Some("approval")))))
      else if phase == Resolved && approval == Approved then
        Some(Observation(Running, Some(Diagnostics(Some("approval"), Some("approved"), Some("approval_resolved")))))
      else None
    case ActiveRun(has, waiting) =>
      Some(Observation(
        if !has then Idle else if waiting then Waiting else Running,
        Some(Diagnostics(Some("active_run"), Some(if has then "active" else "idle"), None))))
  }

  // ----- what the signals mean

  predicate IsOver(s: Signal) {
    && s.Lifecycle? && s.phase in {End, Error} && !(s.yielded && s.paused)
    && (s.liveness.Some? ==> |s.liveness.value| <= 128)
  }

  predicate IsKilled(s: Signal) {
    s.Lifecycle? && (s.aborted || s.persisted == Some(Killed))
  }

  predicate HasFailed(s: Signal) {
    && s.Lifecycle?
    && (s.phase == Error || s.persisted == Some(PersistedFailed) || s.persisted == Some(TimedOut)
        || s.liveness == Some("blocked") || s.liveness == Some("abandoned"))
  }

  /** Which signals report which status: a run that is over is cancelled before it is failed, and completed otherwise. */
  lemma SignalsMean(s: Signal)
    ensures
      var short := s.Lifecycle? && s.liveness.Some? ==> |s.liveness.value| <= 128;
      var o := Observe(s);
      && (o.Some? && o.value.status == Completed <==> IsOver(s) && !IsKilled(s) && !HasFailed(s))
      && (o.Some? && o.value.status == Failed <==> IsOver(s) && !IsKilled(s) && HasFailed(s))
      && (o.Some? && o.value.status == Cancelled <==> IsOver(s) && IsKilled(s))
      && (o.Some? && o.value.status == Waiting <==>
            || (s.Lifecycle? && short && s.phase in {End, Error} && s.yielded && s.paused)
            || s == Approval(Requested, Pending) || s == ActiveRun(true, true))
      && (o.Some? && o.value.status == Running <==>
            (s.Lifecycle? && short && s.phase == Start) || s == Approval(Resolved, Approved) || s == ActiveRun(true, false))
      && (o.Some? && o.value.status == Idle <==> s.ActiveRun? && !s.hasActiveRun)
  {
  }

  /** What a report names: the signal it comes from, the state the signal gives, and the reason, if it gives one. */
  lemma ReportsName(s: Signal)
    requires Observe(s).Some?
    ensures
      var d := Observe(s).value.diagnostics;
      && d.Some?
      && (s.Lifecycle? ==>
            && d.value.nativeEvent == Some("lifecycle") && d.value.nativeStatus == Some(PhaseName(s.phase))
            && d.value.reasonCode == (if Observe(s).value.status == Waiting then Some("yielded_paused")
                                      else if s.liveness == Some("") then None else s.liveness))
      && (s.Approval? ==>
            && d.value.nativeEvent == Some("approval")
            && d.value.nativeStatus == Some(if s.approval == Pending then "pending" else "approved")
            && d.value.reasonCode == Some(if s.approval == Pending then "approval" else "approval_resolved"))
      && (s.ActiveRun? ==> d.value == Diagnostics(Some("active_run"), Some(if s.hasActiveRun then "active" else "idle"), None))
  {
  }
}
