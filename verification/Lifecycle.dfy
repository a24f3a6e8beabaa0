/** The run lifecycle: the transition table, the state sets, and the trigger a robot report means. */
module Lifecycle {
  import opened Wrappers

  datatype RunStatus =
    | Pending
    | Dispatched
    | Running
    | Paused
    | Succeeded
    | Failed
    | Cancelled
    | Rejected
    | Pausing
    | Resuming
    | Cancelling

  datatype RunTrigger =
    | Accept
    | Reject
    | Timeout
    | DispatchUnconfirmed
    | Reconcile
    | PauseRequest
    | ResumeRequest
    | CancelRequest
    | Close
    | Ack
    | Pause
    | Resume
    | Complete
    | Fail
    | Cancel

  datatype Actor = Operator | Robot | Backend

  // What the robot reports about its execution: still going, or how it ended.
  datatype ExecStatus = ExecRunning | ExecPaused | ExecSucceeded | ExecFailed | ExecCancelled

  function ActorOf(trigger: RunTrigger): Actor {
    match trigger
    case PauseRequest | ResumeRequest | CancelRequest | Close => Operator
    case Accept | Reject | Timeout | DispatchUnconfirmed | Reconcile => Backend
    case _ => Robot
  }

  predicate IsTerminal(state: RunStatus) {
    state in {Succeeded, Failed, Cancelled, Rejected}
  }

  predicate IsExecuting(state: RunStatus) {
    state in {Dispatched, Running, Paused, Pausing, Resuming, Cancelling}
  }

  predicate IsActive(state: RunStatus) {
    IsExecuting(state) || state == Pending
  }

  // ---------- The sub-tables, one per authority ----------

  function ReplyTransition(state: RunStatus, trigger: RunTrigger): Option<RunStatus> {
    match (state, trigger)
    case (Pending, Accept) => Some(Dispatched)
    case (Pending, Reject) => Some(Rejected)
    case (Cancelling, Reject) => Some(Cancelled)
    case _ => None
  }

  function RequestTransition(state: RunStatus, trigger: RunTrigger): Option<RunStatus> {
    match (state, trigger)
    case (Dispatched, PauseRequest) => Some(Pausing)
    case (Running, PauseRequest) => Some(Pausing)
    case (Resuming, PauseRequest) => Some(Pausing)
    case (Paused, ResumeRequest) => Some(Resuming)
    case (Pausing, ResumeRequest) => Some(Resuming)
    case (_, CancelRequest) =>
      if state in {Pending, Dispatched, Running, Paused, Pausing, Resuming, Cancelling}
      then Some(Cancelling) else None
    case _ => None
  }

  // What a progress report does; a report of the state a pending request is to leave does nothing.
  function ProgressTransition(state: RunStatus, trigger: RunTrigger): Option<RunStatus> {
    match (state, trigger)
    case (Pending, Ack) => Some(Running)
    case (Dispatched, Ack) => Some(Running)
    case (Resuming, Ack) => Some(Running)
    case (Dispatched, Pause) => Some(Paused)
    case (Running, Pause) => Some(Paused)
    case (Pausing, Pause) => Some(Paused)
    case (Paused, Resume) => Some(Running)
    case _ => None
  }

  function CloseTransition(state: RunStatus, trigger: RunTrigger): Option<RunStatus> {
    if !IsTerminal(state) && trigger == Close then Some(Cancelled) else None
  }

  function ReconcileTransition(state: RunStatus, trigger: RunTrigger): Option<RunStatus> {
    if trigger != Reconcile then None
    else if state == Cancelling then Some(Cancelled)
    else if state in {Pending, Dispatched, Running, Paused, Pausing, Resuming} then Some(Failed)
    else None
  }

  function OutcomeTransition(state: RunStatus, trigger: RunTrigger): Option<RunStatus> {
    if IsTerminal(state) then None
    else match trigger
      case Complete => Some(Succeeded)
      case Fail => Some(Failed)
      case Cancel => Some(Cancelled)
      case Timeout => Some(Failed)
      case _ => None
  }

  function OrElse(later: Option<RunStatus>, earlier: Option<RunStatus>): Option<RunStatus> {
    if later.Some? then later else earlier
  }

  // The merged table: a later sub-table would override an earlier one.
  function TryNextState(state: RunStatus, trigger: RunTrigger): Option<RunStatus> {
    OrElse(OutcomeTransition(state, trigger),
    OrElse(ReconcileTransition(state, trigger),
    OrElse(CloseTransition(state, trigger),
    OrElse(ProgressTransition(state, trigger),
    OrElse(RequestTransition(state, trigger), ReplyTransition(state, trigger))))))
  }

  // The trigger a report stands for. The same report resumes a paused run and acknowledges any other.
  function TriggerForReport(state: RunStatus, report: ExecStatus): RunTrigger {
    match report
    case ExecSucceeded => Complete
    case ExecFailed => Fail
    case ExecCancelled => Cancel
    case ExecRunning => if state == Paused then Resume else Ack
    case ExecPaused => Pause
  }

  function StateAfterReport(state: RunStatus, report: ExecStatus): RunStatus {
    var target := TryNextState(state, TriggerForReport(state, report));
    if target.Some? then target.value else state
  }

  // ---------- Laws of the table ----------

  // No two sub-tables define the same pair, so the order they are merged in does not matter.
  lemma {:induction false} SubTablesAreDisjoint(state: RunStatus, trigger: RunTrigger)
    ensures var hits := [ReplyTransition(state, trigger), RequestTransition(state, trigger),
                         ProgressTransition(state, trigger), CloseTransition(state, trigger),
                         ReconcileTransition(state, trigger), OutcomeTransition(state, trigger)];
            forall i, j :: 0 <= i < j < |hits| ==> hits[i].None? || hits[j].None?
  {}

  // The terminal states are exactly the ones with no way out; every live run can still be ended by
  // a report, by the operator and by the reconnect sweep.
  lemma {:induction false} TerminalIffNoExit(state: RunStatus)
    ensures IsTerminal(state) <==> forall trigger :: TryNextState(state, trigger).None?
    ensures IsTerminal(state) <==> !IsActive(state)
    ensures !IsTerminal(state) ==>
              && (forall trigger :: trigger in {Complete, Fail, Cancel, Close, Reconcile} ==>
                    && TryNextState(state, trigger).Some?
                    && IsTerminal(TryNextState(state, trigger).value))
  {
    if !IsTerminal(state) {
      assert TryNextState(state, Close) == Some(Cancelled);
    }
  }

  // A cancel is never withdrawn: nothing leads out of Cancelling but an end.
  lemma {:induction false} CancellingOnlyEnds(trigger: RunTrigger)
    ensures var next := TryNextState(Cancelling, trigger);
            next.Some? ==> next.value == Cancelling || IsTerminal(next.value)
  {}

  // An operator's request is the only way into a confirming state, and only a report the robot made
  // of having applied it (or another request, or an end) leads out again.
  lemma {:induction false} RequestsAreHeld(state: RunStatus, trigger: RunTrigger)
    requires TryNextState(state, trigger).Some?
    ensures var next := TryNextState(state, trigger).value;
            && (next == Pausing <==> trigger == PauseRequest)
            && (next == Resuming <==> trigger == ResumeRequest)
            && (next == Cancelling <==> trigger == CancelRequest)
            && (state == Pausing && next !in {Resuming, Cancelling} && !IsTerminal(next) ==>
                  next == Paused && trigger == Pause)
            && (state == Resuming && next !in {Pausing, Cancelling} && !IsTerminal(next) ==>
                  next == Running && trigger == Ack)
  {}

  // The robot's triggers are decided by one sub-table each.
  lemma {:induction false} RobotTriggers(state: RunStatus, trigger: RunTrigger)
    ensures trigger in {Complete, Fail, Cancel} ==> TryNextState(state, trigger) == OutcomeTransition(state, trigger)
    ensures trigger in {Ack, Pause, Resume} ==> TryNextState(state, trigger) == ProgressTransition(state, trigger)
  {}

  // Where a report takes a run: an outcome ends any live run, progress moves only the states that wait
  // for it, and anything else is held.
  lemma {:induction false} ReportTable(state: RunStatus, report: ExecStatus)
    ensures StateAfterReport(state, report) ==
            match report
            case ExecSucceeded => if IsTerminal(state) then state else Succeeded
            case ExecFailed => if IsTerminal(state) then state else Failed
            case ExecCancelled => if IsTerminal(state) then state else Cancelled
            case ExecRunning => if state in {Pending, Dispatched, Resuming, Paused} then Running else state
            case ExecPaused => if state in {Dispatched, Running, Pausing} then Paused else state
  {
    RobotTriggers(state, TriggerForReport(state, report));
  }

  // A robot that repeats its report moves the run at most once.
  lemma {:induction false} RepeatedReportSettles(state: RunStatus, report: ExecStatus)
    ensures StateAfterReport(StateAfterReport(state, report), report) == StateAfterReport(state, report)
  {
    ReportTable(state, report);
    ReportTable(StateAfterReport(state, report), report);
  }
}
