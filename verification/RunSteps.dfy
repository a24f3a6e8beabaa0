/**
 The steps of the run protocol, each as a function of one run: the dispatch reply, the operator's
 cancel, close, pause and resume, the robot's report, and the reconnect sweep.

 An operator's step carries the status and report counter it read, which may be stale; the write
 itself is a compare-and-set on the run as it is.
 */
module RunSteps {
  import opened Wrappers
  import opened Lifecycle
  import opened Mission
  import opened StageState
  import opened Runs

  datatype CancelMode = Graceful | Immediate

  datatype Command = DispatchOrder | CancelOrder(mode: CancelMode) | PauseOrder | ResumeOrder

  datatype ControlRefusal = NotExecutingRun | OtherRefusal | UnspecifiedRefusal

  // The robot's receipt of a control command, or its silence.
  datatype ControlReply = Applied | NoReply | Refused(refusal: Option<ControlRefusal>)

  // The result of the call to the robot.
  datatype DispatchOutcome = Accepted | Declined | TimedOut | Errored

  datatype ServiceError =
    | MissionNotFound
    | MissionArchived
    | NoRobotAssigned
    | RobotBusy
    | MissionRunInProgress
    | PlanRefused
    | AmbiguousRun
    | RunNotFound
    | InvalidTransition
    | RobotIsOnline
    | RobotIsOffline
    | RobotUnreachable
    | RobotRefusedControl

  // What a step leaves: the run, the commands sent to its robot, and the error raised to the caller.
  datatype Step = Step(run: Run, sent: seq<Command>, error: Option<ServiceError>)

  // What an operator's step read of the run before writing.
  datatype Seen = Seen(status: RunStatus, headerId: nat)

  function SeenOf(run: Run): Seen {
    Seen(run.status, LastHeaderId(run))
  }

  // The counter a request is stamped with: that of the last report, or zero before the first.
  function LastHeaderId(run: Run): nat {
    if run.lastReport.Some? then run.lastReport.value.headerId else 0
  }

  // Every stage closed out, the arriving frame's records taking precedence over the stored rows.
  function Settled(run: Run, overlay: Rows, now: Time): Run {
    run.(rows := run.rows + FinalRows(run.stages, run.rows + overlay, run.status, now))
  }

  // ---------- The dispatch reply ----------

  const DISPATCH_WARNING: MissionError := MissionError(FromBackend, Warning, "dispatch_unconfirmed", [])
  const DISPATCH_REJECTED: MissionError := MissionError(FromBackend, Fatal, "dispatch_rejected", [])

  function SettleRun(run: Run, outcome: DispatchOutcome, repliedAt: Time, now: Time): Step {
    match outcome
    case Accepted =>
      var w := PlainWrite(Dispatched, Pending, Accept).(dispatchedAt := Some(repliedAt));
      if Applies(run, w) then Step(Written(run, w, now), [], None)
      else MovedOn(run, repliedAt)
    case Declined =>
      if run.status !in {Pending, Cancelling} then Step(run, [], None)
      else
        var target := if run.status == Cancelling then Cancelled else Rejected;
        var w := PlainWrite(target, run.status, Reject).(errors := Some([DISPATCH_REJECTED]));
        Step(Settled(Written(run, w, now), map[], now), [], None)
    case _ =>
      if run.status == Pending then
        var w := PlainWrite(Pending, Pending, DispatchUnconfirmed).(errors := Some([DISPATCH_WARNING]));
        Step(Written(run, w, now), [], None)
      else MovedOn(run, repliedAt)
  }

  // The reply finds the run no longer pending: note the time, and repeat a cancel still open.
  function MovedOn(run: Run, repliedAt: Time): Step {
    Step(MarkedDispatched(run, repliedAt),
         if run.status == Cancelling then [CancelOrder(Graceful)] else [], None)
  }

  // ---------- The operator ----------

  function CancelRun(run: Run, seen: Seen, mode: CancelMode, offline: bool, reply: ControlReply, now: Time): Step {
    var target := TryNextState(seen.status, CancelRequest);
    if target.None? then Step(run, [], Some(InvalidTransition))
    else
      var w := PlainWrite(target.value, seen.status, CancelRequest).(reportHeaderId := Some(seen.headerId));
      if !Applies(run, w) then Step(run, [], None)
      else SendCancel(Written(run, w, now), seen.status, mode, offline, reply, now)
  }

  // The recorded request goes out unless the robot is offline, and its receipt is noted.
  function SendCancel(asked: Run, before: RunStatus, mode: CancelMode, offline: bool, reply: ControlReply,
                      now: Time): Step {
    if offline then Step(Acknowledged(asked, false), [], None)
    else if reply.Applied? then Step(Acknowledged(asked, true), [CancelOrder(mode)], None)
    else
      var noted := Acknowledged(asked, false);
      if reply == Refused(Some(NotExecutingRun)) && before != Pending then
        var closed := CompareAndSet(noted, PlainWrite(Cancelled, Cancelling, Reconcile), now);
        Step(Settled(closed, map[], now), [CancelOrder(mode)], None)
      else Step(noted, [CancelOrder(mode)], None)
  }

  function CloseRun(run: Run, seen: Seen, offline: bool, now: Time): Step {
    var target := TryNextState(seen.status, Close);
    if target.None? then Step(run, [], Some(InvalidTransition))
    else if !offline then Step(run, [], Some(RobotIsOnline))
    else
      var w := PlainWrite(target.value, seen.status, Close);
      if !Applies(run, w) then Step(run, [], None)
      else Step(Settled(Written(run, w, now), map[], now), [], None)
  }

  // Unless the robot applied it, a pause or resume leaves the run as it was.
  function SteerRun(run: Run, seen: Seen, pause: bool, offline: bool, reply: ControlReply, now: Time): Step {
    var trigger := if pause then PauseRequest else ResumeRequest;
    var order := if pause then PauseOrder else ResumeOrder;
    var target := TryNextState(seen.status, trigger);
    if target.None? then Step(run, [], Some(InvalidTransition))
    else if offline then Step(run, [], Some(RobotIsOffline))
    else if reply.NoReply? then Step(run, [order], Some(RobotUnreachable))
    else if reply.Refused? then Step(run, [order], Some(RobotRefusedControl))
    else
      var w := PlainWrite(target.value, seen.status, trigger)
               .(reportHeaderId := Some(seen.headerId), acknowledged := Some(true));
      Step(CompareAndSet(run, w, now), [order], None)
  }

  // ---------- The robot's report ----------

  // The report is no newer than the request it would confirm.
  predicate PredatesRequest(run: Run, headerId: nat, trigger: RunTrigger) {
    && run.status in {Pausing, Resuming}
    && trigger in {Pause, Ack}
    && run.log != []
    && Last(run.log).reportHeaderId.Some?
    && headerId <= Last(run.log).reportHeaderId.value
  }

  // The transition a report means for the run as read, if any.
  function ReportTransition(seen: Run, frame: Frame): Option<(RunStatus, RunTrigger)> {
    var trigger := TriggerForReport(seen.status, frame.exec);
    if PredatesRequest(seen, frame.headerId, trigger) then None
    else
      var target := TryNextState(seen.status, trigger);
      if target.Some? then Some((target.value, trigger)) else None
  }

  // The errors a report's transition writes: a failure adds to those noted, anything else removes them.
  function ReportErrors(seen: Run, target: RunStatus, frame: Frame): Option<seq<MissionError>> {
    if target == Failed then Some(seen.failureErrors + frame.errors)
    else if seen.failureErrors != [] then Some([])
    else None
  }

  function ReportWrite(seen: Run, frame: Frame, move: (RunStatus, RunTrigger)): StatusWrite {
    PlainWrite(move.0, seen.status, move.1)
      .(reportHeaderId := Some(frame.headerId), errors := ReportErrors(seen, move.0, frame))
  }

  // The log row a report's transition appends.
  function ReportedRow(from: RunStatus, move: (RunStatus, RunTrigger), headerId: nat): Transition {
    Transition(from, move.0, move.1, ActorOf(move.1), Some(headerId), None)
  }

  function Touched(run: Run, frame: Frame, now: Time): Run {
    run.(lastReport := Some(LastReport(now, frame.headerId, frame.exec, frame.timestamp)))
  }

  // Recording a report against a run read as `seen`. The service reads under the run's row lock, so
  // there the two are the same; apart, they show what the lock is for.
  function RecordSeen(seen: Run, run: Run, robotId: RobotId, frame: Frame, now: Time): Run {
    if seen.robotId != robotId then run
    else
      var touched := if IsTerminal(seen.status) then run else Touched(run, frame, now);
      var live := LiveRecords(frame, seen.stages);
      var move := ReportTransition(seen, frame);
      if move.Some? && Applies(touched, ReportWrite(seen, frame, move.value)) then
        var moved := Written(touched, ReportWrite(seen, frame, move.value), now);
        if IsTerminal(moved.status) then Settled(moved, RowsOf(live), now)
        else MergeLive(moved, moved.status, live)
      else MergeLive(touched, seen.status, live)
  }

  // Live rows are written only while the run is executing.
  function MergeLive(run: Run, status: RunStatus, live: seq<StageRecord>): Run {
    if live != [] && IsExecuting(status) then run.(rows := UpsertRows(run.rows, live)) else run
  }

  function RecordRun(run: Run, robotId: RobotId, frame: Frame, now: Time): Run {
    RecordSeen(run, run, robotId, frame, now)
  }

  // ---------- The reconnect sweep ----------

  // What a robot said it holds when it came back: nothing said, no run, or the text of a run id.
  datatype Claim = NotReported | HoldsNone | Holds(claimed: UuidText)

  datatype Sweep = Sweep(since: Time, now: Time, claim: Claim)

  // Ten seconds: the age below which the sweep passes over a pending run.
  const DISPATCH_WINDOW: Time := 10_000_000

  predicate IsClaimed(sweep: Sweep, id: Uuid) {
    sweep.claim == Holds(Canonical(id))
  }

  // The runs a sweep leaves to others.
  predicate Spared(sweep: Sweep, id: Uuid, run: Run) {
    || run.createdAt >= sweep.since
    || IsClaimed(sweep, id)
    || (run.status == Pending && sweep.now - run.createdAt < DISPATCH_WINDOW)
    || (sweep.claim.NotReported? && run.lastReport.Some? && run.lastReport.value.receivedAt >= sweep.since)
  }

  const UNCLAIMED: MissionError := MissionError(FromBackend, Fatal, "run_unclaimed_after_reconnect", [])

  function SweepTarget(status: RunStatus): RunStatus {
    if status == Cancelling then Cancelled else Failed
  }

  function SweepWrite(seen: Run): StatusWrite {
    PlainWrite(SweepTarget(seen.status), seen.status, Reconcile).(errors := Some([UNCLAIMED]))
  }

  predicate SweepSkips(sweep: Sweep, id: Uuid, seen: Run) {
    IsTerminal(seen.status) || Spared(sweep, id, seen)
  }

  function SweepRun(run: Run, seen: Run, id: Uuid, sweep: Sweep): Step {
    if SweepSkips(sweep, id, seen) then Step(run, [], None)
    else if Applies(run, SweepWrite(seen)) then
      Step(Settled(Written(run, SweepWrite(seen), sweep.now), map[], sweep.now), [CancelOrder(Graceful)], None)
    else Step(run, [CancelOrder(Graceful)], None)
  }
}
