/**
 The run protocol as a transition system: every run, every command sent to a robot, and the events
 of its writers in whatever order they interleave.
 */
module RunWorld {
  import opened Wrappers
  import opened Lifecycle
  import opened Mission
  import opened StageState
  import opened Runs
  import opened RunSteps
  import opened RunInvariants

  datatype Sent = Sent(runId: Uuid, robotId: RobotId, command: Command)

  // The runs, the run ids ever used, and the commands sent so far.
  datatype World = World(runs: RunTable, minted: set<Uuid>, sent: seq<Sent>)

  datatype StartRequest = StartRequest(missionId: Uuid, robotId: RobotId, stages: seq<Stage>,
                                       allowConcurrent: bool)

  datatype Event =
    // The run is recorded before its robot is asked. `busy` is what the robot check read, which may
    // be stale, and `fit` whether the plan, the robot and its sites passed every other check.
    | Prepared(id: Uuid, request: StartRequest, busy: bool, fit: bool, now: Time)
    | DispatchSent(id: Uuid)
    | ReplySettled(id: Uuid, outcome: DispatchOutcome, repliedAt: Time, now: Time)
    | CancelAsked(id: Uuid, seen: Seen, mode: CancelMode, offline: bool, reply: ControlReply, now: Time)
    | CloseAsked(id: Uuid, seen: Seen, offline: bool, now: Time)
    | SteerAsked(id: Uuid, seen: Seen, pause: bool, offline: bool, reply: ControlReply, now: Time)
    | FrameArrived(id: Uuid, robotId: RobotId, frame: Frame, now: Time)
    | SweptOne(id: Uuid, read: Run, sweep: Sweep)
    | ClaimStopped(robotId: RobotId, claimed: UuidText)
    | DeleteAsked(id: Uuid)

  function NewRun(request: StartRequest, now: Time): Run {
    Run(request.missionId, request.robotId, Pending, request.stages, [], now, None, None, None, None, [], map[])
  }

  predicate CanStart(w: World, id: Uuid, request: StartRequest, busy: bool, fit: bool) {
    && id !in w.minted
    && !busy
    && fit
    && (MissionActive(w.runs, request.missionId) ==> request.allowConcurrent)
    && !RobotHolds(w.runs, request.robotId)
  }

  function Tagged(id: Uuid, robotId: RobotId, commands: seq<Command>): seq<Sent> {
    seq(|commands|, i requires 0 <= i < |commands| => Sent(id, robotId, commands[i]))
  }

  lemma {:induction false} TaggedOne(id: Uuid, robotId: RobotId, command: Command)
    ensures Tagged(id, robotId, [command]) == [Sent(id, robotId, command)]
    ensures Tagged(id, robotId, []) == []
  {}

  // What the event does to the run it concerns.
  function OnRun(run: Run, e: Event): Step
    requires !e.Prepared? && !e.ClaimStopped? && !e.DeleteAsked?
  {
    match e
    case DispatchSent(_) => Step(run, [DispatchOrder], None)
    case ReplySettled(_, outcome, repliedAt, now) => SettleRun(run, outcome, repliedAt, now)
    case CancelAsked(_, seen, mode, offline, reply, now) => CancelRun(run, seen, mode, offline, reply, now)
    case CloseAsked(_, seen, offline, now) => CloseRun(run, seen, offline, now)
    case SteerAsked(_, seen, pause, offline, reply, now) => SteerRun(run, seen, pause, offline, reply, now)
    case FrameArrived(_, robotId, frame, now) => Step(RecordRun(run, robotId, frame, now), [], None)
    case SweptOne(id, read, sweep) => SweepRun(run, read, id, sweep)
  }

  // The claim names a run of this robot that is over.
  predicate StopsClaim(runs: RunTable, robotId: RobotId, claimed: UuidText) {
    && !claimed.NotAnId?
    && claimed.id in runs
    && IsTerminal(runs[claimed.id].status)
    && runs[claimed.id].robotId == robotId
  }

  function Next(w: World, e: Event): World {
    match e
    case Prepared(id, request, busy, fit, now) =>
      if CanStart(w, id, request, busy, fit)
      then World(w.runs[id := NewRun(request, now)], w.minted + {id}, w.sent) else w
    case ClaimStopped(robotId, claimed) =>
      if StopsClaim(w.runs, robotId, claimed)
      then w.(sent := w.sent + [Sent(claimed.id, robotId, CancelOrder(Immediate))]) else w
    case DeleteAsked(id) =>
      if id in w.runs && !IsActive(w.runs[id].status) then w.(runs := w.runs - {id}) else w
    case _ =>
      if e.id !in w.runs then w
      else
        var step := OnRun(w.runs[e.id], e);
        w.(runs := w.runs[e.id := step.run], sent := w.sent + Tagged(e.id, w.runs[e.id].robotId, step.sent))
  }

  function After(w: World, events: seq<Event>): World
    decreases |events|
  {
    if events == [] then w else After(Next(w, events[0]), events[1..])
  }

  // A mission's stored plan never repeats a stage id.
  predicate WellFormed(e: Event) {
    e.Prepared? ==> DistinctIds(e.request.stages)
  }

  predicate AllWellFormed(events: seq<Event>) {
    forall i :: 0 <= i < |events| ==> WellFormed(events[i])
  }

  const EMPTY_WORLD: World := World(map[], {}, [])

  // ---------- What a step never does to a run ----------

  // The run keeps its identity and plan and its log is only added to; once over, it only ever gains a
  // dispatch time; a cancel is never withdrawn; and a run never becomes pending again.
  ghost predicate Follows(before: Run, after: Run) {
    && after.missionId == before.missionId && after.robotId == before.robotId
    && after.stages == before.stages && after.createdAt == before.createdAt
    && before.log <= after.log
    && (IsTerminal(before.status) ==> after == before.(dispatchedAt := after.dispatchedAt))
    && (before.status == Cancelling ==> after.status == Cancelling || IsTerminal(after.status))
    && (after.status == Pending ==> before.status == Pending)
  }

  lemma {:induction false} SettleFollows(run: Run, outcome: DispatchOutcome, repliedAt: Time, now: Time)
    ensures Follows(run, SettleRun(run, outcome, repliedAt, now).run)
  {}

  lemma {:induction false} CancelFollows(run: Run, seen: Seen, mode: CancelMode, offline: bool, reply: ControlReply,
                                         now: Time)
    ensures Follows(run, CancelRun(run, seen, mode, offline, reply, now).run)
  {
    CancelCases(run, seen, mode, offline, reply, now);
    AcknowledgedAddsOne(run, CancelWrite(seen), now, true);
    AcknowledgedAddsOne(run, CancelWrite(seen), now, false);
  }

  lemma {:induction false} CloseFollows(run: Run, seen: Seen, offline: bool, now: Time)
    ensures Follows(run, CloseRun(run, seen, offline, now).run)
  {}

  lemma {:induction false} SteerFollows(run: Run, seen: Seen, pause: bool, offline: bool, reply: ControlReply,
                                        now: Time)
    ensures Follows(run, SteerRun(run, seen, pause, offline, reply, now).run)
  {}

  lemma {:induction false} RecordKeepsPlan(run: Run, robotId: RobotId, frame: Frame, now: Time)
    ensures var after := RecordRun(run, robotId, frame, now);
            && after.missionId == run.missionId && after.robotId == run.robotId
            && after.stages == run.stages && after.createdAt == run.createdAt
            && after.status in {run.status, StateAfterReport(run.status, frame.exec)}
            && run.log <= after.log
  {}

  lemma {:induction false} RecordAfterEnd(run: Run, robotId: RobotId, frame: Frame, now: Time)
    requires IsTerminal(run.status)
    ensures RecordRun(run, robotId, frame, now) == run
  {}

  lemma {:induction false} RecordFollows(run: Run, robotId: RobotId, frame: Frame, now: Time)
    ensures Follows(run, RecordRun(run, robotId, frame, now))
  {
    RecordKeepsPlan(run, robotId, frame, now);
    ReportTable(run.status, frame.exec);
    if IsTerminal(run.status) {
      RecordAfterEnd(run, robotId, frame, now);
    }
  }

  lemma {:induction false} SweepFollows(run: Run, read: Run, id: Uuid, sweep: Sweep)
    ensures Follows(run, SweepRun(run, read, id, sweep).run)
  {}

  lemma {:induction false} OnRunMovesForward(run: Run, e: Event)
    requires !e.Prepared? && !e.ClaimStopped? && !e.DeleteAsked?
    ensures Follows(run, OnRun(run, e).run)
  {
    match e
    case DispatchSent(_) =>
    case ReplySettled(_, outcome, repliedAt, now) => SettleFollows(run, outcome, repliedAt, now);
    case CancelAsked(_, seen, mode, offline, reply, now) => CancelFollows(run, seen, mode, offline, reply, now);
    case CloseAsked(_, seen, offline, now) => CloseFollows(run, seen, offline, now);
    case SteerAsked(_, seen, pause, offline, reply, now) => SteerFollows(run, seen, pause, offline, reply, now);
    case FrameArrived(_, robotId, frame, now) => RecordFollows(run, robotId, frame, now);
    case SweptOne(id, read, sweep) => SweepFollows(run, read, id, sweep);
  }

  lemma {:induction false} OperatorKeepsOk(run: Run, e: Event)
    requires RunOk(run) && (e.CancelAsked? || e.CloseAsked? || e.SteerAsked?)
    ensures RunOk(OnRun(run, e).run)
  {
    match e
    case CancelAsked(_, seen, mode, offline, reply, now) => CancelKeepsOk(run, seen, mode, offline, reply, now);
    case CloseAsked(_, seen, offline, now) => CloseKeepsOk(run, seen, offline, now);
    case SteerAsked(_, seen, pause, offline, reply, now) => SteerKeepsOk(run, seen, pause, offline, reply, now);
  }

  lemma {:induction false} OnRunKeepsOk(run: Run, e: Event)
    requires RunOk(run) && !e.Prepared? && !e.ClaimStopped? && !e.DeleteAsked?
    ensures RunOk(OnRun(run, e).run)
  {
    match e
    case DispatchSent(_) =>
    case CancelAsked(_, _, _, _, _, _) => OperatorKeepsOk(run, e);
    case CloseAsked(_, _, _, _) => OperatorKeepsOk(run, e);
    case SteerAsked(_, _, _, _, _, _) => OperatorKeepsOk(run, e);
    case ReplySettled(_, outcome, repliedAt, now) => SettleKeepsOk(run, outcome, repliedAt, now);
    case FrameArrived(_, robotId, frame, now) => RecordKeepsOk(run, robotId, frame, now);
    case SweptOne(id, read, sweep) => SweepKeepsOk(run, read, id, sweep);
  }

  lemma {:induction false} OnRunFollows(run: Run, e: Event)
    requires !e.Prepared? && !e.ClaimStopped? && !e.DeleteAsked?
    ensures Follows(run, OnRun(run, e).run)
    ensures RunOk(run) ==> RunOk(OnRun(run, e).run)
  {
    OnRunMovesForward(run, e);
    if RunOk(run) {
      OnRunKeepsOk(run, e);
    }
  }

  // ---------- What holds in every reachable world ----------

  ghost predicate OneActivePerRobot(runs: RunTable) {
    forall a, b :: (&& a in runs && b in runs
                    && IsActive(runs[a].status) && IsActive(runs[b].status)
                    && runs[a].robotId == runs[b].robotId) ==> a == b
  }

  ghost predicate WorldOk(w: World) {
    && w.runs.Keys <= w.minted
    && (forall id :: id in w.runs ==> RunOk(w.runs[id]))
    && OneActivePerRobot(w.runs)
  }

  lemma {:induction false} ReplacingKeepsOk(w: World, id: Uuid, run: Run, sent: seq<Sent>)
    requires WorldOk(w) && id in w.runs && Follows(w.runs[id], run) && RunOk(run)
    ensures WorldOk(w.(runs := w.runs[id := run], sent := sent))
  {
    ReplacingKeepsOneActive(w.runs, id, run);
  }

  lemma {:induction false} ReplacingKeepsOneActive(runs: RunTable, id: Uuid, run: Run)
    requires OneActivePerRobot(runs) && id in runs && run.robotId == runs[id].robotId
    requires IsActive(run.status) ==> IsActive(runs[id].status)
    ensures OneActivePerRobot(runs[id := run])
  {}

  lemma {:induction false} StartingKeepsOk(w: World, id: Uuid, request: StartRequest, now: Time)
    requires WorldOk(w) && !RobotHolds(w.runs, request.robotId) && DistinctIds(request.stages)
    requires id !in w.minted
    ensures WorldOk(World(w.runs[id := NewRun(request, now)], w.minted + {id}, w.sent))
  {
    NewRunOk(request, now);
  }

  lemma {:induction false} NextKeepsOk(w: World, e: Event)
    requires WorldOk(w) && WellFormed(e)
    ensures WorldOk(Next(w, e))
  {
    if e.Prepared? {
      if CanStart(w, e.id, e.request, e.busy, e.fit) {
        StartingKeepsOk(w, e.id, e.request, e.now);
      }
    } else if !e.ClaimStopped? && !e.DeleteAsked? && e.id in w.runs {
      OnRunFollows(w.runs[e.id], e);
      ReplacingKeepsOk(w, e.id, OnRun(w.runs[e.id], e).run, Next(w, e).sent);
    }
  }

  lemma {:induction false} NewRunOk(request: StartRequest, now: Time)
    requires DistinctIds(request.stages)
    ensures RunOk(NewRun(request, now))
  {}

  lemma {:induction false} AfterKeepsOk(w: World, events: seq<Event>)
    requires WorldOk(w) && AllWellFormed(events)
    ensures WorldOk(After(w, events))
    decreases |events|
  {
    if events != [] {
      assert WellFormed(events[0]);
      NextKeepsOk(w, events[0]);
      AfterKeepsOk(Next(w, events[0]), events[1..]);
    }
  }

  lemma {:induction false} AfterConcat(w: World, first: seq<Event>, second: seq<Event>)
    ensures After(w, first + second) == After(After(w, first), second)
    decreases |first|
  {
    if first == [] {
      assert first + second == second;
    } else {
      assert (first + second)[0] == first[0] && (first + second)[1..] == first[1..] + second;
      AfterConcat(Next(w, first[0]), first[1..], second);
    }
  }
}
