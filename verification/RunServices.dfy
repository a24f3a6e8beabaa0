/** The services that write runs, over the run store and the commands sent to robots. */
module RunServices {
  import opened Wrappers
  import opened Lifecycle
  import opened Mission
  import opened StageState
  import opened Runs
  import opened RunSteps
  import opened RunWorld
  import opened RunTheorems

  // The wire to the robots: what was sent, in order.
  class Dispatcher {
    var sent: seq<Sent>

    constructor ()
      ensures sent == []
    {
      sent := [];
    }

    method Send(id: Uuid, robotId: RobotId, command: Command)
      modifies this
      ensures sent == old(sent) + [Sent(id, robotId, command)]
    {
      sent := sent + [Sent(id, robotId, command)];
    }
  }

  // A mission as a start reads it.
  datatype MissionRecord = MissionRecord(stages: seq<Stage>, archived: bool, defaultRobot: Option<RobotId>)

  datatype StartCommand = StartCommand(missionId: Uuid, robotId: Option<RobotId>, allowConcurrent: bool)

  function RobotFor(command: StartCommand, mission: MissionRecord): Option<RobotId> {
    if command.robotId.Some? then command.robotId else mission.defaultRobot
  }

  // Why a start is refused, in the order the reasons are checked.
  function StartRefusal(runs: RunTable, command: StartCommand, mission: Option<MissionRecord>,
                        offline: bool, fits: bool): Option<ServiceError> {
    if mission.None? then Some(MissionNotFound)
    else if mission.value.archived then Some(MissionArchived)
    else if RobotFor(command, mission.value).None? then Some(NoRobotAssigned)
    else if RobotHolds(runs, RobotFor(command, mission.value).value) then Some(RobotBusy)
    else if MissionActive(runs, command.missionId) && !command.allowConcurrent then Some(MissionRunInProgress)
    else if offline then Some(RobotIsOffline)
    else if !fits then Some(PlanRefused)
    else None
  }

  function ActiveOf(runs: RunTable, missionId: Uuid): set<Uuid> {
    set id | id in runs && runs[id].missionId == missionId && IsActive(runs[id].status)
  }

  // What a command that names a mission, and perhaps a run, acts on.
  ghost predicate IsTarget(runs: RunTable, known: bool, missionId: Uuid, named: Option<Uuid>,
                           target: Result<Uuid, ServiceError>) {
    if !known then target == Failure(MissionNotFound)
    else if named.Some? then
      if named.value !in runs || runs[named.value].missionId != missionId then target == Failure(RunNotFound)
      else if !IsActive(runs[named.value].status) then target == Failure(InvalidTransition)
      else target == Success(named.value)
    else if |ActiveOf(runs, missionId)| > 1 then target == Failure(AmbiguousRun)
    else if ActiveOf(runs, missionId) == {} then
      target == Failure(if exists id :: id in runs && runs[id].missionId == missionId then InvalidTransition else RunNotFound)
    else target.Success? && ActiveOf(runs, missionId) == {target.value}
  }

  // The table and the wire after a step on one run.
  ghost predicate Ran(before: RunTable, sentBefore: seq<Sent>, after: RunTable, sentAfter: seq<Sent>, id: Uuid,
                      step: Step)
    requires id in before
  {
    && after == before[id := step.run]
    && sentAfter == sentBefore + Tagged(id, before[id].robotId, step.sent)
  }

  // What a delete answers and leaves: refused without effect, or the run's record gone.
  ghost predicate Deleted(before: RunTable, id: Uuid, error: Option<ServiceError>, after: RunTable) {
    && error == (if id !in before then Some(RunNotFound)
                 else if IsActive(before[id].status) then Some(InvalidTransition) else None)
    && after == if error.None? then before - {id} else before
  }

  // A service call that ran a step is that event of the protocol, made on what it read under the lock.
  lemma {:induction false} RanIsNext(w: World, runs: RunTable, sent: seq<Sent>, e: Event)
    requires !e.Prepared? && !e.ClaimStopped? && !e.DeleteAsked? && e.id in w.runs
    requires Ran(w.runs, w.sent, runs, sent, e.id, OnRun(w.runs[e.id], e))
    ensures Next(w, e) == w.(runs := runs, sent := sent)
  {}

  // The robot a start means: the one it names, before the mission's own.
  ghost predicate Means(command: StartCommand, mission: MissionRecord, robotId: RobotId) {
    command.robotId == Some(robotId) || (command.robotId.None? && mission.defaultRobot == Some(robotId))
  }

  // The robot holds no live run, and the mission none either unless the start allows one beside it.
  ghost predicate IsFree(runs: RunTable, command: StartCommand, robotId: RobotId) {
    forall id :: id in runs && !IsTerminal(runs[id].status) ==>
      runs[id].robotId != robotId && (runs[id].missionId == command.missionId ==> command.allowConcurrent)
  }

  // A start goes ahead exactly for a known mission that is not archived and a robot that is named, free,
  // reachable and fit for the plan; what is refused names a reason that holds.
  lemma {:induction false} StartsIff(runs: RunTable, command: StartCommand, mission: Option<MissionRecord>,
                                     offline: bool, fits: bool)
    ensures var refusal := StartRefusal(runs, command, mission, offline, fits);
            && (refusal.None? <==>
                && mission.Some? && !mission.value.archived && !offline && fits
                && exists robotId :: Means(command, mission.value, robotId) && IsFree(runs, command, robotId))
            && (refusal == Some(MissionNotFound) <==> mission.None?)
            && (refusal == Some(MissionArchived) <==> mission.Some? && mission.value.archived)
            && (refusal == Some(NoRobotAssigned) ==> forall robotId :: !Means(command, mission.value, robotId))
            && (refusal in {Some(RobotBusy), Some(MissionRunInProgress)} ==>
                  forall robotId :: Means(command, mission.value, robotId) ==> !IsFree(runs, command, robotId))
            && (refusal == Some(RobotIsOffline) ==> offline)
            && (refusal == Some(PlanRefused) ==> !fits)
  {
    forall id | id in runs ensures IsActive(runs[id].status) <==> !IsTerminal(runs[id].status) {
      TerminalIffNoExit(runs[id].status);
    }
    if mission.Some? && RobotFor(command, mission.value).Some? {
      assert Means(command, mission.value, RobotFor(command, mission.value).value);
    }
  }

  // A start that goes ahead is its event: it adds one run, pending, for that robot with the mission's plan as
  // it is now, and nothing is sent yet.
  lemma {:induction false} PreparedIsNext(w: World, command: StartCommand, mission: Option<MissionRecord>,
                                          offline: bool, fits: bool, newId: Uuid, now: Time)
    requires newId !in w.minted && StartRefusal(w.runs, command, mission, offline, fits).None?
    ensures var request := StartRequest(command.missionId, RobotFor(command, mission.value).value,
                                        mission.value.stages, command.allowConcurrent);
            var next := Next(w, Prepared(newId, request, false, true, now));
            && next == World(w.runs[newId := NewRun(request, now)], w.minted + {newId}, w.sent)
            && var run := next.runs[newId];
               && Means(command, mission.value, run.robotId)
               && run.missionId == command.missionId && run.stages == mission.value.stages
               && run.status == Pending && run.createdAt == now
               && run.log == [] && run.rows == map[] && run.failureErrors == []
               && run.dispatchedAt.None? && run.startedAt.None? && run.endedAt.None? && run.lastReport.None?
  {}

  // A delete call, refused or not, is its event too, and a run it removed never comes back: no later event
  // brings its id into the table again.
  lemma {:induction false} DeletedIsNext(w: World, id: Uuid, error: Option<ServiceError>, after: RunTable,
                                         later: seq<Event>)
    requires w.runs.Keys <= w.minted && Deleted(w.runs, id, error, after)
    ensures Next(w, DeleteAsked(id)) == w.(runs := after)
    ensures error.None? ==> id in w.runs && IsTerminal(w.runs[id].status)
    ensures error.None? ==> id !in After(w.(runs := after), later).runs
  {
    if error.None? {
      TerminalIffNoExit(w.runs[id].status);
      GoneStaysGone(w.(runs := after), later, id);
    }
  }

  // Replaces the rows of a run that ended by their projection.
  method SettleStageState(store: RunStore, id: Uuid, overlay: Rows, now: Time)
    requires id in store.runs
    modifies store
    ensures store.runs == old(store.runs)[id := Settled(old(store.runs)[id], overlay, now)]
  {
    var run := store.runs[id];
    var stored := run.rows + overlay;
    var resolved := FinalStageStatuses(run.stages, stored, run.status, now);
    store.OverwriteStageRuns(id, resolved);
  }

  class RunService {
    const store: RunStore
    const dispatcher: Dispatcher

    constructor (store: RunStore, dispatcher: Dispatcher)
      ensures this.store == store && this.dispatcher == dispatcher
    {
      this.store := store;
      this.dispatcher := dispatcher;
    }

    // The first transaction of a start: refuses it, or inserts the pending run.
    method Prepare(command: StartCommand, mission: Option<MissionRecord>, offline: bool, fits: bool, newId: Uuid,
                   now: Time)
      returns (error: Option<ServiceError>)
      requires newId !in store.runs
      modifies store
      ensures error == StartRefusal(old(store.runs), command, mission, offline, fits)
      ensures error.Some? ==> store.runs == old(store.runs)
      ensures error.None? ==>
                var request := StartRequest(command.missionId, RobotFor(command, mission.value).value,
                                            mission.value.stages, command.allowConcurrent);
                store.runs == old(store.runs)[newId := NewRun(request, now)]
    {
      if mission.None? {
        return Some(MissionNotFound);
      }
      if mission.value.archived {
        return Some(MissionArchived);
      }
      var robotId := RobotFor(command, mission.value);
      if robotId.None? {
        return Some(NoRobotAssigned);
      }
      var holders := store.ListActiveByRobot(robotId.value);
      if holders != [] {
        assert holders[0] in holders;
        return Some(RobotBusy);
      }
      if MissionActive(store.runs, command.missionId) && !command.allowConcurrent {
        return Some(MissionRunInProgress);
      }
      if offline {
        return Some(RobotIsOffline);
      }
      if !fits {
        return Some(PlanRefused);
      }
      var run := NewRun(StartRequest(command.missionId, robotId.value, mission.value.stages, command.allowConcurrent), now);
      var ok := store.Create(newId, run);
      error := None;
    }

    // The second transaction of a start: what became of the dispatch.
    method Settle(id: Uuid, outcome: DispatchOutcome, repliedAt: Time, now: Time) returns (error: Option<ServiceError>)
      modifies store, dispatcher
      ensures id !in old(store.runs) ==>
                error == Some(RunNotFound) && store.runs == old(store.runs) && dispatcher.sent == old(dispatcher.sent)
      ensures id in old(store.runs) ==>
                && error.None?
                && Ran(old(store.runs), old(dispatcher.sent), store.runs, dispatcher.sent, id,
                       SettleRun(old(store.runs)[id], outcome, repliedAt, now))
    {
      var found := store.Get(id);
      if found.None? {
        return Some(RunNotFound);
      }
      var run := found.value;
      error := None;
      TaggedOne(id, run.robotId, CancelOrder(Graceful));
      if outcome == Accepted {
        var updated := store.UpdateStatus(id, PlainWrite(Dispatched, Pending, Accept).(dispatchedAt := Some(repliedAt)), now);
        if updated.Some? {
          return;
        }
        store.MarkDispatchedAt(id, repliedAt);
        var current := store.Get(id);
        if current.value.status == Cancelling {
          dispatcher.Send(id, run.robotId, CancelOrder(Graceful));
        }
        return;
      }
      if outcome != Declined {
        if run.status == Pending {
          var w := PlainWrite(Pending, Pending, DispatchUnconfirmed).(errors := Some([DISPATCH_WARNING]));
          var unsettled := store.UpdateStatus(id, w, now);
          return;
        }
        store.MarkDispatchedAt(id, repliedAt);
        if run.status == Cancelling {
          dispatcher.Send(id, run.robotId, CancelOrder(Graceful));
        }
        return;
      }
      var target := Rejected;
      if run.status == Cancelling {
        target := Cancelled;
      }
      if run.status in {Pending, Cancelling} {
        var w := PlainWrite(target, run.status, Reject).(errors := Some([DISPATCH_REJECTED]));
        var updated := store.UpdateStatus(id, w, now);
        if updated.Some? {
          SettleStageState(store, id, map[], now);
        }
      }
    }

    // Looks up the run a command acts on; a mission with several live ones needs it named.
    method Target(known: bool, missionId: Uuid, named: Option<Uuid>) returns (target: Result<Uuid, ServiceError>)
      ensures IsTarget(store.runs, known, missionId, named, target)
      ensures target.Success? ==> target.value in store.runs && store.runs[target.value].missionId == missionId
                                  && IsActive(store.runs[target.value].status)
    {
      if !known {
        return Failure(MissionNotFound);
      }
      if named.Some? {
        var run := store.Get(named.value);
        if run.None? || run.value.missionId != missionId {
          return Failure(RunNotFound);
        }
        if !IsActive(run.value.status) {
          return Failure(InvalidTransition);
        }
        return Success(named.value);
      }
      var active := ActiveOf(store.runs, missionId);
      if |active| > 1 {
        return Failure(AmbiguousRun);
      }
      if active == {} {
        if exists id :: id in store.runs && store.runs[id].missionId == missionId {
          return Failure(InvalidTransition);
        }
        return Failure(RunNotFound);
      }
      var only :| only in active;
      assert |active - {only}| == 0;
      target := Success(only);
    }

    // Records the cancel request and passes it on.
    method CancelTarget(id: Uuid, mode: CancelMode, offline: bool, reply: ControlReply, now: Time)
      returns (error: Option<ServiceError>)
      requires id in store.runs
      modifies store, dispatcher
      ensures var run := old(store.runs)[id];
              var step := CancelRun(run, SeenOf(run), mode, offline, reply, now);
              error == step.error && Ran(old(store.runs), old(dispatcher.sent), store.runs, dispatcher.sent, id, step)
    {
      var run := store.runs[id];
      var target := TryNextState(run.status, CancelRequest);
      if target.None? {
        return Some(InvalidTransition);
      }
      error := None;
      var w := PlainWrite(target.value, run.status, CancelRequest).(reportHeaderId := Some(LastHeaderId(run)));
      var updated := store.UpdateStatus(id, w, now);
      if updated.None? {
        return;
      }
      SendTheCancel(id, run.status, mode, offline, reply, now);
    }

    method SendTheCancel(id: Uuid, before: RunStatus, mode: CancelMode, offline: bool, reply: ControlReply, now: Time)
      requires id in store.runs && store.runs[id].status == Cancelling && store.runs[id].log != []
      modifies store, dispatcher
      ensures var step := SendCancel(old(store.runs)[id], before, mode, offline, reply, now);
              Ran(old(store.runs), old(dispatcher.sent), store.runs, dispatcher.sent, id, step)
    {
      var run := store.runs[id];
      TaggedOne(id, run.robotId, CancelOrder(mode));
      if offline {
        store.SetAcknowledged(id, false);
        return;
      }
      dispatcher.Send(id, run.robotId, CancelOrder(mode));
      if reply.Applied? {
        store.SetAcknowledged(id, true);
      } else if reply.NoReply? {
        store.SetAcknowledged(id, false);
      } else if reply.refusal == Some(NotExecutingRun) && before != Pending {
        store.SetAcknowledged(id, false);
        var closed := store.UpdateStatus(id, PlainWrite(Cancelled, Cancelling, Reconcile), now);
        if closed.Some? {
          SettleStageState(store, id, map[], now);
        }
      } else {
        store.SetAcknowledged(id, false);
      }
    }

    method Cancel(known: bool, missionId: Uuid, named: Option<Uuid>, mode: CancelMode,
                  offline: bool, reply: ControlReply, now: Time)
      returns (target: Result<Uuid, ServiceError>, error: Option<ServiceError>)
      modifies store, dispatcher
      ensures IsTarget(old(store.runs), known, missionId, named, target)
      ensures target.Failure? ==>
                error == Some(target.error) && store.runs == old(store.runs) && dispatcher.sent == old(dispatcher.sent)
      ensures target.Success? ==>
                && target.value in old(store.runs)
                && var run := old(store.runs)[target.value];
                   var step := CancelRun(run, SeenOf(run), mode, offline, reply, now);
                   error == step.error
                   && Ran(old(store.runs), old(dispatcher.sent), store.runs, dispatcher.sent, target.value, step)
    {
      target := Target(known, missionId, named);
      if target.Failure? {
        return target, Some(target.error);
      }
      error := CancelTarget(target.value, mode, offline, reply, now);
    }

    // Cancels a run outright; refused while its robot is online.
    method CloseTarget(id: Uuid, offline: bool, now: Time) returns (error: Option<ServiceError>)
      requires id in store.runs
      modifies store
      ensures var step := CloseRun(old(store.runs)[id], SeenOf(old(store.runs)[id]), offline, now);
              error == step.error && step.sent == [] && store.runs == old(store.runs)[id := step.run]
    {
      var run := store.runs[id];
      var target := TryNextState(run.status, Close);
      if target.None? {
        return Some(InvalidTransition);
      }
      if !offline {
        return Some(RobotIsOnline);
      }
      var closed := store.UpdateStatus(id, PlainWrite(target.value, run.status, Close), now);
      error := None;
      if closed.None? {
        return;
      }
      SettleStageState(store, id, map[], now);
    }

    // Sends a pause or resume; only an applied one changes the run.
    method SteerTarget(id: Uuid, pause: bool, offline: bool, reply: ControlReply, now: Time)
      returns (error: Option<ServiceError>)
      requires id in store.runs
      modifies store, dispatcher
      ensures var run := old(store.runs)[id];
              var step := SteerRun(run, SeenOf(run), pause, offline, reply, now);
              error == step.error && Ran(old(store.runs), old(dispatcher.sent), store.runs, dispatcher.sent, id, step)
    {
      var run := store.runs[id];
      var trigger, order := if pause then PauseRequest else ResumeRequest, if pause then PauseOrder else ResumeOrder;
      TaggedOne(id, run.robotId, order);
      var target := TryNextState(run.status, trigger);
      if target.None? {
        return Some(InvalidTransition);
      }
      if offline {
        return Some(RobotIsOffline);
      }
      dispatcher.Send(id, run.robotId, order);
      if reply.NoReply? {
        return Some(RobotUnreachable);
      }
      if reply.Refused? {
        return Some(RobotRefusedControl);
      }
      var w := PlainWrite(target.value, run.status, trigger)
               .(reportHeaderId := Some(LastHeaderId(run)), acknowledged := Some(true));
      var updated := store.UpdateStatus(id, w, now);
      error := None;
    }

    // Removes a run that is over.
    method Delete(id: Uuid) returns (error: Option<ServiceError>)
      modifies store
      ensures Deleted(old(store.runs), id, error, store.runs)
    {
      var run := store.Get(id);
      if run.None? {
        return Some(RunNotFound);
      }
      if IsActive(run.value.status) {
        return Some(InvalidTransition);
      }
      store.Delete(id);
      error := None;
    }
  }

  class MissionStateService {
    const store: RunStore

    constructor (store: RunStore)
      ensures this.store == store
    {
      this.store := store;
    }

    // Takes in a robot's report. A report of an unknown run, or from another robot, is dropped.
    method Record(id: Uuid, robotId: RobotId, frame: Frame, now: Time)
      modifies store
      ensures store.runs == if id in old(store.runs)
                            then old(store.runs)[id := RecordRun(old(store.runs)[id], robotId, frame, now)]
                            else old(store.runs)
    {
      var found := store.Get(id);
      if found.None? {
        return;
      }
      var run := found.value;
      if run.robotId != robotId {
        return;
      }
      if !IsTerminal(run.status) {
        store.TouchLastReport(id, LastReport(now, frame.headerId, frame.exec, frame.timestamp));
      }
      assert store.runs == old(store.runs)[id := TouchedIfLive(run, frame, now)];
      RecordTouched(id, run, frame, now);
    }

    // The rest of a report, once its arrival is noted on a run that is not over.
    method RecordTouched(id: Uuid, run: Run, frame: Frame, now: Time)
      requires id in store.runs && store.runs[id] == TouchedIfLive(run, frame, now)
      modifies store
      ensures store.runs == old(store.runs)[id := RecordRun(run, run.robotId, frame, now)]
    {
      var live := ComputeLiveRecords(frame, run.stages);
      ReportEffect(run, frame, now);
      var currentStatus, moved := Advance(id, run, frame, now);
      StoreStages(id, currentStatus, moved, live, now);
    }

    // A run that just ended has its stages closed out under the frame; an executing one merges it.
    method StoreStages(id: Uuid, currentStatus: RunStatus, moved: bool, live: seq<StageRecord>, now: Time)
      requires id in store.runs
      modifies store
      ensures var run := old(store.runs)[id];
              store.runs == old(store.runs)[id := if moved && IsTerminal(currentStatus) then Settled(run, RowsOf(live), now)
                                                  else MergeLive(run, currentStatus, live)]
    {
      if moved && IsTerminal(currentStatus) {
        SettleStageState(store, id, RowsOf(live), now);
      } else if live != [] && IsExecuting(currentStatus) {
        store.UpsertStageRuns(id, live);
      }
    }

    // Writes the transition a report means, if any.
    method Advance(id: Uuid, run: Run, frame: Frame, now: Time) returns (currentStatus: RunStatus, moved: bool)
      requires id in store.runs && store.runs[id].status == run.status
      modifies store
      ensures var move := ReportTransition(run, frame);
              && moved == move.Some?
              && currentStatus == (if moved then move.value.0 else run.status)
              && store.runs == (if moved
                                then old(store.runs)[id := Written(old(store.runs)[id], ReportWrite(run, frame, move.value), now)]
                                else old(store.runs))
    {
      currentStatus, moved := run.status, false;
      var trigger := TriggerForReport(currentStatus, frame.exec);
      if PredatesRequest(run, frame.headerId, trigger) {
        return;
      }
      TerminalIffNoExit(run.status);
      var target := TryNextState(currentStatus, trigger);
      if target.Some? {
        var errors := if target.value == Failed then Some(run.failureErrors + frame.errors)
                      else if run.failureErrors != [] then Some([]) else None;
        var w := PlainWrite(target.value, currentStatus, trigger)
                 .(reportHeaderId := Some(frame.headerId), errors := errors);
        assert w == ReportWrite(run, frame, (target.value, trigger));
        var updated := store.UpdateStatus(id, w, now);
        if updated.Some? {
          currentStatus, moved := target.value, true;
        }
      }
    }
  }

  function TouchedIfLive(run: Run, frame: Frame, now: Time): Run {
    if IsTerminal(run.status) then run else Touched(run, frame, now)
  }

  // What recording a report comes to, step by step.
  lemma {:induction false} ReportEffect(run: Run, frame: Frame, now: Time)
    ensures var touched := TouchedIfLive(run, frame, now);
            var live, move := LiveRecords(frame, run.stages), ReportTransition(run, frame);
            RecordRun(run, run.robotId, frame, now) ==
            if move.None? then MergeLive(touched, run.status, live)
            else
              var moved := Written(touched, ReportWrite(run, frame, move.value), now);
              if IsTerminal(move.value.0) then Settled(moved, RowsOf(live), now) else MergeLive(moved, move.value.0, live)
  {
    TerminalIffNoExit(run.status);
  }
}
