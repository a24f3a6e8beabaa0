/**
 Starting a run: two transactions around the call to the robot, with the other writers free to run
 while the call is out.
 */
module RunStart {
  import opened Wrappers
  import opened Lifecycle
  import opened Mission
  import opened StageState
  import opened Runs
  import opened RunSteps
  import opened RunInvariants
  import opened RunWorld
  import opened RunServices
  import opened RunTheorems

  // What the caller is told: the start was refused, a transaction failed, the dispatch failed, the run was
  // removed meanwhile, or the run as it stands.
  datatype StartResult = StartRefused | StartFailed | DispatchFailed(run: Run) | RunRemoved | Started(run: Run)

  // Which transaction fails, if any; the second can fail before or after it sent its commands, which no
  // rollback takes back.
  datatype Commits = BothCommit | FirstFails | SecondFails(hasSent: bool)

  // Whether the caller hears of a failed dispatch, given where the run stands by then.
  predicate ReportsFailure(outcome: DispatchOutcome, status: RunStatus) {
    outcome != Accepted && status in {Pending, Rejected, Failed}
  }

  // The world when the reply is about to be recorded.
  function BeforeReply(w: World, id: Uuid, request: StartRequest, fit: bool, now: Time, during: seq<Event>): World {
    After(Next(Next(w, Prepared(id, request, false, fit, now)), DispatchSent(id)), during)
  }

  // The second transaction and what the caller hears.
  function AfterReply(waiting: World, id: Uuid, outcome: DispatchOutcome, repliedAt: Time,
                      commits: Commits): (World, StartResult) {
    if commits == SecondFails(false) then (waiting, StartFailed)
    else if id !in waiting.runs then (waiting, RunRemoved)
    else
      var settled := Next(waiting, ReplySettled(id, outcome, repliedAt, repliedAt));
      var run := settled.runs[id];
      if commits.SecondFails? then (waiting.(sent := settled.sent), StartFailed)
      else (settled, if ReportsFailure(outcome, run.status) then DispatchFailed(run) else Started(run))
  }

  function StartRun(w: World, id: Uuid, request: StartRequest, fit: bool, now: Time,
                    during: seq<Event>, outcome: DispatchOutcome, repliedAt: Time,
                    commits: Commits): (World, StartResult) {
    if !CanStart(w, id, request, false, fit) then (w, StartRefused)
    else if commits.FirstFails? then (w, StartFailed)
    else AfterReply(BeforeReply(w, id, request, fit, now, during), id, outcome, repliedAt, commits)
  }

  // How the call to the robot ended.
  datatype DispatchReply = Took | RejectedByRobot | NoAnswer | TransportFailed

  function OutcomeOf(reply: DispatchReply): DispatchOutcome {
    match reply
    case Took => Accepted
    case RejectedByRobot => Declined
    case NoAnswer => TimedOut
    case TransportFailed => Errored
  }

  class RunStartOrchestrator {
    const service: RunService

    constructor (service: RunService)
      ensures this.service == service
    {
      this.service := service;
    }

    // The other writers' turn while the call is out; `minted` are the run ids drawn so far.
    method OthersRun(minted: set<Uuid>, during: seq<Event>)
      modifies service.store, service.dispatcher
      ensures var w := After(World(old(service.store.runs), minted, old(service.dispatcher.sent)), during);
              service.store.runs == w.runs && service.dispatcher.sent == w.sent
    {
      var w := After(World(service.store.runs, minted, service.dispatcher.sent), during);
      service.store.runs := w.runs;
      service.dispatcher.sent := w.sent;
    }

    // Records the robot's answer and tells the caller.
    method RecordReply(id: Uuid, ghost minted: set<Uuid>, reply: DispatchReply, repliedAt: Time, commits: Commits)
      returns (result: StartResult)
      modifies service.store, service.dispatcher
      ensures var waiting := World(old(service.store.runs), minted, old(service.dispatcher.sent));
              var (after, told) := AfterReply(waiting, id, OutcomeOf(reply), repliedAt, commits);
              service.store.runs == after.runs && service.dispatcher.sent == after.sent && result == told
    {
      var outcome, failed := Accepted, false;
      match reply {
        case Took =>
        case RejectedByRobot => outcome, failed := Declined, true;
        case NoAnswer => outcome, failed := TimedOut, true;
        case TransportFailed => outcome, failed := Errored, true;
      }
      if commits == SecondFails(false) {
        return StartFailed;
      }
      var waiting := service.store.runs;
      var error := service.Settle(id, outcome, repliedAt, repliedAt);
      if error.Some? {
        return RunRemoved;
      }
      if commits.SecondFails? {
        service.store.runs := waiting;
        return StartFailed;
      }
      var settled := service.store.runs[id];
      if failed && settled.status in {Pending, Rejected, Failed} {
        return DispatchFailed(settled);
      }
      result := Started(settled);
    }

    // Records the run, asks the robot outside any transaction, and records its answer.
    method Start(command: StartCommand, mission: Option<MissionRecord>, offline: bool, fits: bool, newId: Uuid,
                 now: Time, minted: set<Uuid>, during: seq<Event>, reply: DispatchReply, repliedAt: Time,
                 commits: Commits)
      returns (result: StartResult)
      requires newId !in service.store.runs && newId !in minted
      modifies service.store, service.dispatcher
      ensures StartRefusal(old(service.store.runs), command, mission, offline, fits).Some? ==>
                && result == StartRefused && service.store.runs == old(service.store.runs)
                && service.dispatcher.sent == old(service.dispatcher.sent)
      ensures StartRefusal(old(service.store.runs), command, mission, offline, fits).None? ==>
                var w := World(old(service.store.runs), minted, old(service.dispatcher.sent));
                var (after, told) := StartRun(w, newId, RequestFor(command, mission.value), true, now, during,
                                              OutcomeOf(reply), repliedAt, commits);
                service.store.runs == after.runs && service.dispatcher.sent == after.sent && result == told
    {
      ghost var w := World(service.store.runs, minted, service.dispatcher.sent);
      var before := service.store.runs;
      var refused := service.Prepare(command, mission, offline, fits, newId, now);
      if refused.Some? {
        return StartRefused;
      }
      if commits.FirstFails? {
        service.store.runs := before;
        return StartFailed;
      }
      var run := service.store.runs[newId];
      service.dispatcher.Send(newId, run.robotId, DispatchOrder);
      PreparedAndSent(w, newId, RequestFor(command, mission.value), now);
      OthersRun(minted + {newId}, during);
      result := RecordReply(newId, minted + {newId}, reply, repliedAt, commits);
    }
  }

  function RequestFor(command: StartCommand, mission: MissionRecord): StartRequest
    requires RobotFor(command, mission).Some?
  {
    StartRequest(command.missionId, RobotFor(command, mission).value, mission.stages, command.allowConcurrent)
  }

  lemma {:induction false} PreparedAndSent(w: World, id: Uuid, request: StartRequest, now: Time)
    requires CanStart(w, id, request, false, true)
    ensures var run := NewRun(request, now);
            Next(Next(w, Prepared(id, request, false, true, now)), DispatchSent(id)) ==
            World(w.runs[id := run], w.minted + {id}, w.sent + [Sent(id, run.robotId, DispatchOrder)])
  {
    TaggedOne(id, request.robotId, DispatchOrder);
  }

  // While the call is out, nobody else settles this run's reply.
  ghost predicate LeavesReplyAlone(during: seq<Event>, id: Uuid) {
    forall i :: 0 <= i < |during| && during[i].ReplySettled? ==> during[i].id != id
  }

  // A run that only the backend has moved, and that was never accepted, is pending, rejected or failed.
  ghost predicate OnlyBackend(log: seq<Transition>) {
    forall i :: 0 <= i < |log| ==> log[i].actor == Backend
  }

  ghost predicate NeverAccepted(log: seq<Transition>) {
    forall i :: 0 <= i < |log| ==> log[i].trigger != Accept
  }

  lemma {:induction false} BackendAloneNeverDrives(log: seq<Transition>, status: RunStatus)
    requires LogOk(log, status) && OnlyBackend(log) && NeverAccepted(log)
    ensures status in {Pending, Rejected, Failed}
    decreases |log|
  {}

  // Nobody but the backend leaves a run pending, or rejects one.
  lemma {:induction false} UnmovedByOthers(log: seq<Transition>, status: RunStatus)
    requires LogOk(log, status) && status in {Pending, Rejected}
    ensures OnlyBackend(log)
    decreases |log|
  {
    if log != [] {
      UnmovedByOthers(log[..|log| - 1], Last(log).from);
      assert log == log[..|log| - 1] + [Last(log)];
    }
  }

  // The states reported as a failed dispatch are exactly those where only the backend moved the run, or it
  // failed.
  lemma {:induction false} UnacceptedIsReportedIff(log: seq<Transition>, status: RunStatus)
    requires LogOk(log, status) && NeverAccepted(log)
    ensures status in {Pending, Rejected, Failed} <==> OnlyBackend(log) || status == Failed
  {
    if status in {Pending, Rejected} {
      UnmovedByOthers(log, status);
    }
    if OnlyBackend(log) {
      BackendAloneNeverDrives(log, status);
    }
  }

  // ---------- Only settling the reply accepts a run ----------

  lemma {:induction false} CancelNeverAccepts(run: Run, seen: Seen, mode: CancelMode, offline: bool,
                                              reply: ControlReply, now: Time)
    requires NeverAccepted(run.log)
    ensures NeverAccepted(CancelRun(run, seen, mode, offline, reply, now).run.log)
  {
    CancelCases(run, seen, mode, offline, reply, now);
  }

  lemma {:induction false} RecordNeverAccepts(run: Run, robotId: RobotId, frame: Frame, now: Time)
    requires NeverAccepted(run.log)
    ensures NeverAccepted(RecordRun(run, robotId, frame, now).log)
  {
    var move := ReportTransition(run, frame);
    if move.Some? {
      assert move.value.1 != Accept;
      GrowsNeverAccepted(run.log, ReportedRow(run.status, move.value, frame.headerId));
    }
  }

  lemma {:induction false} GrowsNeverAccepted(log: seq<Transition>, row: Transition)
    requires NeverAccepted(log) && row.trigger != Accept
    ensures NeverAccepted(log + [row])
  {}

  lemma {:induction false} OnRunNeverAccepts(run: Run, e: Event)
    requires !e.Prepared? && !e.ClaimStopped? && !e.DeleteAsked? && !e.ReplySettled?
    requires NeverAccepted(run.log)
    ensures NeverAccepted(OnRun(run, e).run.log)
  {
    if e.CancelAsked? {
      CancelNeverAccepts(run, e.seen, e.mode, e.offline, e.reply, e.now);
    } else if e.FrameArrived? {
      RecordNeverAccepts(run, e.robotId, e.frame, e.now);
    }
  }

  lemma {:induction false} WaitingIsNeverAccepted(w: World, during: seq<Event>, id: Uuid)
    requires id in w.minted && LeavesReplyAlone(during, id)
    requires id in w.runs ==> NeverAccepted(w.runs[id].log)
    ensures id in After(w, during).runs ==> NeverAccepted(After(w, during).runs[id].log)
    decreases |during|
  {
    if during != [] {
      var e := during[0];
      if id in w.runs && !e.Prepared? && !e.ClaimStopped? && !e.DeleteAsked? && e.id == id {
        assert !e.ReplySettled?;
        OnRunNeverAccepts(w.runs[id], e);
      }
      assert LeavesReplyAlone(during[1..], id);
      WaitingIsNeverAccepted(Next(w, e), during[1..], id);
    }
  }

  lemma {:induction false} BeforeReplyOk(w: World, id: Uuid, request: StartRequest, fit: bool, now: Time,
                                         during: seq<Event>)
    requires WorldOk(w) && AllWellFormed(during) && DistinctIds(request.stages)
    requires CanStart(w, id, request, false, fit)
    ensures WorldOk(BeforeReply(w, id, request, fit, now, during))
  {
    var prepared := Next(w, Prepared(id, request, false, fit, now));
    NextKeepsOk(w, Prepared(id, request, false, fit, now));
    NextKeepsOk(prepared, DispatchSent(id));
    AfterKeepsOk(Next(prepared, DispatchSent(id)), during);
  }

  // The run is not yet accepted when the reply is about to be recorded.
  lemma {:induction false} BeforeReplyNeverAccepted(w: World, id: Uuid, request: StartRequest, fit: bool, now: Time,
                                                    during: seq<Event>)
    requires CanStart(w, id, request, false, fit) && LeavesReplyAlone(during, id)
    ensures var waiting := BeforeReply(w, id, request, fit, now, during);
            id in waiting.runs ==> NeverAccepted(waiting.runs[id].log)
  {
    var sentOut := Next(Next(w, Prepared(id, request, false, fit, now)), DispatchSent(id));
    assert sentOut.runs[id].log == [];
    WaitingIsNeverAccepted(sentOut, during, id);
  }

  lemma {:induction false} ToldAfterReply(w: World, id: Uuid, request: StartRequest, fit: bool, now: Time,
                                          during: seq<Event>, outcome: DispatchOutcome, repliedAt: Time)
    requires CanStart(w, id, request, false, fit)
    ensures var waiting := BeforeReply(w, id, request, fit, now, during);
            var told := StartRun(w, id, request, fit, now, during, outcome, repliedAt, BothCommit).1;
            if id !in waiting.runs then told == RunRemoved
            else
              var run := SettleRun(waiting.runs[id], outcome, repliedAt, repliedAt).run;
              told == if ReportsFailure(outcome, run.status) then DispatchFailed(run) else Started(run)
  {}

  lemma {:induction false} SettlingUnacceptedNeverAccepts(run: Run, outcome: DispatchOutcome, repliedAt: Time)
    requires outcome != Accepted && NeverAccepted(run.log)
    ensures NeverAccepted(SettleRun(run, outcome, repliedAt, repliedAt).run.log)
  {}

  // Whatever runs while the call is out: a start the robot did not accept, of a run still there, is reported
  // to the caller as failed if and only if only the backend moved the run or the run failed. So a caller told
  // that it started has the robot's or the operator's word for it.
  lemma {:induction false} UnconfirmedStartIsReported(w: World, id: Uuid, request: StartRequest, fit: bool, now: Time,
                                                      during: seq<Event>, outcome: DispatchOutcome, repliedAt: Time)
    requires WorldOk(w) && AllWellFormed(during) && DistinctIds(request.stages)
    requires CanStart(w, id, request, false, fit) && LeavesReplyAlone(during, id)
    requires outcome != Accepted
    ensures var told := StartRun(w, id, request, fit, now, during, outcome, repliedAt, BothCommit).1;
            if id !in BeforeReply(w, id, request, fit, now, during).runs then told == RunRemoved
            else (told.DispatchFailed? || told.Started?)
                 && (told.DispatchFailed? <==> OnlyBackend(told.run.log) || told.run.status == Failed)
  {
    var waiting := BeforeReply(w, id, request, fit, now, during);
    BeforeReplyOk(w, id, request, fit, now, during);
    BeforeReplyNeverAccepted(w, id, request, fit, now, during);
    ToldAfterReply(w, id, request, fit, now, during, outcome, repliedAt);
    if id in waiting.runs {
      var run := SettleRun(waiting.runs[id], outcome, repliedAt, repliedAt).run;
      SettleKeepsOk(waiting.runs[id], outcome, repliedAt, repliedAt);
      SettlingUnacceptedNeverAccepts(waiting.runs[id], outcome, repliedAt);
      UnacceptedIsReportedIff(run.log, run.status);
    }
  }

  lemma {:induction false} UndisturbedWorld(w: World, id: Uuid, request: StartRequest, now: Time,
                                            outcome: DispatchOutcome, repliedAt: Time)
    requires CanStart(w, id, request, false, true)
    ensures var result := StartRun(w, id, request, true, now, [], outcome, repliedAt, BothCommit).1;
            var run := SettleRun(NewRun(request, now), outcome, repliedAt, repliedAt).run;
            result == if ReportsFailure(outcome, run.status) then DispatchFailed(run) else Started(run)
  {}

  // A start refused by the robot while nobody else touched the run ends rejected, complete and
  // reported; one the robot accepted is dispatched at the time it replied.
  lemma {:induction false} UndisturbedStart(w: World, id: Uuid, request: StartRequest, now: Time,
                                            outcome: DispatchOutcome, repliedAt: Time)
    requires DistinctIds(request.stages) && CanStart(w, id, request, false, true)
    ensures var result := StartRun(w, id, request, true, now, [], outcome, repliedAt, BothCommit).1;
            match outcome
            case Accepted => result.Started? && result.run.status == Dispatched && result.run.dispatchedAt == Some(repliedAt)
            case Declined => result.DispatchFailed? && result.run.status == Rejected
                             && ViewComplete(result.run.rows, request.stages)
            case _ => result.DispatchFailed? && result.run.status == Pending && result.run.failureErrors == [DISPATCH_WARNING]
  {
    UndisturbedWorld(w, id, request, now, outcome, repliedAt);
    NewRunOk(request, now);
    SettleKeepsOk(NewRun(request, now), outcome, repliedAt, repliedAt);
    assert SettleRun(NewRun(request, now), outcome, repliedAt, repliedAt).run.stages == request.stages;
  }
  lemma {:induction false} ReportTakesUp(run: Run, frame: Frame, now: Time)
    requires run.status == Pending && frame.exec == ExecRunning
    ensures RecordRun(run, run.robotId, frame, now).status == Running
  {
    assert ReportTransition(run, frame) == Some((Running, Ack));
  }

  // A reply whose transaction failed leaves every run as the other writers left it, so all that holds of any
  // reachable world still holds; and a run nobody moved is pending, to be taken up by the robot's report.
  lemma {:induction false} UnrecordedReplyLosesOnlyItself(w: World, id: Uuid, request: StartRequest, fit: bool,
                                                          now: Time, during: seq<Event>, outcome: DispatchOutcome,
                                                          repliedAt: Time, hasSent: bool, frame: Frame, at: Time)
    requires WorldOk(w) && AllWellFormed(during) && DistinctIds(request.stages)
    requires CanStart(w, id, request, false, fit) && frame.exec == ExecRunning
    ensures var (after, told) := StartRun(w, id, request, fit, now, during, outcome, repliedAt, SecondFails(hasSent));
            && WorldOk(after) && after.runs == BeforeReply(w, id, request, fit, now, during).runs
            && told in {StartFailed, RunRemoved}
            && (id in after.runs && after.runs[id].log == [] ==>
                  && after.runs[id].status == Pending
                  && RecordRun(after.runs[id], after.runs[id].robotId, frame, at).status == Running)
  {
    var waiting := BeforeReply(w, id, request, fit, now, during);
    BeforeReplyOk(w, id, request, fit, now, during);
    if id in waiting.runs && waiting.runs[id].log == [] {
      ReportTakesUp(waiting.runs[id], frame, at);
    }
  }
}
