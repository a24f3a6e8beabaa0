/**
 What a run says of itself: which errors it carries, and when it was dispatched, started, reported and
 ended, over every history of the protocol.
 */
module RunFacts {
  import opened Wrappers
  import opened Lifecycle
  import opened Mission
  import opened StageState
  import opened Runs
  import opened RunSteps
  import opened RunInvariants
  import opened RunWorld
  import opened RunTheorems

  // ---------- The errors a report leaves ----------

  // A report that fails the run adds its own errors to those noted before; any other report that moves the
  // run clears them; one that moves nothing leaves them.
  lemma {:induction false} ReportSetsErrors(w: World, id: Uuid, robotId: RobotId, frame: Frame, now: Time)
    requires id in w.runs
    ensures var run, next := w.runs[id], Next(w, FrameArrived(id, robotId, frame, now));
            && id in next.runs
            && next.runs[id].failureErrors ==
               if next.runs[id].status == run.status then run.failureErrors
               else if next.runs[id].status == Failed then run.failureErrors + frame.errors
               else []
  {
    ReportLeaves(w.runs[id], robotId, frame, now);
  }

  // A report that means a transition moves the run, which is live.
  lemma {:induction false} ReportMoves(run: Run, frame: Frame)
    requires ReportTransition(run, frame).Some?
    ensures ReportTransition(run, frame).value.0 != run.status && !IsTerminal(run.status)
  {
    TerminalIffNoExit(run.status);
  }

  lemma {:induction false} UnmovedLeaves(run: Run, robotId: RobotId, frame: Frame, now: Time)
    requires robotId != run.robotId || ReportTransition(run, frame).None?
    ensures var after := RecordRun(run, robotId, frame, now);
            after.status == run.status && after.log == run.log && after.failureErrors == run.failureErrors
  {}

  lemma {:induction false} MovedLeaves(run: Run, frame: Frame, now: Time)
    requires ReportTransition(run, frame).Some?
    ensures var after, move := RecordRun(run, run.robotId, frame, now), ReportTransition(run, frame).value;
            && after.status == move.0 && after.log == run.log + [ReportedRow(run.status, move, frame.headerId)]
            && after.failureErrors == if move.0 == Failed then run.failureErrors + frame.errors else []
  {
    ReportMoves(run, frame);
  }

  lemma {:induction false} ReportLeaves(run: Run, robotId: RobotId, frame: Frame, now: Time)
    ensures var after := RecordRun(run, robotId, frame, now);
            && (after.status == run.status ==> after.log == run.log && after.failureErrors == run.failureErrors)
            && (after.status != run.status ==>
                  && TryNextState(run.status, TriggerForReport(run.status, frame.exec)) == Some(after.status)
                  && after.log == run.log + [ReportedRow(run.status, (after.status, TriggerForReport(run.status, frame.exec)),
                                                         frame.headerId)]
                  && after.failureErrors == if after.status == Failed then run.failureErrors + frame.errors else [])
  {
    if robotId != run.robotId || ReportTransition(run, frame).None? {
      UnmovedLeaves(run, robotId, frame, now);
    } else {
      ReportMoves(run, frame);
      MovedLeaves(run, frame, now);
    }
  }

  // ---------- The errors a run carries ----------

  // The errors noted by a log that has not ended: the warning of an unconfirmed dispatch, until a report of
  // the robot moves the run.
  function Noted(log: seq<Transition>): seq<MissionError> {
    if log == [] then []
    else if Last(log).trigger == DispatchUnconfirmed then [DISPATCH_WARNING]
    else if Last(log).actor == Robot then []
    else Noted(log[..|log| - 1])
  }

  // How the run's errors follow from its log: a live run carries what was noted, one that ended what the end
  // says of them.
  ghost predicate ErrorsOk(run: Run) {
    if !IsTerminal(run.status) then run.failureErrors == Noted(run.log)
    else
      && run.log != []
      && var noted := Noted(run.log[..|run.log| - 1]);
         match Last(run.log).trigger
         case Complete => run.failureErrors == []
         case Cancel => run.failureErrors == []
         case Fail => noted <= run.failureErrors
         case Reject => run.failureErrors == [DISPATCH_REJECTED]
         case Close => run.failureErrors == noted
         case Reconcile => run.failureErrors == [UNCLAIMED] || (run.status == Cancelled && run.failureErrors == noted)
         case _ => false
  }

  lemma {:induction false} NotedAfter(log: seq<Transition>, row: Transition)
    ensures (log + [row])[..|log|] == log && Last(log + [row]) == row
    ensures Noted(log + [row]) == if row.trigger == DispatchUnconfirmed then [DISPATCH_WARNING]
                                  else if row.actor == Robot then [] else Noted(log)
  {
    assert (log + [row])[..|log|] == log;
  }

  // A write of the backend or an operator into a live state, the unconfirmed note, or a rejection.
  predicate KeepsNoted(w: StatusWrite) {
    match w.trigger
    case DispatchUnconfirmed => !IsTerminal(w.to) && w.errors == Some([DISPATCH_WARNING])
    case Reject => IsTerminal(w.to) && w.errors == Some([DISPATCH_REJECTED])
    case _ => !IsTerminal(w.to) && w.errors.None? && ActorOf(w.trigger) != Robot
  }

  lemma {:induction false} WriteKeepsErrors(run: Run, w: StatusWrite, now: Time)
    requires ErrorsOk(run) && Applies(run, w) && KeepsNoted(w)
    ensures ErrorsOk(Written(run, w, now))
  {
    NotedAfter(run.log, Last(Written(run, w, now).log));
  }

  lemma {:induction false} SettleKeepsErrors(run: Run, outcome: DispatchOutcome, repliedAt: Time, now: Time)
    requires ErrorsOk(run)
    ensures ErrorsOk(SettleRun(run, outcome, repliedAt, now).run)
  {
    match outcome
    case Accepted =>
      if run.status == Pending {
        WriteKeepsErrors(run, PlainWrite(Dispatched, Pending, Accept).(dispatchedAt := Some(repliedAt)), now);
      }
    case Declined =>
      if run.status in {Pending, Cancelling} {
        var target := if run.status == Cancelling then Cancelled else Rejected;
        WriteKeepsErrors(run, PlainWrite(target, run.status, Reject).(errors := Some([DISPATCH_REJECTED])), now);
      }
    case _ =>
      if run.status == Pending {
        WriteKeepsErrors(run, PlainWrite(Pending, Pending, DispatchUnconfirmed).(errors := Some([DISPATCH_WARNING])), now);
      }
  }

  lemma {:induction false} CancelKeepsErrors(run: Run, seen: Seen, mode: CancelMode, offline: bool, reply: ControlReply,
                                             now: Time)
    requires ErrorsOk(run)
    ensures ErrorsOk(CancelRun(run, seen, mode, offline, reply, now).run)
  {
    CancelCases(run, seen, mode, offline, reply, now);
    var asked := Written(run, CancelWrite(seen), now);
    AskedKeepsErrors(run, seen, now, true);
    AskedKeepsErrors(run, seen, now, false);
    NotedAfter(Acknowledged(asked, false).log, Transition(Cancelling, Cancelled, Reconcile, Backend, None, None));
  }

  lemma {:induction false} AskedKeepsErrors(run: Run, seen: Seen, now: Time, acknowledged: bool)
    ensures var asked := Acknowledged(Written(run, CancelWrite(seen), now), acknowledged);
            asked.failureErrors == run.failureErrors && Noted(asked.log) == Noted(run.log)
  {
    var asked := Acknowledged(Written(run, CancelWrite(seen), now), acknowledged);
    assert asked.log == run.log + [Last(asked.log)];
    NotedAfter(run.log, Last(asked.log));
  }

  lemma {:induction false} CloseKeepsErrors(run: Run, seen: Seen, offline: bool, now: Time)
    requires ErrorsOk(run)
    ensures ErrorsOk(CloseRun(run, seen, offline, now).run)
  {
    NotedAfter(run.log, Transition(seen.status, Cancelled, Close, Operator, None, None));
  }

  lemma {:induction false} SteerKeepsErrors(run: Run, seen: Seen, pause: bool, offline: bool, reply: ControlReply,
                                            now: Time)
    requires ErrorsOk(run)
    ensures ErrorsOk(SteerRun(run, seen, pause, offline, reply, now).run)
  {
    var trigger := if pause then PauseRequest else ResumeRequest;
    var target := TryNextState(seen.status, trigger);
    if target.Some? {
      var w := PlainWrite(target.value, seen.status, trigger)
               .(reportHeaderId := Some(seen.headerId), acknowledged := Some(true));
      RequestsAreHeld(seen.status, trigger);
      if Applies(run, w) {
        WriteKeepsErrors(run, w, now);
      }
    }
  }

  lemma {:induction false} MoveKeepsErrors(before: Run, after: Run, trigger: RunTrigger, frame: Frame)
    requires ErrorsOk(before) && trigger == TriggerForReport(before.status, frame.exec)
    requires TryNextState(before.status, trigger) == Some(after.status)
    requires after.log == before.log + [ReportedRow(before.status, (after.status, trigger), frame.headerId)]
    requires after.failureErrors == if after.status == Failed then before.failureErrors + frame.errors else []
    ensures ErrorsOk(after)
  {
    TerminalIffNoExit(before.status);
    RobotTriggers(before.status, trigger);
    NotedAfter(before.log, Last(after.log));
  }

  lemma {:induction false} ReportKeepsErrors(run: Run, robotId: RobotId, frame: Frame, now: Time)
    requires ErrorsOk(run)
    ensures ErrorsOk(RecordRun(run, robotId, frame, now))
  {
    var after := RecordRun(run, robotId, frame, now);
    ReportLeaves(run, robotId, frame, now);
    if after.status != run.status {
      MoveKeepsErrors(run, after, TriggerForReport(run.status, frame.exec), frame);
    }
  }

  lemma {:induction false} SweepKeepsErrors(run: Run, read: Run, id: Uuid, sweep: Sweep)
    requires ErrorsOk(run)
    ensures ErrorsOk(SweepRun(run, read, id, sweep).run)
  {}

  lemma {:induction false} OnRunKeepsErrors(run: Run, e: Event)
    requires ErrorsOk(run) && !e.Prepared? && !e.ClaimStopped? && !e.DeleteAsked?
    ensures ErrorsOk(OnRun(run, e).run)
  {
    match e
    case DispatchSent(_) =>
    case ReplySettled(_, outcome, repliedAt, now) => SettleKeepsErrors(run, outcome, repliedAt, now);
    case CancelAsked(_, seen, mode, offline, reply, now) => CancelKeepsErrors(run, seen, mode, offline, reply, now);
    case CloseAsked(_, seen, offline, now) => CloseKeepsErrors(run, seen, offline, now);
    case SteerAsked(_, seen, pause, offline, reply, now) => SteerKeepsErrors(run, seen, pause, offline, reply, now);
    case FrameArrived(_, robotId, frame, now) => ReportKeepsErrors(run, robotId, frame, now);
    case SweptOne(id, read, sweep) => SweepKeepsErrors(run, read, id, sweep);
  }

  // ---------- When things happened ----------

  function TimeOf(e: Event): Time
    requires !e.Prepared? && !e.ClaimStopped? && !e.DeleteAsked? && !e.DispatchSent?
  {
    if e.SweptOne? then e.sweep.now else e.now
  }

  // The reply says the robot has the run, or comes when something else already did.
  predicate TellsDispatch(run: Run, e: Event) {
    e.ReplySettled? && (e.outcome == Accepted || (e.outcome != Declined && run.status != Pending))
  }

  predicate TellsProgress(run: Run, e: Event) {
    e.FrameArrived? && e.robotId == run.robotId && !IsTerminal(run.status)
  }

  // Each time is set by the event it is the time of, once, and by nothing else; the last report is that of
  // the last frame taken in while the run was live.
  ghost predicate TimesFollow(run: Run, e: Event, after: Run)
    requires !e.Prepared? && !e.ClaimStopped? && !e.DeleteAsked?
  {
    && after.createdAt == run.createdAt
    && after.dispatchedAt == (if TellsDispatch(run, e) && run.dispatchedAt.None? then Some(e.repliedAt) else run.dispatchedAt)
    && after.startedAt == (if after.status == Running && run.status != Running && run.startedAt.None? && !e.DispatchSent?
                           then Some(TimeOf(e)) else run.startedAt)
    && after.endedAt == (if IsTerminal(after.status) && !IsTerminal(run.status) && !e.DispatchSent?
                         then Some(TimeOf(e)) else run.endedAt)
    && after.lastReport == if TellsProgress(run, e)
                           then Some(LastReport(e.now, e.frame.headerId, e.frame.exec, e.frame.timestamp))
                           else run.lastReport
  }

  lemma {:induction false} CancelTimes(run: Run, e: Event)
    requires e.CancelAsked?
    ensures TimesFollow(run, e, OnRun(run, e).run)
  {
    CancelCases(run, e.seen, e.mode, e.offline, e.reply, e.now);
  }

  lemma {:induction false} SteerTimes(run: Run, e: Event)
    requires e.SteerAsked?
    ensures TimesFollow(run, e, OnRun(run, e).run)
  {}

  lemma {:induction false} SettleTimes(run: Run, e: Event)
    requires e.ReplySettled? && (run.status == Pending ==> run.dispatchedAt.None?)
    ensures TimesFollow(run, e, OnRun(run, e).run)
  {}

  lemma {:induction false} UnmovedTimes(run: Run, e: Event)
    requires e.FrameArrived? && (e.robotId != run.robotId || ReportTransition(run, e.frame).None?)
    ensures TimesFollow(run, e, OnRun(run, e).run)
  {}

  lemma {:induction false} MovedTimes(run: Run, e: Event)
    requires e.FrameArrived? && e.robotId == run.robotId && ReportTransition(run, e.frame).Some?
    ensures TimesFollow(run, e, OnRun(run, e).run)
  {
    ReportMoves(run, e.frame);
  }

  lemma {:induction false} ReportTimes(run: Run, e: Event)
    requires e.FrameArrived?
    ensures TimesFollow(run, e, OnRun(run, e).run)
  {
    if e.robotId == run.robotId && ReportTransition(run, e.frame).Some? {
      MovedTimes(run, e);
    } else {
      UnmovedTimes(run, e);
    }
  }

  lemma {:induction false} TimesAreTheEvents(run: Run, e: Event)
    requires !e.Prepared? && !e.ClaimStopped? && !e.DeleteAsked?
    requires run.status == Pending ==> run.dispatchedAt.None?
    ensures TimesFollow(run, e, OnRun(run, e).run)
  {
    match e
    case CancelAsked(_, _, _, _, _, _) => CancelTimes(run, e);
    case SteerAsked(_, _, _, _, _, _) => SteerTimes(run, e);
    case ReplySettled(_, _, _, _) => SettleTimes(run, e);
    case FrameArrived(_, _, _, _) => ReportTimes(run, e);
    case _ =>
  }

  // Ended if it has an end, dispatched if its robot took it, started if it ran, and none of them while pending.
  ghost predicate TimesOk(run: Run) {
    && (run.endedAt.Some? <==> IsTerminal(run.status))
    && (run.status == Pending ==> run.dispatchedAt.None? && run.startedAt.None?)
    && (run.status == Dispatched ==> run.dispatchedAt.Some?)
    && (run.status == Running ==> run.startedAt.Some?)
  }

  // Only an acceptance of a pending run makes it dispatched.
  lemma {:induction false} DispatchedByAcceptance(run: Run, e: Event)
    requires !e.Prepared? && !e.ClaimStopped? && !e.DeleteAsked?
    ensures OnRun(run, e).run.status == Dispatched ==>
              run.status == Dispatched || (run.status == Pending && e.ReplySettled? && e.outcome == Accepted)
  {
    match e
    case CancelAsked(_, seen, mode, offline, reply, now) => CancelCases(run, seen, mode, offline, reply, now);
    case FrameArrived(_, robotId, frame, now) =>
      RecordKeepsPlan(run, robotId, frame, now);
      ReportTable(run.status, frame.exec);
    case SteerAsked(_, seen, pause, _, _, _) =>
      assert TryNextState(seen.status, if pause then PauseRequest else ResumeRequest) != Some(Dispatched);
    case CloseAsked(_, seen, _, _) => assert TryNextState(seen.status, Close) != Some(Dispatched);
    case _ =>
  }

  lemma {:induction false} OnRunKeepsTimes(run: Run, e: Event)
    requires TimesOk(run) && !e.Prepared? && !e.ClaimStopped? && !e.DeleteAsked?
    ensures TimesOk(OnRun(run, e).run)
  {
    TimesAreTheEvents(run, e);
    DispatchedByAcceptance(run, e);
    OnRunMovesForward(run, e);
    assert e.DispatchSent? ==> OnRun(run, e).run == run;
    TimesStay(run, e, OnRun(run, e).run);
  }

  lemma {:induction false} TimesStay(run: Run, e: Event, after: Run)
    requires TimesOk(run) && !e.Prepared? && !e.ClaimStopped? && !e.DeleteAsked?
    requires TimesFollow(run, e, after) && Follows(run, after) && (e.DispatchSent? ==> after == run)
    requires after.status == Dispatched ==>
               run.status == Dispatched || (run.status == Pending && e.ReplySettled? && e.outcome == Accepted)
    requires after.status == Pending ==> !TellsDispatch(run, e)
    ensures TimesOk(after)
  {}

  // ---------- In every reachable world ----------

  ghost predicate AllFactsOk(w: World) {
    forall id :: id in w.runs ==> ErrorsOk(w.runs[id]) && TimesOk(w.runs[id])
  }

  lemma {:induction false} NextKeepsFacts(w: World, e: Event)
    requires AllFactsOk(w)
    ensures AllFactsOk(Next(w, e))
  {
    if !e.Prepared? && !e.ClaimStopped? && !e.DeleteAsked? && e.id in w.runs {
      OnRunKeepsErrors(w.runs[e.id], e);
      OnRunKeepsTimes(w.runs[e.id], e);
    }
  }

  lemma {:induction false} AfterKeepsFacts(w: World, events: seq<Event>)
    requires AllFactsOk(w)
    ensures AllFactsOk(After(w, events))
    decreases |events|
  {
    if events != [] {
      NextKeepsFacts(w, events[0]);
      AfterKeepsFacts(Next(w, events[0]), events[1..]);
    }
  }

  // In every reachable world: a run that succeeded or was cancelled by its robot has no errors, a rejected
  // one that of the rejection, one a report failed what was noted before and then the report's; one closed
  // by hand keeps what was noted, and one the backend gave up on the sweep's error, or what was noted if a
  // cancel ended it; and a live run has what was noted.
  lemma {:induction false} ErrorsTellTheirCause(events: seq<Event>, id: Uuid)
    requires id in After(EMPTY_WORLD, events).runs
    ensures ErrorsOk(After(EMPTY_WORLD, events).runs[id])
  {
    AfterKeepsFacts(EMPTY_WORLD, events);
  }

  // The dispatch went unconfirmed, and no report of the robot moved the run since.
  predicate StillUnconfirmed(log: seq<Transition>) {
    exists i :: 0 <= i < |log| && log[i].trigger == DispatchUnconfirmed
                && forall k :: i < k < |log| ==> log[k].actor != Robot
  }

  lemma {:induction false} NotedIff(log: seq<Transition>)
    requires forall i :: 0 <= i < |log| ==> log[i].actor == ActorOf(log[i].trigger)
    ensures Noted(log) == if StillUnconfirmed(log) then [DISPATCH_WARNING] else []
  {
    if log != [] {
      var earlier := log[..|log| - 1];
      NotedIff(earlier);
      if Last(log).trigger == DispatchUnconfirmed {
        assert log[|log| - 1].trigger == DispatchUnconfirmed;
      } else if Last(log).actor == Robot {
        assert log[|log| - 1].actor == Robot;
      } else {
        UnconfirmedEarlier(log);
      }
    }
  }

  lemma {:induction false} UnconfirmedEarlier(log: seq<Transition>)
    requires log != [] && Last(log).trigger != DispatchUnconfirmed && Last(log).actor != Robot
    ensures StillUnconfirmed(log) <==> StillUnconfirmed(log[..|log| - 1])
  {
    var earlier := log[..|log| - 1];
    if StillUnconfirmed(log) {
      var i :| 0 <= i < |log| && log[i].trigger == DispatchUnconfirmed && forall k :: i < k < |log| ==> log[k].actor != Robot;
      assert earlier[i].trigger == DispatchUnconfirmed;
    }
    if StillUnconfirmed(earlier) {
      var i :| 0 <= i < |earlier| && earlier[i].trigger == DispatchUnconfirmed
               && forall k :: i < k < |earlier| ==> earlier[k].actor != Robot;
      assert log[i].trigger == DispatchUnconfirmed;
    }
  }

  // A live run carries the dispatch warning, and then nothing else, if and only if its dispatch went
  // unconfirmed and no report has moved it since. So one that runs, is paused or succeeded has no errors.
  lemma {:induction false} WarningStandsIff(events: seq<Event>, id: Uuid)
    requires AllWellFormed(events) && id in After(EMPTY_WORLD, events).runs
    ensures var run := After(EMPTY_WORLD, events).runs[id];
            && (!IsTerminal(run.status) ==>
                  run.failureErrors == if StillUnconfirmed(run.log) then [DISPATCH_WARNING] else [])
            && (run.status in {Running, Paused, Succeeded} ==> run.failureErrors == [])
  {
    var run := After(EMPTY_WORLD, events).runs[id];
    ReachableOk(events);
    LogOkMeans(run.log, run.status);
    ErrorsTellTheirCause(events, id);
    NotedIff(run.log);
    if run.status in {Running, Paused, Succeeded} {
      ReportedStates(Last(run.log));
    }
  }

  // Only a report leads to running, paused or succeeded.
  lemma {:induction false} ReportedStates(row: Transition)
    requires Legal(row) && row.to in {Running, Paused, Succeeded}
    ensures row.actor == Robot
    ensures row.to == Succeeded ==> row.trigger == Complete
  {}

  // A report that fails a live run leaves the warning, if the dispatch was never confirmed, and the report's
  // own errors after it.
  lemma {:induction false} FailedRunHoldsReport(events: seq<Event>, id: Uuid, robotId: RobotId, frame: Frame, now: Time)
    requires AllWellFormed(events) && id in After(EMPTY_WORLD, events).runs
    requires var w := After(EMPTY_WORLD, events);
             !IsTerminal(w.runs[id].status) && w.runs[id].robotId == robotId && frame.exec == ExecFailed
    ensures var w := After(EMPTY_WORLD, events);
            var after := Next(w, FrameArrived(id, robotId, frame, now)).runs[id];
            && after.status == Failed
            && after.failureErrors == (if StillUnconfirmed(w.runs[id].log) then [DISPATCH_WARNING] else []) + frame.errors
  {
    var w := After(EMPTY_WORLD, events);
    var run := w.runs[id];
    WarningStandsIff(events, id);
    ReportSetsErrors(w, id, robotId, frame, now);
    FailingReport(run, frame, now);
  }

  lemma {:induction false} FailingReport(run: Run, frame: Frame, now: Time)
    requires !IsTerminal(run.status) && frame.exec == ExecFailed
    ensures RecordRun(run, run.robotId, frame, now).status == Failed
  {
    RobotTriggers(run.status, Fail);
    assert ReportTransition(run, frame) == Some((Failed, Fail));
  }

  // In every reachable world a run has ended exactly if it has an end time, was dispatched or started if its
  // status says so, and whatever happens to it next sets each time once and by the event it is the time of.
  lemma {:induction false} TimesTellStatus(events: seq<Event>, id: Uuid, e: Event)
    requires id in After(EMPTY_WORLD, events).runs && Touches(e, id)
    ensures var w := After(EMPTY_WORLD, events);
            TimesOk(w.runs[id]) && TimesFollow(w.runs[id], e, Next(w, e).runs[id])
  {
    AfterKeepsFacts(EMPTY_WORLD, events);
    TimesAreTheEvents(After(EMPTY_WORLD, events).runs[id], e);
  }
}
