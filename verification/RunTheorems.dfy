/** What holds of the run protocol in every reachable world, whatever its writers do and in what order. */
module RunTheorems {
  import opened Wrappers
  import opened Lifecycle
  import opened Mission
  import opened StageState
  import opened Runs
  import opened RunSteps
  import opened RunInvariants
  import opened RunWorld

  // ---------- The log ----------

  lemma {:induction false} ReachableOk(events: seq<Event>)
    requires AllWellFormed(events)
    ensures WorldOk(After(EMPTY_WORLD, events))
  {
    AfterKeepsOk(EMPTY_WORLD, events);
  }

  // In every reachable world each run's log is a chain of allowed rows from Pending to its status, no
  // row leaves a terminal status, and every confirmation of a pause or resume is a report strictly
  // newer than the request right before it.
  lemma {:induction false} EveryLogIsAPath(events: seq<Event>, id: Uuid)
    requires AllWellFormed(events) && id in After(EMPTY_WORLD, events).runs
    ensures var run := After(EMPTY_WORLD, events).runs[id];
            && LogIsPath(run.log, run.status)
            && (forall i :: 0 <= i < |run.log| ==> !IsTerminal(run.log[i].from))
            && ConfirmationsAreLater(run.log)
  {
    var run := After(EMPTY_WORLD, events).runs[id];
    ReachableOk(events);
    LogOkMeans(run.log, run.status);
    forall i | 0 <= i < |run.log| ensures !IsTerminal(run.log[i].from) {
      assert Legal(run.log[i]);
      TerminalIffNoExit(run.log[i].from);
    }
  }

  // While a run waits for a pause or resume, the newest row of its log is that request.
  lemma {:induction false} WaitingRunShowsItsRequest(events: seq<Event>, id: Uuid)
    requires AllWellFormed(events) && id in After(EMPTY_WORLD, events).runs
    requires After(EMPTY_WORLD, events).runs[id].status in {Pausing, Resuming}
    ensures var run := After(EMPTY_WORLD, events).runs[id];
            && run.log != []
            && Last(run.log).actor == Operator
            && Last(run.log).trigger == (if run.status == Pausing then PauseRequest else ResumeRequest)
            && Last(run.log).reportHeaderId.Some?
  {
    ReachableOk(events);
  }

  lemma {:induction false} ReportConfirms(read: Run, frame: Frame)
    requires read.status in {Pausing, Resuming}
    requires ReportTransition(read, frame).Some? && !IsTerminal(ReportTransition(read, frame).value.0)
    ensures var row := ReportedRow(read.status, ReportTransition(read, frame).value, frame.headerId);
            Legal(row) && IsConfirmation(row)
  {}

  lemma {:induction false} SafeIffNewer(log: seq<Transition>, row: Transition, after: Run)
    requires log != [] && LogOk(log, row.from) && IsConfirmation(row) && Legal(row) && row.reportHeaderId.Some?
    requires after.log == log + [row] && after.status == row.to
    ensures Last(log).reportHeaderId.Some?
    ensures LogOk(after.log, after.status) <==> row.reportHeaderId.value > Last(log).reportHeaderId.value
  {}

  // Without the row lock a report judged against an older read of a run in the same state would still
  // pass the compare-and-set; it keeps the log in order exactly when it is newer than the request now
  // pending.
  lemma {:induction false} StaleReadIsSafeIffNewer(read: Run, run: Run, robotId: RobotId, frame: Frame, now: Time)
    requires LogOk(run.log, run.status) && run.status in {Pausing, Resuming}
    requires read.robotId == robotId && read.status == run.status
    requires ReportTransition(read, frame).Some? && !IsTerminal(ReportTransition(read, frame).value.0)
    ensures Last(run.log).reportHeaderId.Some?
    ensures var after := RecordSeen(read, run, robotId, frame, now);
            LogOk(after.log, after.status) <==> frame.headerId > Last(run.log).reportHeaderId.value
  {
    var move := ReportTransition(read, frame).value;
    ReportConfirms(read, frame);
    SafeIffNewer(run.log, ReportedRow(run.status, move, frame.headerId), RecordSeen(read, run, robotId, frame, now));
  }

  // The run's log when it is paused at report 5, resumed, and paused again at report 9.
  ghost function FirstPauseLog(): seq<Transition> {
    [Transition(Pending, Dispatched, Accept, Backend, None, None)]
    + [Transition(Dispatched, Running, Ack, Robot, Some(4), None)]
    + [Transition(Running, Pausing, PauseRequest, Operator, Some(5), Some(true))]
  }

  ghost function SecondPauseLog(): seq<Transition> {
    FirstPauseLog()
    + [Transition(Pausing, Resuming, ResumeRequest, Operator, Some(5), Some(true))]
    + [Transition(Resuming, Pausing, PauseRequest, Operator, Some(9), Some(true))]
  }

  lemma {:induction false} FirstPauseLogOk()
    ensures LogOk(FirstPauseLog(), Pausing)
  {
    var dispatched := [Transition(Pending, Dispatched, Accept, Backend, None, None)];
    assert dispatched[..0] == [];
  }

  lemma {:induction false} SecondPauseLogOk()
    ensures LogOk(SecondPauseLog(), Pausing)
  {
    FirstPauseLogOk();
  }

  // The case the lock rules out: report 7, judged against the first pause, would confirm the second.
  lemma {:induction false} StaleReadConfirmsTooEarly(run: Run)
    requires run.status == Pausing && run.log == SecondPauseLog()
    ensures var after := RecordSeen(run.(log := FirstPauseLog()), run, run.robotId, Frame(7, 0, ExecPaused, [], []), 0);
            LogOk(run.log, run.status) && after.status == Paused && !LogOk(after.log, after.status)
  {
    SecondPauseLogOk();
    var frame, read := Frame(7, 0, ExecPaused, [], []), run.(log := FirstPauseLog());
    assert Last(FirstPauseLog()).reportHeaderId == Some(5);
    assert Last(run.log).reportHeaderId == Some(9);
    assert ReportTransition(read, frame) == Some((Paused, Pause));
    StaleReadIsSafeIffNewer(read, run, run.robotId, frame, 0);
  }

  // ---------- The stage rows ----------

  // A pending run has no stage rows; a run that ended has exactly one final row for each top-level
  // stage, at its place in the plan; and no row is outside the plan.
  lemma {:induction false} EveryEndedRunIsComplete(events: seq<Event>, id: Uuid)
    requires AllWellFormed(events) && id in After(EMPTY_WORLD, events).runs
    ensures var run := After(EMPTY_WORLD, events).runs[id];
            && (run.status == Pending ==> run.rows == map[])
            && (IsTerminal(run.status) ==> ViewComplete(run.rows, run.stages))
            && InPlan(run.rows, run.stages)
  {
    ReachableOk(events);
  }

  // ---------- What later events leave alone ----------

  predicate Touches(e: Event, id: Uuid) {
    !e.Prepared? && !e.ClaimStopped? && !e.DeleteAsked? && e.id == id
  }

  // An event about something else leaves a run as it is, or deletes it once over.
  lemma {:induction false} NextElsewhere(w: World, e: Event, id: Uuid)
    requires w.runs.Keys <= w.minted && id in w.runs && !Touches(e, id)
    ensures id in Next(w, e).runs ==> Next(w, e).runs[id] == w.runs[id]
    ensures id !in Next(w, e).runs ==> IsTerminal(w.runs[id].status)
    ensures w.minted <= Next(w, e).minted
  {}

  lemma {:induction false} NextFollows(w: World, e: Event, id: Uuid)
    requires WorldOk(w) && id in w.runs
    ensures id in Next(w, e).runs ==> Follows(w.runs[id], Next(w, e).runs[id])
    ensures id !in Next(w, e).runs ==> IsTerminal(w.runs[id].status)
    ensures w.minted <= Next(w, e).minted
  {
    if Touches(e, id) {
      OnRunFollows(w.runs[id], e);
    } else {
      NextElsewhere(w, e, id);
    }
  }

  // A run id is never used again.
  lemma {:induction false} GoneStaysGone(w: World, events: seq<Event>, id: Uuid)
    requires id in w.minted && id !in w.runs
    ensures id !in After(w, events).runs
    decreases |events|
  {
    if events != [] {
      GoneStaysGone(Next(w, events[0]), events[1..], id);
    }
  }

  lemma {:induction false} FollowsTogether(a: Run, b: Run, c: Run)
    requires Follows(a, b) && Follows(b, c)
    ensures Follows(a, c)
  {}

  // Whatever happens later, a run keeps its identity and its frozen plan, a cancel is not withdrawn,
  // and a run that ended keeps its status, its log and its stage rows until it is deleted.
  lemma {:induction false} RunsOnlyMoveForward(w: World, events: seq<Event>, id: Uuid)
    requires WorldOk(w) && AllWellFormed(events) && id in w.runs
    ensures id in After(w, events).runs ==> Follows(w.runs[id], After(w, events).runs[id])
    decreases |events|
  {
    if events != [] {
      var next := Next(w, events[0]);
      assert WellFormed(events[0]);
      NextKeepsOk(w, events[0]);
      NextFollows(w, events[0], id);
      if id in next.runs {
        RunsOnlyMoveForward(next, events[1..], id);
        if id in After(w, events).runs {
          FollowsTogether(w.runs[id], next.runs[id], After(w, events).runs[id]);
        }
      } else {
        GoneStaysGone(next, events[1..], id);
      }
    }
  }

  // ---------- Cancels ----------

  // A run whose log holds a cancel request is still cancelling, or over.
  lemma {:induction false} CancelRequestStands(log: seq<Transition>, status: RunStatus, i: nat)
    requires LogOk(log, status) && i < |log| && log[i].to == Cancelling
    ensures status == Cancelling || IsTerminal(status)
    decreases |log|
  {
    if i < |log| - 1 {
      CancelRequestStands(log[..|log| - 1], Last(log).from, i);
      if Last(log).from == Cancelling {
        CancellingOnlyEnds(Last(log).trigger);
      }
    }
  }

  // Settling a reply over a pending cancel ends the run as cancelled or sends the cancel again.
  lemma {:induction false} SettleAnswersCancel(run: Run, outcome: DispatchOutcome, repliedAt: Time, now: Time)
    requires run.status == Cancelling
    ensures var step := SettleRun(run, outcome, repliedAt, now);
            if outcome == Declined then step.run.status == Cancelled && step.sent == []
            else step.run.status == Cancelling && step.sent == [CancelOrder(Graceful)]
  {}

  // No pending cancel is lost across a dispatch: if the run is cancelling when the reply is settled, a
  // refusal ends it as cancelled and any other outcome sends the cancel to its robot again; from then on
  // it stays cancelling until it ends.
  lemma {:induction false} NoCancelIsLost(before: seq<Event>, reply: Event, later: seq<Event>, id: Uuid)
    requires AllWellFormed(before) && AllWellFormed(later)
    requires reply.ReplySettled? && reply.id == id
    requires var w := After(EMPTY_WORLD, before); id in w.runs && w.runs[id].status == Cancelling
    ensures var w := After(EMPTY_WORLD, before);
            var settled := Next(w, reply);
            && id in settled.runs
            && (if reply.outcome == Declined
                then settled.runs[id].status == Cancelled && settled.sent == w.sent
                else settled.runs[id].status == Cancelling
                     && settled.sent == w.sent + [Sent(id, w.runs[id].robotId, CancelOrder(Graceful))])
            && (id in After(settled, later).runs ==>
                  After(settled, later).runs[id].status == Cancelling || IsTerminal(After(settled, later).runs[id].status))
  {
    var w := After(EMPTY_WORLD, before);
    ReachableOk(before);
    ReplyAnswersCancel(w, reply);
    NextKeepsOk(w, reply);
    RunsOnlyMoveForward(Next(w, reply), later, id);
  }

  lemma {:induction false} ReplyAnswersCancel(w: World, reply: Event)
    requires reply.ReplySettled? && reply.id in w.runs && w.runs[reply.id].status == Cancelling
    ensures var settled := Next(w, reply);
            && reply.id in settled.runs
            && (if reply.outcome == Declined
                then settled.runs[reply.id].status == Cancelled && settled.sent == w.sent
                else settled.runs[reply.id].status == Cancelling
                     && settled.sent == w.sent + [Sent(reply.id, w.runs[reply.id].robotId, CancelOrder(Graceful))])
  {
    SettleAnswersCancel(w.runs[reply.id], reply.outcome, reply.repliedAt, reply.now);
  }

  // A run with a cancel on record is cancelling or over, and the reply's arrival tells the robot again if
  // and only if it is still cancelling and the robot did not refuse the dispatch. One already over keeps
  // its status and the robot is not told, even when it accepted.
  lemma {:induction false} RecordedCancelToldIff(before: seq<Event>, reply: Event, id: Uuid, i: nat)
    requires AllWellFormed(before) && reply.ReplySettled? && reply.id == id
    requires var w := After(EMPTY_WORLD, before);
             id in w.runs && i < |w.runs[id].log| && w.runs[id].log[i].trigger == CancelRequest
    ensures var w := After(EMPTY_WORLD, before);
            var run, settled := w.runs[id], Next(w, reply);
            && (run.status == Cancelling || IsTerminal(run.status))
            && (settled.sent == w.sent + [Sent(id, run.robotId, CancelOrder(Graceful))] <==>
                run.status == Cancelling && reply.outcome != Declined)
            && (IsTerminal(run.status) ==> settled.sent == w.sent && settled.runs[id].status == run.status)
  {
    var w := After(EMPTY_WORLD, before);
    var run := w.runs[id];
    ReachableOk(before);
    LogOkMeans(run.log, run.status);
    assert Legal(run.log[i]);
    RequestsAreHeld(run.log[i].from, CancelRequest);
    CancelRequestStands(run.log, run.status, i);
    SettleTellsIff(run, reply.outcome, reply.repliedAt, reply.now);
    assert Tagged(id, run.robotId, []) == [];
  }

  // The reply sends a cancel exactly over a cancelling run the robot did not refuse.
  lemma {:induction false} SettleTellsIff(run: Run, outcome: DispatchOutcome, repliedAt: Time, now: Time)
    ensures var step := SettleRun(run, outcome, repliedAt, now);
            && step.sent == (if run.status == Cancelling && outcome != Declined then [CancelOrder(Graceful)] else [])
            && (IsTerminal(run.status) ==> step.run.status == run.status)
  {}

  // A recorded cancel ends a live run at once exactly when the robot, reached, says it does not hold the
  // run and the dispatch was not still waiting when the cancel was asked.
  predicate EndsAtOnce(status: RunStatus, offline: bool, reply: ControlReply) {
    !offline && reply == Refused(Some(NotExecutingRun)) && status != Pending
  }

  lemma {:induction false} CancelEndsAtOnceIff(run: Run, seen: Seen, mode: CancelMode, offline: bool,
                                               reply: ControlReply, now: Time)
    requires !IsTerminal(run.status) && seen.status == run.status
    ensures var after := CancelRun(run, seen, mode, offline, reply, now).run;
            after.status == if EndsAtOnce(run.status, offline, reply) then Cancelled else Cancelling
  {
    TerminalIffNoExit(run.status);
    assert TryNextState(run.status, CancelRequest) == Some(Cancelling);
  }

  // One cancel an operator asks for, and how it went.
  datatype Ask = Ask(mode: CancelMode, offline: bool, reply: ControlReply, now: Time)

  function CancelAll(run: Run, asks: seq<Ask>): Run
    decreases |asks|
  {
    if asks == [] then run
    else
      var ask := asks[0];
      CancelAll(CancelRun(run, SeenOf(run), ask.mode, ask.offline, ask.reply, ask.now).run, asks[1..])
  }

  predicate AnyEnds(asks: seq<Ask>) {
    exists i :: 0 <= i < |asks| && EndsAtOnce(Cancelling, asks[i].offline, asks[i].reply)
  }

  lemma {:induction false} CancelAllEnds(run: Run, asks: seq<Ask>)
    requires run.status in {Cancelling, Cancelled}
    ensures CancelAll(run, asks).status == if run.status == Cancelling && !AnyEnds(asks) then Cancelling else Cancelled
    decreases |asks|
  {
    if asks != [] {
      var ask, rest := asks[0], asks[1..];
      var next := CancelRun(run, SeenOf(run), ask.mode, ask.offline, ask.reply, ask.now).run;
      if run.status == Cancelling {
        CancelEndsAtOnceIff(run, SeenOf(run), ask.mode, ask.offline, ask.reply, ask.now);
      }
      CancelAllEnds(next, rest);
      AnyEndsOfCons(asks);
    }
  }

  lemma {:induction false} AnyEndsOfCons(asks: seq<Ask>)
    requires asks != []
    ensures AnyEnds(asks) <==> EndsAtOnce(Cancelling, asks[0].offline, asks[0].reply) || AnyEnds(asks[1..])
  {
    if i :| 0 <= i < |asks| && EndsAtOnce(Cancelling, asks[i].offline, asks[i].reply) {
      assert i > 0 ==> asks[1..][i - 1] == asks[i];
    }
    if i :| 0 <= i < |asks[1..]| && EndsAtOnce(Cancelling, asks[1..][i].offline, asks[1..][i].reply) {
      assert asks[i + 1] == asks[1..][i];
    }
  }

  // Cancels asked before the robot accepts a pending run reach it after its acceptance if and only if no
  // cancel after the first was answered that the robot does not hold the run.
  lemma {:induction false} AcceptedAfterCancelsToldIff(run: Run, asks: seq<Ask>, repliedAt: Time, now: Time)
    requires run.status == Pending && asks != []
    ensures var step := SettleRun(CancelAll(run, asks), Accepted, repliedAt, now);
            && (step.sent == [CancelOrder(Graceful)] <==> !AnyEnds(asks[1..]))
            && (AnyEnds(asks[1..]) ==> step.sent == [] && step.run.status == Cancelled)
  {
    var ask := asks[0];
    CancelEndsAtOnceIff(run, SeenOf(run), ask.mode, ask.offline, ask.reply, ask.now);
    CancelAllEnds(CancelRun(run, SeenOf(run), ask.mode, ask.offline, ask.reply, ask.now).run, asks[1..]);
    SettleTellsIff(CancelAll(run, asks), Accepted, repliedAt, now);
  }

  // The case where the robot drives on untold: two cancels before the reply, each answered that the robot
  // does not hold the run yet, and then the robot accepts it.
  lemma {:induction false} SecondCancelIsLost(run: Run, now: Time)
    requires run.status == Pending && run.dispatchedAt.None?
    ensures var refused := Ask(Graceful, false, Refused(Some(NotExecutingRun)), now);
            var step := SettleRun(CancelAll(run, [refused, refused]), Accepted, now, now);
            step.sent == [] && step.run.status == Cancelled && step.run.dispatchedAt == Some(now)
  {
    var refused := Ask(Graceful, false, Refused(Some(NotExecutingRun)), now);
    var asks := [refused, refused];
    assert EndsAtOnce(Cancelling, asks[1..][0].offline, asks[1..][0].reply);
    AcceptedAfterCancelsToldIff(run, asks, now, now);
    CancelAllKeepsDispatch(run, asks);
  }

  lemma {:induction false} CancelAllKeepsDispatch(run: Run, asks: seq<Ask>)
    ensures CancelAll(run, asks).dispatchedAt == run.dispatchedAt
    decreases |asks|
  {
    if asks != [] {
      var ask := asks[0];
      CancelCases(run, SeenOf(run), ask.mode, ask.offline, ask.reply, ask.now);
      CancelAllKeepsDispatch(CancelRun(run, SeenOf(run), ask.mode, ask.offline, ask.reply, ask.now).run, asks[1..]);
    }
  }

  // ---------- One run per robot, and per mission ----------

  // Only the insert checks the robot, yet no two active runs ever share one.
  lemma {:induction false} OneActiveRunPerRobot(events: seq<Event>)
    requires AllWellFormed(events)
    ensures OneActivePerRobot(After(EMPTY_WORLD, events).runs)
  {
    ReachableOk(events);
  }

  ghost predicate OneActivePerMission(runs: RunTable) {
    forall a, b :: (&& a in runs && b in runs
                    && IsActive(runs[a].status) && IsActive(runs[b].status)
                    && runs[a].missionId == runs[b].missionId) ==> a == b
  }

  predicate NeverConcurrent(events: seq<Event>) {
    forall i :: 0 <= i < |events| && events[i].Prepared? ==> !events[i].request.allowConcurrent
  }

  lemma {:induction false} ReplacingKeepsMissionsSerial(runs: RunTable, id: Uuid, run: Run)
    requires OneActivePerMission(runs) && id in runs && Follows(runs[id], run)
    ensures OneActivePerMission(runs[id := run])
  {}

  lemma {:induction false} NextKeepsMissionsSerial(w: World, e: Event)
    requires WorldOk(w) && OneActivePerMission(w.runs)
    requires e.Prepared? ==> !e.request.allowConcurrent
    ensures OneActivePerMission(Next(w, e).runs)
  {
    if !e.Prepared? && !e.ClaimStopped? && !e.DeleteAsked? && e.id in w.runs {
      OnRunFollows(w.runs[e.id], e);
      ReplacingKeepsMissionsSerial(w.runs, e.id, OnRun(w.runs[e.id], e).run);
    }
  }

  // Unless a start asks for it, a mission never has two active runs.
  lemma {:induction false} MissionsRunOnceAtATime(w: World, events: seq<Event>)
    requires WorldOk(w) && AllWellFormed(events) && NeverConcurrent(events)
    requires OneActivePerMission(w.runs)
    ensures OneActivePerMission(After(w, events).runs)
    decreases |events|
  {
    if events != [] {
      assert WellFormed(events[0]);
      NextKeepsOk(w, events[0]);
      NextKeepsMissionsSerial(w, events[0]);
      MissionsRunOnceAtATime(Next(w, events[0]), events[1..]);
    }
  }
}
