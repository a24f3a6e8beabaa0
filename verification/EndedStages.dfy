/**
 How a run that ended shows its stages: each top-level stage by the last the robot said of it and the way
 the run ended, over every history of the protocol.
 */
module EndedStages {
  import opened Wrappers
  import opened Lifecycle
  import opened Mission
  import opened StageState
  import opened Runs
  import opened RunSteps
  import opened RunInvariants
  import opened RunWorld
  import opened RunTheorems
  import opened RunFacts
  import opened StageMerge

  // ---------- Closing a stage out ----------

  // What a stage comes to: what it ended on stays, what was under way shares the run's fate, and what never
  // began is skipped; a run that succeeded finished all but what was cancelled or skipped.
  predicate EndsAs(was: StageStatus, run: RunStatus, ends: StageStatus) {
    match was
    case Finished => ends == Finished
    case StageCancelled => ends == StageCancelled
    case Skipped => ends == Skipped
    case Waiting => ends == if run == Succeeded then Finished else Skipped
    case StageFailed => ends == if run == Succeeded then Finished else StageFailed
    case _ => ends == if run == Succeeded then Finished else if run == Cancelled then StageCancelled else StageFailed
  }

  // The row of a stage closed out over what was last said of it. Only the status is judged, all else is as
  // it was said; a stage that began has an end, and the robot is named where the status is its own.
  ghost predicate ClosedOut(said: Option<StageRecord>, run: RunStatus, now: Time, row: StageRecord) {
    && EndsAs(if said.Some? then said.value.status else Waiting, run, row.status)
    && row.parent.None? && row.sourceTs == now
    && (said.None? ==> row.headerId == 0 && row.progress == 0.0 && row.startedAt.None? && row.endedAt.None?
                       && row.result.None? && row.source == ByBackend)
    && (said.Some? ==>
          && row.headerId == said.value.headerId && row.progress == said.value.progress
          && row.startedAt == said.value.startedAt && row.result == said.value.result
          && row.source == (if row.status == said.value.status then said.value.source else ByBackend)
          && row.endedAt == if said.value.endedAt.None? && said.value.startedAt.Some? && row.status != Skipped
                            then Some(now) else said.value.endedAt)
  }

  lemma {:induction false} ClosedOutRecord(stage: Stage, i: nat, said: Option<StageRecord>, run: RunStatus, now: Time)
    ensures var row := FinalRecord(stage, i, said, run, now);
            row.stageId == stage.stageId && row.stageIndex == i && ClosedOut(said, run, now, row)
  {}

  lemma {:induction false} ClosedOutRows(stages: seq<Stage>, live: Rows, run: RunStatus, now: Time, i: nat)
    requires DistinctIds(stages) && InPlan(live, stages) && i < |stages|
    ensures var id, final := stages[i].stageId, FinalRows(stages, live, run, now);
            id in final && final[id].stageIndex == i && ClosedOut(LiveAt(live, id), run, now, final[id])
  {
    FinalRowsResolve(stages, live, run, now);
    ClosedOutRecord(stages[i], i, LiveAt(live, stages[i].stageId), run, now);
  }

  // ---------- The event that ends a run ----------

  // What the ending event itself says of the stages: the robot's report, or nothing.
  function SaidBy(run: Run, e: Event): Rows {
    if e.FrameArrived? && e.robotId == run.robotId then RowsOf(LiveRecords(e.frame, run.stages)) else map[]
  }

  ghost predicate Ends(run: Run, e: Event)
    requires !e.Prepared? && !e.ClaimStopped? && !e.DeleteAsked?
  {
    !IsTerminal(run.status) && IsTerminal(OnRun(run, e).run.status)
  }

  ghost predicate EndsWith(run: Run, e: Event, rows: Rows)
    requires !e.Prepared? && !e.ClaimStopped? && !e.DeleteAsked? && !e.DispatchSent?
  {
    rows == FinalRows(run.stages, run.rows + SaidBy(run, e), OnRun(run, e).run.status, TimeOf(e))
  }

  lemma {:induction false} SettlingRows(run: Run, w: StatusWrite, overlay: Rows, now: Time)
    requires RowsOk(run) && InPlan(overlay, run.stages) && IsTerminal(w.to)
    ensures Settled(Written(run, w, now), overlay, now).rows == FinalRows(run.stages, run.rows + overlay, w.to, now)
  {
    SettleKeepsRows(Written(run, w, now), overlay, now);
  }

  lemma {:induction false} OnlyOutcomeEnds(run: Run, robotId: RobotId, frame: Frame, now: Time)
    requires !IsTerminal(run.status) && IsTerminal(RecordRun(run, robotId, frame, now).status)
    ensures robotId == run.robotId && ReportTransition(run, frame).Some?
    ensures RecordRun(run, robotId, frame, now) ==
            Settled(Written(Touched(run, frame, now), ReportWrite(run, frame, ReportTransition(run, frame).value), now),
                    RowsOf(LiveRecords(frame, run.stages)), now)
  {}

  lemma {:induction false} FrameEnds(run: Run, e: Event)
    requires RunOk(run) && e.FrameArrived? && Ends(run, e)
    ensures EndsWith(run, e, OnRun(run, e).run.rows)
  {
    var live := LiveRecords(e.frame, run.stages);
    OnlyOutcomeEnds(run, e.robotId, e.frame, e.now);
    LiveInPlan(e.frame, run.stages, |e.frame.stageStates|);
    RowsOfInPlan(live, run.stages);
    SettlingRows(Touched(run, e.frame, e.now), ReportWrite(run, e.frame, ReportTransition(run, e.frame).value), RowsOf(live), e.now);
  }

  lemma {:induction false} CancelEnds(run: Run, e: Event)
    requires RunOk(run) && e.CancelAsked? && Ends(run, e)
    ensures EndsWith(run, e, OnRun(run, e).run.rows)
  {
    var asked := Acknowledged(Written(run, CancelWrite(e.seen), e.now), false);
    CancelCases(run, e.seen, e.mode, e.offline, e.reply, e.now);
    SettlingRows(asked, PlainWrite(Cancelled, Cancelling, Reconcile), map[], e.now);
  }

  function RejectWrite(status: RunStatus): StatusWrite {
    PlainWrite(if status == Cancelling then Cancelled else Rejected, status, Reject).(errors := Some([DISPATCH_REJECTED]))
  }

  lemma {:induction false} OnlyRefusalEnds(run: Run, outcome: DispatchOutcome, repliedAt: Time, now: Time)
    requires !IsTerminal(run.status) && IsTerminal(SettleRun(run, outcome, repliedAt, now).run.status)
    ensures SettleRun(run, outcome, repliedAt, now).run == Settled(Written(run, RejectWrite(run.status), now), map[], now)
  {}

  lemma {:induction false} SettleEnds(run: Run, e: Event)
    requires RunOk(run) && e.ReplySettled? && Ends(run, e)
    ensures EndsWith(run, e, OnRun(run, e).run.rows)
  {
    OnlyRefusalEnds(run, e.outcome, e.repliedAt, e.now);
    SettlingRows(run, RejectWrite(run.status), map[], e.now);
  }

  lemma {:induction false} SteerNeverEnds(run: Run, seen: Seen, pause: bool, offline: bool, reply: ControlReply,
                                          now: Time)
    ensures IsTerminal(SteerRun(run, seen, pause, offline, reply, now).run.status) ==> IsTerminal(run.status)
  {
    var target := TryNextState(seen.status, if pause then PauseRequest else ResumeRequest);
    assert target in {None, Some(Pausing), Some(Resuming)};
  }

  lemma {:induction false} ClosingSettles(run: Run, seen: Seen, offline: bool, now: Time)
    requires !IsTerminal(run.status) && IsTerminal(CloseRun(run, seen, offline, now).run.status)
    ensures CloseRun(run, seen, offline, now).run ==
            Settled(Written(run, PlainWrite(Cancelled, run.status, Close), now), map[], now)
  {}

  lemma {:induction false} CloseEnds(run: Run, e: Event)
    requires RunOk(run) && e.CloseAsked? && Ends(run, e)
    ensures EndsWith(run, e, OnRun(run, e).run.rows)
  {
    ClosingSettles(run, e.seen, e.offline, e.now);
    SettlingRows(run, PlainWrite(Cancelled, run.status, Close), map[], e.now);
  }

  lemma {:induction false} SweepingEnds(run: Run, e: Event)
    requires RunOk(run) && e.SweptOne? && Ends(run, e)
    ensures EndsWith(run, e, OnRun(run, e).run.rows)
  {
    SettlingRows(run, SweepWrite(e.read), map[], e.sweep.now);
  }

  // Whatever ends a run, its rows are the rows so far under what the ending report says, closed out.
  lemma {:induction false} EndingRows(run: Run, e: Event)
    requires RunOk(run) && !e.Prepared? && !e.ClaimStopped? && !e.DeleteAsked? && Ends(run, e)
    ensures !e.DispatchSent? && EndsWith(run, e, OnRun(run, e).run.rows)
  {
    match e
    case ReplySettled(_, _, _, _) => SettleEnds(run, e);
    case CancelAsked(_, _, _, _, _, _) => CancelEnds(run, e);
    case CloseAsked(_, _, _, _) => CloseEnds(run, e);
    case FrameArrived(_, _, _, _) => FrameEnds(run, e);
    case SweptOne(_, _, _) => SweepingEnds(run, e);
    case SteerAsked(_, seen, pause, offline, reply, now) => SteerNeverEnds(run, seen, pause, offline, reply, now);
  }

  // ---------- What the robot said last ----------

  // The record says of its stage what one of the frame's reports says, at the frame's counter and time.
  ghost predicate SaidIn(frame: Frame, id: Uuid, record: StageRecord) {
    && record.stageId == id && record.source == ByRobot
    && record.headerId == frame.headerId && record.sourceTs == frame.timestamp
    && exists i :: 0 <= i < |frame.stageStates| && frame.stageStates[i] ==
         StageReport(id, record.status, record.progress, record.startedAt, record.endedAt, record.result)
  }

  lemma {:induction false} LiveIsSaid(frame: Frame, places: map<Uuid, PlanPlace>, n: nat, r: StageRecord)
    requires n <= |frame.stageStates| && r in LiveUpTo(frame, places, n)
    ensures SaidIn(frame, r.stageId, r)
  {
    var report := frame.stageStates[n - 1];
    if report.stageId in places && r == LiveRecord(frame, report, places[report.stageId]) {
      assert frame.stageStates[n - 1] ==
             StageReport(r.stageId, r.status, r.progress, r.startedAt, r.endedAt, r.result);
    } else {
      LiveIsSaid(frame, places, n - 1, r);
    }
  }

  lemma {:induction false} RecordIsSaid(frame: Frame, places: map<Uuid, PlanPlace>, id: Uuid, n: nat)
    requires n <= |frame.stageStates| && RecordUpTo(frame, places, id, n).Some?
    ensures SaidIn(frame, id, RecordUpTo(frame, places, id, n).value)
  {
    var record := RecordUpTo(frame, places, id, n);
    if RecordUpTo(frame, places, id, n - 1).Some? {
      RecordIsSaid(frame, places, id, n - 1);
    } else {
      assert frame.stageStates[n - 1] == StageReport(id, record.value.status, record.value.progress,
                                                     record.value.startedAt, record.value.endedAt, record.value.result);
    }
  }

  lemma {:induction false} RowsOfSay(records: seq<StageRecord>, id: Uuid)
    requires id in RowsOf(records)
    ensures RowsOf(records)[id] in records && RowsOf(records)[id].stageId == id
  {
    if Last(records).stageId != id {
      RowsOfSay(records[..|records| - 1], id);
    }
  }

  // The last word on a stage is what the report that ends the run says of it, or else the newest of what
  // the frames before it said; no word if none named it.
  ghost predicate IsLastWord(said: Option<StageRecord>, frames: seq<Frame>, run: Run, e: Event, id: Uuid) {
    if id in SaidBy(run, e) then said.Some? && SaidIn(e.frame, id, said.value)
    else
      && (said.Some? ==> exists i :: 0 <= i < |frames| && SaidIn(frames[i], id, said.value))
      && IsNewest(None, frames, run.stages, id, said)
  }

  lemma {:induction false} LastWordIs(frames: seq<Frame>, run: Run, e: Event, id: Uuid)
    requires run.rows == Merged(map[], frames, run.stages)
    ensures IsLastWord(LiveAt(run.rows + SaidBy(run, e), id), frames, run, e, id)
  {
    var said := LiveAt(run.rows + SaidBy(run, e), id);
    if id in SaidBy(run, e) {
      var live := LiveRecords(e.frame, run.stages);
      RowsOfSay(live, id);
      LiveIsSaid(e.frame, Places(run.stages), |e.frame.stageStates|, said.value);
    } else {
      LastWriterWins(map[], frames, run.stages, id);
      if said.Some? {
        var i :| 0 <= i < |frames| && RecordFor(frames[i], run.stages, id) == said;
        RecordIsSaid(frames[i], Places(run.stages), id, |frames[i].stageStates|);
      }
    }
  }

  // ---------- Over every history ----------

  // The event at k ended the run as it now stands.
  ghost predicate EndedAt(w: World, events: seq<Event>, id: Uuid, k: nat) {
    && k < |events| && Touches(events[k], id) && id in After(w, events[..k]).runs && id in After(w, events).runs
    && var run, ended := After(w, events[..k]).runs[id], After(w, events).runs[id];
       && Ends(run, events[k])
       && ended == OnRun(run, events[k]).run.(dispatchedAt := ended.dispatchedAt)
  }

  lemma {:induction false} EndingNow(w: World, e: Event, id: Uuid)
    requires WorldOk(w) && id in Next(w, e).runs && IsTerminal(Next(w, e).runs[id].status)
    requires id in w.runs ==> !IsTerminal(w.runs[id].status)
    ensures Touches(e, id) && id in w.runs && Ends(w.runs[id], e) && Next(w, e).runs[id] == OnRun(w.runs[id], e).run
  {
    if id in w.runs && !Touches(e, id) {
      NextElsewhere(w, e, id);
    }
  }

  lemma {:induction false} EndedLater(w: World, events: seq<Event>, id: Uuid, k: nat)
    requires events != [] && EndedAt(Next(w, events[0]), events[1..], id, k)
    ensures EndedAt(w, events, id, k + 1)
  {
    assert events[..k + 1][0] == events[0] && events[..k + 1][1..] == events[1..][..k];
  }

  lemma {:induction false} EndedFirst(w: World, events: seq<Event>, id: Uuid)
    requires WorldOk(w) && AllWellFormed(events) && events != []
    requires var next := Next(w, events[0]); id in next.runs && IsTerminal(next.runs[id].status)
    requires id in w.runs ==> !IsTerminal(w.runs[id].status)
    requires id in After(w, events).runs
    ensures EndedAt(w, events, id, 0)
  {
    assert WellFormed(events[0]);
    EndingNow(w, events[0], id);
    NextKeepsOk(w, events[0]);
    RunsOnlyMoveForward(Next(w, events[0]), events[1..], id);
    assert events[..0] == [];
  }

  // A run that ended was ended by one event, and stands as that event left it.
  lemma {:induction false} EndingEvent(w: World, events: seq<Event>, id: Uuid) returns (k: nat)
    requires WorldOk(w) && AllWellFormed(events)
    requires id in After(w, events).runs && IsTerminal(After(w, events).runs[id].status)
    requires id in w.runs ==> !IsTerminal(w.runs[id].status)
    ensures EndedAt(w, events, id, k)
    decreases |events|
  {
    var next, rest := Next(w, events[0]), events[1..];
    assert WellFormed(events[0]);
    NextKeepsOk(w, events[0]);
    if id in next.runs && IsTerminal(next.runs[id].status) {
      EndedFirst(w, events, id);
      k := 0;
    } else {
      k := EndingEvent(next, rest, id);
      EndedLater(w, events, id, k);
      k := k + 1;
    }
  }

  // Over every history: each top-level stage of a run that ended has its row, closed out by the way the run
  // ended over the last word the robot had on the stage.
  lemma {:induction false} EveryEndedStage(events: seq<Event>, id: Uuid, i: nat)
    returns (k: nat, said: Option<StageRecord>)
    requires AllWellFormed(events) && id in After(EMPTY_WORLD, events).runs
    requires IsTerminal(After(EMPTY_WORLD, events).runs[id].status) && i < |After(EMPTY_WORLD, events).runs[id].stages|
    ensures EndedAt(EMPTY_WORLD, events, id, k)
    ensures var run, ended := After(EMPTY_WORLD, events[..k]).runs[id], After(EMPTY_WORLD, events).runs[id];
            var stage := ended.stages[i].stageId;
            && !events[k].DispatchSent?
            && IsLastWord(said, FramesFor(EMPTY_WORLD, events[..k], id), run, events[k], stage)
            && stage in ended.rows && ended.rows[stage].stageIndex == i
            && ClosedOut(said, ended.status, TimeOf(events[k]), ended.rows[stage])
  {
    k := EndingEvent(EMPTY_WORLD, events, id);
    var before, e := events[..k], events[k];
    var w := After(EMPTY_WORLD, before);
    var run := w.runs[id];
    assert AllWellFormed(before);
    ReachableOk(before);
    EndingRows(run, e);
    OnRunMovesForward(run, e);
    LiveRowsAreMerged(EMPTY_WORLD, before, id);
    var live := run.rows + SaidBy(run, e);
    said := LiveAt(live, run.stages[i].stageId);
    LastWordIs(FramesFor(EMPTY_WORLD, before, id), run, e, run.stages[i].stageId);
    SaidInPlan(run, e);
    ClosedOutRows(run.stages, live, OnRun(run, e).run.status, TimeOf(e), i);
  }

  lemma {:induction false} SaidInPlan(run: Run, e: Event)
    requires InPlan(run.rows, run.stages)
    ensures InPlan(run.rows + SaidBy(run, e), run.stages)
  {
    if e.FrameArrived? {
      LiveInPlan(e.frame, run.stages, |e.frame.stageStates|);
      RowsOfInPlan(LiveRecords(e.frame, run.stages), run.stages);
    }
  }

  lemma {:induction false} FrameCame(w: World, events: seq<Event>, id: Uuid)
    requires WorldOk(w) && AllWellFormed(events) && events != [] && Merges(w, events[0], id)
    requires id in After(w, events).runs
    ensures events[0].FrameArrived? && events[0].id == id && events[0].robotId == After(w, events).runs[id].robotId
  {
    RunsOnlyMoveForward(w, events, id);
  }

  predicate Brings(e: Event, id: Uuid, robotId: RobotId, frame: Frame) {
    e.FrameArrived? && e.id == id && e.robotId == robotId && e.frame == frame
  }

  ghost predicate CameIn(events: seq<Event>, id: Uuid, robotId: RobotId, frame: Frame) {
    exists k :: 0 <= k < |events| && Brings(events[k], id, robotId, frame)
  }

  lemma {:induction false} CameLater(events: seq<Event>, id: Uuid, robotId: RobotId, frame: Frame)
    requires events != [] && CameIn(events[1..], id, robotId, frame)
    ensures CameIn(events, id, robotId, frame)
  {
    var k :| 0 <= k < |events[1..]| && Brings(events[1..][k], id, robotId, frame);
    assert Brings(events[k + 1], id, robotId, frame);
  }

  lemma {:induction false} NowOrLater(w: World, events: seq<Event>, id: Uuid, frame: Frame)
    requires frame in FramesFor(w, events, id)
    ensures events != []
    ensures (Merges(w, events[0], id) && frame == events[0].frame)
            || frame in FramesFor(Next(w, events[0]), events[1..], id)
  {}

  // The frames recorded for a run came from its robot.
  lemma {:induction false} FramesCameIn(w: World, events: seq<Event>, id: Uuid, frame: Frame)
    requires WorldOk(w) && AllWellFormed(events) && id in After(w, events).runs && frame in FramesFor(w, events, id)
    ensures CameIn(events, id, After(w, events).runs[id].robotId, frame)
    decreases |events|
  {
    NowOrLater(w, events, id, frame);
    if Merges(w, events[0], id) && frame == events[0].frame {
      FrameCame(w, events, id);
      assert Brings(events[0], id, After(w, events).runs[id].robotId, frame);
    } else {
      assert WellFormed(events[0]);
      NextKeepsOk(w, events[0]);
      FramesCameIn(Next(w, events[0]), events[1..], id, frame);
      CameLater(events, id, After(w, events).runs[id].robotId, frame);
    }
  }

  // A report of the history, by the run's robot, says this of the stage.
  ghost predicate Reported(events: seq<Event>, id: Uuid, robotId: RobotId, stage: Uuid, status: StageStatus) {
    exists k, n :: 0 <= k < |events| && ReportsAs(events[k], id, robotId, stage, status, n)
  }

  predicate ReportsAs(e: Event, id: Uuid, robotId: RobotId, stage: Uuid, status: StageStatus, n: int) {
    && e.FrameArrived? && e.id == id && e.robotId == robotId
    && 0 <= n < |e.frame.stageStates|
    && e.frame.stageStates[n].stageId == stage && e.frame.stageStates[n].status == status
  }

  lemma {:induction false} SaidIsReported(events: seq<Event>, id: Uuid, robotId: RobotId, frame: Frame, stage: Uuid,
                                          record: StageRecord)
    requires SaidIn(frame, stage, record) && CameIn(events, id, robotId, frame)
    ensures Reported(events, id, robotId, stage, record.status)
  {
    var k :| 0 <= k < |events| && Brings(events[k], id, robotId, frame);
    var n :| 0 <= n < |frame.stageStates| && frame.stageStates[n] ==
      StageReport(stage, record.status, record.progress, record.startedAt, record.endedAt, record.result);
    assert ReportsAs(events[k], id, robotId, stage, record.status, n);
  }

  lemma {:induction false} CameBefore(events: seq<Event>, k: nat, id: Uuid, robotId: RobotId, frame: Frame)
    requires k <= |events| && CameIn(events[..k], id, robotId, frame)
    ensures CameIn(events, id, robotId, frame)
  {
    var m :| 0 <= m < k && Brings(events[..k][m], id, robotId, frame);
    assert Brings(events[m], id, robotId, frame);
  }

  // The last word on a stage, if there is one, is a report of the history.
  lemma {:induction false} LastWordWasReported(events: seq<Event>, id: Uuid, k: nat, said: Option<StageRecord>, stage: Uuid)
    requires AllWellFormed(events) && EndedAt(EMPTY_WORLD, events, id, k) && said.Some?
    requires var run := After(EMPTY_WORLD, events[..k]).runs[id];
             IsLastWord(said, FramesFor(EMPTY_WORLD, events[..k], id), run, events[k], stage)
    ensures Reported(events, id, After(EMPTY_WORLD, events[..k]).runs[id].robotId, stage, said.value.status)
  {
    var run, e := After(EMPTY_WORLD, events[..k]).runs[id], events[k];
    if stage in SaidBy(run, e) {
      assert Brings(events[k], id, run.robotId, e.frame);
      SaidIsReported(events, id, run.robotId, e.frame, stage, said.value);
    } else {
      var frames := FramesFor(EMPTY_WORLD, events[..k], id);
      var j :| 0 <= j < |frames| && SaidIn(frames[j], stage, said.value);
      assert AllWellFormed(events[..k]);
      FramesCameIn(EMPTY_WORLD, events[..k], id, frames[j]);
      CameBefore(events, k, id, run.robotId, frames[j]);
      SaidIsReported(events, id, run.robotId, frames[j], stage, said.value);
    }
  }

  // A cancelled run shows a stage as failed only where its robot reported that stage as failed.
  lemma {:induction false} CancelledShowsFailedOnlyIfSaid(events: seq<Event>, id: Uuid, i: nat)
    requires AllWellFormed(events) && id in After(EMPTY_WORLD, events).runs
    requires var run := After(EMPTY_WORLD, events).runs[id];
             && run.status == Cancelled && i < |run.stages| && run.stages[i].stageId in run.rows
             && run.rows[run.stages[i].stageId].status == StageFailed
    ensures var run := After(EMPTY_WORLD, events).runs[id];
            Reported(events, id, run.robotId, run.stages[i].stageId, StageFailed)
  {
    var k, said := EveryEndedStage(events, id, i);
    var run := After(EMPTY_WORLD, events[..k]).runs[id];
    OnRunMovesForward(run, events[k]);
    LastWordWasReported(events, id, k, said, run.stages[i].stageId);
  }
}
