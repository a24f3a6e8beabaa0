/**
 What a dispatch reply recorded late does to a run's stage rows: the frames that came while the run was
 still pending are merged into none, which shows in the rows while the run lasts and once it ended.
 */
module LateRows {
  import opened Wrappers
  import opened Lifecycle
  import opened Mission
  import opened StageState
  import opened Runs
  import opened RunSteps
  import opened RunInvariants
  import opened RunWorld
  import opened StageMerge
  import opened Confluence

  function FramesIn(reports: seq<Report>): seq<Frame> {
    seq(|reports|, i requires 0 <= i < |reports| => reports[i].frame)
  }

  // ---------- The rows after some reports ----------

  predicate EndsRun(exec: ExecStatus) {
    exec in {ExecSucceeded, ExecFailed, ExecCancelled}
  }

  function EndStatus(exec: ExecStatus): RunStatus
    requires EndsRun(exec)
  {
    match exec
    case ExecSucceeded => Succeeded
    case ExecFailed => Failed
    case ExecCancelled => Cancelled
  }

  // Where the first report that ends a run stands; the number of reports if none does.
  function FirstEnd(reports: seq<Report>): (e: nat)
    ensures e <= |reports| && (e < |reports| ==> EndsRun(reports[e].frame.exec))
  {
    if reports == [] || EndsRun(reports[0].frame.exec) then 0 else 1 + FirstEnd(reports[1..])
  }

  lemma {:induction false} FirstEndAfter(reports: seq<Report>, j: nat)
    requires j <= |reports| && forall i :: 0 <= i < j ==> !EndsRun(reports[i].frame.exec)
    ensures FirstEnd(reports) == j + FirstEnd(reports[j..])
  {
    if j > 0 {
      assert reports[1..][j - 1..] == reports[j..];
      FirstEndAfter(reports[1..], j - 1);
    }
  }

  lemma {:induction false} EndedStaysAsIs(run: Run, reports: seq<Report>)
    requires IsTerminal(run.status)
    ensures RecordAll(run, reports) == run
    decreases |reports|
  {
    if reports != [] {
      RecordAfterEnd(run, run.robotId, reports[0].frame, reports[0].now);
      EndedStaysAsIs(run, reports[1..]);
    }
  }

  lemma {:induction false} OneMerge(run: Run, r: Report)
    requires IsExecuting(run.status) && !EndsRun(r.frame.exec)
    ensures var next := RecordRun(run, run.robotId, r.frame, r.now);
            && IsExecuting(next.status) && next.stages == run.stages && next.robotId == run.robotId
            && next.rows == UpsertRows(run.rows, LiveRecords(r.frame, run.stages))
  {
    ReportTable(run.status, r.frame.exec);
    RecordKeepsPlan(run, run.robotId, r.frame, r.now);
    RecordFollows(run, run.robotId, r.frame, r.now);
    RecordRows(run, run.robotId, r.frame, r.now);
  }

  // The ending report closes the stages out, its own records over the rows so far.
  function EndRows(live: Rows, stages: seq<Stage>, end: Report): Rows
    requires EndsRun(end.frame.exec)
  {
    FinalRows(stages, live + RowsOf(LiveRecords(end.frame, stages)), EndStatus(end.frame.exec), end.now)
  }

  lemma {:induction false} EndMoves(run: Run, r: Report)
    requires IsExecuting(run.status) && EndsRun(r.frame.exec)
    ensures ReportTransition(run, r.frame) ==
            Some((EndStatus(r.frame.exec), TriggerForReport(run.status, r.frame.exec)))
  {
    RobotTriggers(run.status, TriggerForReport(run.status, r.frame.exec));
  }

  lemma {:induction false} EndSettles(run: Run, r: Report)
    requires IsExecuting(run.status) && EndsRun(r.frame.exec)
    ensures var move := (EndStatus(r.frame.exec), TriggerForReport(run.status, r.frame.exec));
            RecordRun(run, run.robotId, r.frame, r.now) ==
            Settled(Written(Touched(run, r.frame, r.now), ReportWrite(run, r.frame, move), r.now),
                    RowsOf(LiveRecords(r.frame, run.stages)), r.now)
  {
    EndMoves(run, r);
  }

  lemma {:induction false} OneEnd(run: Run, r: Report)
    requires IsExecuting(run.status) && EndsRun(r.frame.exec)
    requires DistinctIds(run.stages) && InPlan(run.rows, run.stages)
    ensures var next := RecordRun(run, run.robotId, r.frame, r.now);
            IsTerminal(next.status) && next.rows == EndRows(run.rows, run.stages, r)
  {
    var live := LiveRecords(r.frame, run.stages);
    var move := (EndStatus(r.frame.exec), TriggerForReport(run.status, r.frame.exec));
    var moved := Written(Touched(run, r.frame, r.now), ReportWrite(run, r.frame, move), r.now);
    EndSettles(run, r);
    LiveInPlan(r.frame, run.stages, |r.frame.stageStates|);
    RowsOfInPlan(live, run.stages);
    SettleKeepsRows(moved, RowsOf(live), r.now);
  }

  // The rows so far, closed out by the report at e if there is one.
  function ClosedAt(live: Rows, stages: seq<Stage>, reports: seq<Report>, e: nat): Rows
    requires e < |reports| ==> EndsRun(reports[e].frame.exec)
  {
    if e < |reports| then EndRows(live, stages, reports[e]) else live
  }

  // The rows after all the reports: the merge of the frames up to the one that ends the run, if any does,
  // closed out by that one.
  function RowsAfter(rows: Rows, stages: seq<Stage>, reports: seq<Report>): Rows {
    var e := FirstEnd(reports);
    ClosedAt(Merged(rows, FramesIn(reports[..e]), stages), stages, reports, e)
  }

  lemma {:induction false} FramesCons(reports: seq<Report>, e: nat)
    requires e < |reports|
    ensures FramesIn(reports[..e + 1]) == [reports[0].frame] + FramesIn(reports[1..][..e])
  {}

  lemma {:induction false} ClosedCons(live: Rows, stages: seq<Stage>, reports: seq<Report>, e: nat)
    requires reports != [] && (e < |reports[1..]| ==> EndsRun(reports[1..][e].frame.exec))
    ensures ClosedAt(live, stages, reports, e + 1) == ClosedAt(live, stages, reports[1..], e)
  {}

  lemma {:induction false} RowsAfterCons(rows: Rows, stages: seq<Stage>, reports: seq<Report>)
    requires reports != [] && !EndsRun(reports[0].frame.exec)
    ensures RowsAfter(rows, stages, reports) ==
            RowsAfter(UpsertRows(rows, LiveRecords(reports[0].frame, stages)), stages, reports[1..])
  {
    var e, rest := FirstEnd(reports[1..]), reports[1..];
    FramesCons(reports, e);
    ClosedCons(Merged(rows, FramesIn(reports[..e + 1]), stages), stages, reports, e);
  }

  lemma {:induction false} RecordAllRows(run: Run, reports: seq<Report>)
    requires IsExecuting(run.status) && DistinctIds(run.stages) && InPlan(run.rows, run.stages)
    ensures RecordAll(run, reports).rows == RowsAfter(run.rows, run.stages, reports)
    decreases |reports|
  {
    if reports != [] {
      var r, rest := reports[0], reports[1..];
      var next := RecordRun(run, run.robotId, r.frame, r.now);
      if EndsRun(r.frame.exec) {
        OneEnd(run, r);
        EndedStaysAsIs(next, rest);
        assert FramesIn(reports[..0]) == [];
      } else {
        OneMerge(run, r);
        LiveInPlan(r.frame, run.stages, |r.frame.stageStates|);
        UpsertKeepsInPlan(run.rows, LiveRecords(r.frame, run.stages), run.stages);
        RecordAllRows(next, rest);
        RowsAfterCons(run.rows, run.stages, reports);
      }
    } else {
      assert FramesIn(reports[..0]) == [];
    }
  }

  lemma {:induction false} AcceptedRows(run: Run, reports: seq<Report>, repliedAt: Time, now: Time)
    requires JustPrepared(run) && DistinctIds(run.stages)
    ensures AcceptFirst(run, reports, repliedAt, now).rows == RowsAfter(map[], run.stages, reports)
  {
    RecordAllRows(AcceptedAt(run, repliedAt, now), reports);
  }

  lemma {:induction false} LateRows(run: Run, reports: seq<Report>, j: nat, k: nat, repliedAt: Time, now: Time)
    requires JustPrepared(run) && DistinctIds(run.stages) && j <= k <= |reports|
    requires AllPaused(reports[..j]) && (j < k ==> reports[j].frame.exec != ExecPaused)
    ensures AcceptLate(run, reports, k, repliedAt, now).rows == RowsAfter(map[], run.stages, reports[j..])
  {
    LatePausesAreLost(run, reports, j, k, repliedAt, now);
    PausesAreOnlyNoted(run, reports[..j]);
    PausesWhilePending(run, reports[..j]);
    var noted, rest := RecordAll(run, reports[..j]), reports[j..];
    assert noted.stages == run.stages;
    AcceptedRows(noted, rest, repliedAt, now);
  }

  // ---------- When two projections agree ----------

  // The record tells the projection nothing that having no record would not.
  predicate Unsaid(record: StageRecord, run: RunStatus) {
    && record.headerId == 0 && record.progress == 0.0
    && record.startedAt.None? && record.endedAt.None? && record.result.None?
    && record.status != ProjectStatus(record.status, run) == ProjectStatus(Waiting, run)
  }

  lemma {:induction false} UnsaidIff(stage: Stage, index: nat, record: StageRecord, run: RunStatus, now: Time)
    requires record.source == ByRobot
    ensures FinalRecord(stage, index, Some(record), run, now) == FinalRecord(stage, index, None, run, now) <==>
            Unsaid(record, run)
  {}

  // What a stage was said to be before the end comes to the same in the projection.
  ghost predicate SameAtEnd(stages: seq<Stage>, id: Uuid, a: Option<StageRecord>, b: Option<StageRecord>,
                            run: RunStatus, now: Time)
  {
    && (forall i :: 0 <= i < |stages| && stages[i].stageId == id ==>
                      FinalRecord(stages[i], i, a, run, now) == FinalRecord(stages[i], i, b, run, now))
    && (!IsTopLevel(stages, id) ==> a == b)
  }

  // A top-level stage's final row is its projection, and any other row is as it was.
  lemma {:induction false} FinalRowAt(stages: seq<Stage>, live: Rows, run: RunStatus, now: Time, i: nat)
    requires DistinctIds(stages) && InPlan(live, stages) && i < |stages|
    ensures var id := stages[i].stageId;
            LiveAt(FinalRows(stages, live, run, now), id) == Some(FinalRecord(stages[i], i, LiveAt(live, id), run, now))
  {
    FinalRowsResolve(stages, live, run, now);
  }

  lemma {:induction false} OtherRowAt(stages: seq<Stage>, live: Rows, run: RunStatus, now: Time, id: Uuid)
    requires DistinctIds(stages) && InPlan(live, stages) && !IsTopLevel(stages, id)
    ensures LiveAt(FinalRows(stages, live, run, now), id) == LiveAt(live, id)
  {
    FinalRowsResolve(stages, live, run, now);
    if id in live {
      InPlanParents(stages, live, id);
    }
  }

  lemma {:induction false} OnePlace(stages: seq<Stage>, i: nat, k: nat)
    requires DistinctIds(stages) && i < |stages| && k < |stages| && stages[i].stageId == stages[k].stageId
    ensures i == k
  {
    TopLevelApart(stages, i, k);
  }

  lemma {:induction false} TopSameIff(stages: seq<Stage>, i: nat, a: Option<StageRecord>, b: Option<StageRecord>,
                                      run: RunStatus, now: Time)
    requires DistinctIds(stages) && i < |stages|
    ensures SameAtEnd(stages, stages[i].stageId, a, b, run, now) <==>
            FinalRecord(stages[i], i, a, run, now) == FinalRecord(stages[i], i, b, run, now)
  {
    assert TopLevelBefore(stages, |stages|, stages[i].stageId);
    forall k | 0 <= k < |stages| && stages[k].stageId == stages[i].stageId ensures k == i {
      OnePlace(stages, i, k);
    }
  }

  lemma {:induction false} FinalsAgreeAt(stages: seq<Stage>, x: Rows, y: Rows, run: RunStatus, now: Time, id: Uuid)
    requires DistinctIds(stages) && InPlan(x, stages) && InPlan(y, stages)
    ensures LiveAt(FinalRows(stages, x, run, now), id) == LiveAt(FinalRows(stages, y, run, now), id) <==>
            SameAtEnd(stages, id, LiveAt(x, id), LiveAt(y, id), run, now)
  {
    if IsTopLevel(stages, id) {
      var i :| 0 <= i < |stages| && stages[i].stageId == id;
      FinalRowAt(stages, x, run, now, i);
      FinalRowAt(stages, y, run, now, i);
      TopSameIff(stages, i, LiveAt(x, id), LiveAt(y, id), run, now);
    } else {
      OtherRowAt(stages, x, run, now, id);
      OtherRowAt(stages, y, run, now, id);
      assert forall i :: 0 <= i < |stages| ==> stages[i].stageId != id;
    }
  }

  lemma {:induction false} FinalsAgreeIff(stages: seq<Stage>, x: Rows, y: Rows, run: RunStatus, now: Time)
    requires DistinctIds(stages) && InPlan(x, stages) && InPlan(y, stages)
    ensures FinalRows(stages, x, run, now) == FinalRows(stages, y, run, now) <==>
            forall id :: SameAtEnd(stages, id, LiveAt(x, id), LiveAt(y, id), run, now)
  {
    forall id
      ensures LiveAt(FinalRows(stages, x, run, now), id) == LiveAt(FinalRows(stages, y, run, now), id) <==>
              SameAtEnd(stages, id, LiveAt(x, id), LiveAt(y, id), run, now)
    {
      FinalsAgreeAt(stages, x, y, run, now, id);
    }
    if forall id :: SameAtEnd(stages, id, LiveAt(x, id), LiveAt(y, id), run, now) {
      SameRows(FinalRows(stages, x, run, now), FinalRows(stages, y, run, now));
    }
  }

  // ---------- What losing the first frames comes to at the end ----------

  // All the first j frames say of a top-level stage is nothing to the projection.
  ghost predicate NeverSaid(frames: seq<Frame>, j: nat, stages: seq<Stage>, id: Uuid, run: RunStatus) {
    && IsTopLevel(stages, id)
    && forall i :: 0 <= i < j <= |frames| && RecordFor(frames[i], stages, id).Some? ==>
                     Unsaid(RecordFor(frames[i], stages, id).value, run)
  }

  // The newest record of all the frames is the newest of the later ones, unless it is a lost one.
  lemma {:induction false} NewestOrLost(frames: seq<Frame>, j: nat, stages: seq<Stage>, id: Uuid,
                                        x: Option<StageRecord>, y: Option<StageRecord>)
    requires CountersTellApart(frames) && j <= |frames|
    requires IsNewest(None, frames, stages, id, x) && IsNewest(None, frames[j..], stages, id, y)
    ensures x == y
            || (&& x.Some? && x.value.source == ByRobot && (y.Some? ==> y.value.headerId < x.value.headerId)
                && exists i :: 0 <= i < j && RecordFor(frames[i], stages, id) == x
                               && frames[i].headerId == x.value.headerId)
  {
    NewestReaches(frames[j..], frames, stages, id, y, x);
    NewestReaches(frames, frames, stages, id, x, x);
    if x.Some? {
      var i :| 0 <= i < |frames| && RecordFor(frames[i], stages, id) == x && frames[i].headerId == x.value.headerId;
      RecordIsOfFrame(frames[i], Places(stages), id, |frames[i].stageStates|);
      if i >= j {
        assert frames[j..][i - j] == frames[i];
      }
      if y.Some? && y.value.headerId == x.value.headerId {
        var k :| 0 <= k < |frames| && RecordFor(frames[k], stages, id) == y && frames[k].headerId == y.value.headerId;
        assert frames[k] == frames[i];
      }
    }
  }

  lemma {:induction false} NeverSaidAgrees(frames: seq<Frame>, j: nat, stages: seq<Stage>, id: Uuid,
                                           x: Option<StageRecord>, y: Option<StageRecord>, run: RunStatus, now: Time)
    requires CountersTellApart(frames) && j <= |frames| && NeverSaid(frames, j, stages, id, run)
    requires IsNewest(None, frames, stages, id, x) && IsNewest(None, frames[j..], stages, id, y)
    ensures SameAtEnd(stages, id, x, y, run, now)
  {
    NewestOrLost(frames, j, stages, id, x, y);
    if x != y {
      assert Unsaid(x.value, run) && y.None?;
      forall k | 0 <= k < |stages| && stages[k].stageId == id
        ensures FinalRecord(stages[k], k, x, run, now) == FinalRecord(stages[k], k, y, run, now)
      {
        UnsaidIff(stages[k], k, x.value, run, now);
      }
    }
  }

  lemma {:induction false} AgreeingWasNeverSaid(frames: seq<Frame>, j: nat, stages: seq<Stage>, id: Uuid,
                                                x: Option<StageRecord>, y: Option<StageRecord>, run: RunStatus,
                                                now: Time)
    requires CountersTellApart(frames) && j <= |frames|
    requires IsNewest(None, frames, stages, id, x) && IsNewest(None, frames[j..], stages, id, y)
    requires x != y && SameAtEnd(stages, id, x, y, run, now)
    ensures NeverSaid(frames, j, stages, id, run)
  {
    NewestOrLost(frames, j, stages, id, x, y);
    var k :| 0 <= k < |stages| && stages[k].stageId == id;
    assert FinalRecord(stages[k], k, x, run, now) == FinalRecord(stages[k], k, y, run, now);
    UnsaidIff(stages[k], k, x.value, run, now);
    var l :| 0 <= l < j && RecordFor(frames[l], stages, id) == x && frames[l].headerId == x.value.headerId;
    forall i | 0 <= i < j && RecordFor(frames[i], stages, id).Some?
      ensures Unsaid(RecordFor(frames[i], stages, id).value, run)
    {
      assert frames[i] == frames[l];
    }
  }

  // Before the end, a stage's record with and without the first j frames comes to the same at the end if
  // and only if later frames say at least as new of it, or the first ones said nothing of it that counts.
  lemma {:induction false} AgreesAtEndIff(frames: seq<Frame>, j: nat, stages: seq<Stage>, id: Uuid, run: RunStatus,
                                          now: Time)
    requires CountersTellApart(frames) && j <= |frames|
    ensures SameAtEnd(stages, id, LiveAt(Merged(map[], frames, stages), id),
                      LiveAt(Merged(map[], frames[j..], stages), id), run, now) <==>
            Superseded(frames, j, stages, id) || NeverSaid(frames, j, stages, id, run)
  {
    var x, y := LiveAt(Merged(map[], frames, stages), id), LiveAt(Merged(map[], frames[j..], stages), id);
    LastWriterWins(map[], frames, stages, id);
    LastWriterWins(map[], frames[j..], stages, id);
    if Superseded(frames, j, stages, id) {
      SupersededKeepsRow(frames, j, stages, id, x, y);
    }
    if NeverSaid(frames, j, stages, id, run) {
      NeverSaidAgrees(frames, j, stages, id, x, y, run, now);
    }
    if x == y {
      KeptRowSupersedes(frames, j, stages, id, x);
    } else if SameAtEnd(stages, id, x, y, run, now) {
      AgreeingWasNeverSaid(frames, j, stages, id, x, y, run, now);
    }
  }

  // The ending frame names the stage itself, or what the lost frames said of it comes to nothing.
  ghost predicate MadeUpFor(frames: seq<Frame>, j: nat, stages: seq<Stage>, end: Report, id: Uuid)
    requires EndsRun(end.frame.exec)
  {
    || id in RowsOf(LiveRecords(end.frame, stages))
    || Superseded(frames, j, stages, id)
    || NeverSaid(frames, j, stages, id, EndStatus(end.frame.exec))
  }

  lemma {:induction false} MergedInPlan(rows: Rows, frames: seq<Frame>, stages: seq<Stage>)
    requires InPlan(rows, stages)
    ensures InPlan(Merged(rows, frames, stages), stages)
    decreases |frames|
  {
    if frames != [] {
      LiveInPlan(frames[0], stages, |frames[0].stageStates|);
      UpsertKeepsInPlan(rows, LiveRecords(frames[0], stages), stages);
      MergedInPlan(UpsertRows(rows, LiveRecords(frames[0], stages)), frames[1..], stages);
    }
  }

  lemma {:induction false} OverlaidInPlan(frames: seq<Frame>, stages: seq<Stage>, end: Frame)
    ensures InPlan(Merged(map[], frames, stages) + RowsOf(LiveRecords(end, stages)), stages)
  {
    MergedInPlan(map[], frames, stages);
    LiveInPlan(end, stages, |end.stageStates|);
    RowsOfInPlan(LiveRecords(end, stages), stages);
  }

  lemma {:induction false} EndRowsAgreeIff(frames: seq<Frame>, j: nat, stages: seq<Stage>, end: Report)
    requires DistinctIds(stages) && CountersTellApart(frames) && j <= |frames| && EndsRun(end.frame.exec)
    ensures EndRows(Merged(map[], frames, stages), stages, end) ==
            EndRows(Merged(map[], frames[j..], stages), stages, end) <==>
            forall id :: MadeUpFor(frames, j, stages, end, id)
  {
    var all, later, over := Merged(map[], frames, stages), Merged(map[], frames[j..], stages),
                            RowsOf(LiveRecords(end.frame, stages));
    var run := EndStatus(end.frame.exec);
    OverlaidInPlan(frames, stages, end.frame);
    OverlaidInPlan(frames[j..], stages, end.frame);
    FinalsAgreeIff(stages, all + over, later + over, run, end.now);
    forall id
      ensures SameAtEnd(stages, id, LiveAt(all + over, id), LiveAt(later + over, id), run, end.now) <==>
              MadeUpFor(frames, j, stages, end, id)
    {
      AgreesAtEndIff(frames, j, stages, id, run, end.now);
    }
  }

  // ---------- Exactly when the rows agree ----------

  lemma {:induction false} LeadingPausesBefore(reports: seq<Report>, k: nat)
    requires k <= |reports|
    ensures var j := LeadingPauses(reports[..k]);
            && j <= k && AllPaused(reports[..j]) && (j < k ==> reports[j].frame.exec != ExecPaused)
            && j <= FirstEnd(reports) && FirstEnd(reports) == j + FirstEnd(reports[j..])
  {
    var j := LeadingPauses(reports[..k]);
    assert reports[..k][..j] == reports[..j];
    assert forall i :: 0 <= i < j ==> reports[..j][i] == reports[i];
    FirstEndAfter(reports, j);
  }

  // What the lost frames said shows nowhere: in the live rows, or in those of the ended run.
  ghost predicate NothingLost(reports: seq<Report>, j: nat, stages: seq<Stage>) {
    var e := FirstEnd(reports);
    var frames := FramesIn(reports[..e]);
    if e == |reports| then forall id :: Superseded(frames, j, stages, id)
    else forall id :: MadeUpFor(frames, j, stages, reports[e], id)
  }

  lemma {:induction false} RowsAfterFrom(reports: seq<Report>, j: nat, stages: seq<Stage>)
    requires j <= FirstEnd(reports) && FirstEnd(reports) == j + FirstEnd(reports[j..])
    ensures var e := FirstEnd(reports);
            RowsAfter(map[], stages, reports[j..]) ==
            ClosedAt(Merged(map[], FramesIn(reports[..e])[j..], stages), stages, reports, e)
  {
    var e := FirstEnd(reports);
    assert FramesIn(reports[j..][..e - j]) == FramesIn(reports[..e])[j..];
  }

  lemma {:induction false} RowsAfterAgreeIff(reports: seq<Report>, j: nat, stages: seq<Stage>)
    requires DistinctIds(stages) && j <= FirstEnd(reports) && FirstEnd(reports) == j + FirstEnd(reports[j..])
    requires CountersTellApart(FramesIn(reports[..FirstEnd(reports)]))
    ensures RowsAfter(map[], stages, reports[j..]) == RowsAfter(map[], stages, reports) <==>
            NothingLost(reports, j, stages)
  {
    var e := FirstEnd(reports);
    var frames := FramesIn(reports[..e]);
    RowsAfterFrom(reports, j, stages);
    if e < |reports| {
      EndRowsAgreeIff(frames, j, stages, reports[e]);
    } else {
      LosingFramesIff(frames, j, stages);
    }
  }

  // A late acceptance leaves the same stage rows as an early one if and only if, while the run lasts, later
  // frames say at least as new of every stage the lost PAUSED frames named; and once a report ended it, if
  // for each such stage that report names it too, or frames before it say at least as new, or what was lost
  // is nothing the final view keeps.
  lemma {:induction false} LateRowsAgreeIff(run: Run, reports: seq<Report>, k: nat, repliedAt: Time, now: Time)
    requires JustPrepared(run) && DistinctIds(run.stages) && k <= |reports|
    requires CountersTellApart(FramesIn(reports[..FirstEnd(reports)]))
    ensures AcceptLate(run, reports, k, repliedAt, now).rows == AcceptFirst(run, reports, repliedAt, now).rows <==>
            NothingLost(reports, LeadingPauses(reports[..k]), run.stages)
  {
    var j := LeadingPauses(reports[..k]);
    LeadingPausesBefore(reports, k);
    LateRows(run, reports, j, k, repliedAt, now);
    AcceptedRows(run, reports, repliedAt, now);
    RowsAfterAgreeIff(reports, j, run.stages);
  }

  function FinishedWhilePaused(a: Uuid): Report {
    Report(Frame(5, 0, ExecPaused, [StageReport(a, Finished, 1.0, None, None, None)], []), 0)
  }

  function FailedUnnamed(): Report {
    Report(Frame(6, 0, ExecFailed, [], []), 0)
  }

  lemma {:induction false} OneStageSaid(a: Uuid, frame: Frame, said: StageReport)
    requires frame.stageStates == [said] && said.stageId == a
    ensures var rows := Merged(map[], [frame], [NavigationStage(a, [], Absent)]);
            LiveAt(rows, a).Some? && rows[a].status == said.status
  {
    var stages := [NavigationStage(a, [], Absent)];
    PlaceOfTopLevel(stages, 1, 0);
    FrameOffers(map[], frame, Places(stages), a, 1);
    assert Merged(map[], [frame], stages) ==
           Merged(UpsertRows(map[], LiveRecords(frame, stages)), [frame][1..], stages);
    assert RecordUpTo(frame, Places(stages), a, 0).None?;
  }

  lemma {:induction false} RowsOfLate(a: Uuid)
    ensures var rows := RowsAfter(map[], [NavigationStage(a, [], Absent)], [FailedUnnamed()]);
            a in rows && rows[a].status == Skipped
  {
    var end := FailedUnnamed();
    assert FirstEnd([end]) == 0 && FramesIn([end][..0]) == [];
  }

  lemma {:induction false} RowsOfFirst(a: Uuid)
    ensures var rows := RowsAfter(map[], [NavigationStage(a, [], Absent)], [FinishedWhilePaused(a), FailedUnnamed()]);
            a in rows && rows[a].status == Finished
  {
    var paused, end := FinishedWhilePaused(a), FailedUnnamed();
    var reports, stages := [paused, end], [NavigationStage(a, [], Absent)];
    assert reports[1..] == [end] && FirstEnd([end]) == 0 && FirstEnd(reports) == 1;
    assert FramesIn(reports[..1]) == [paused.frame];
    OneStageSaid(a, paused.frame, StageReport(a, Finished, 1.0, None, None, None));
    MergedInPlan(map[], [paused.frame], stages);
  }

  // The loss at its plainest: a PAUSED report says the one stage is finished, the acceptance comes after it,
  // and the report that ends the run does not name the stage. It ends skipped, and would have been finished.
  lemma {:induction false} FinishedStageEndsSkipped(run: Run, a: Uuid, repliedAt: Time, now: Time)
    requires JustPrepared(run) && run.stages == [NavigationStage(a, [], Absent)]
    ensures var reports := [FinishedWhilePaused(a), FailedUnnamed()];
            var late, first := AcceptLate(run, reports, 1, repliedAt, now), AcceptFirst(run, reports, repliedAt, now);
            && a in late.rows && late.rows[a].status == Skipped
            && a in first.rows && first.rows[a].status == Finished
  {
    var reports, stages := [FinishedWhilePaused(a), FailedUnnamed()], run.stages;
    assert DistinctIds(stages);
    assert reports[..1] == [FinishedWhilePaused(a)] && reports[1..] == [FailedUnnamed()];
    LateRows(run, reports, 1, 1, repliedAt, now);
    AcceptedRows(run, reports, repliedAt, now);
    RowsOfLate(a);
    RowsOfFirst(a);
  }
}
