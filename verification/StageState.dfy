/** A run's per-stage state: the live records of a frame, the final projection, error attribution. */
module StageState {
  import opened Wrappers
  import opened Mission
  import opened Lifecycle

  datatype StageStatus =
    | Waiting
    | Initializing
    | StageRunning
    | StagePaused
    | Finished
    | StageFailed
    | StageCancelled
    | Skipped

  datatype StatusSource = ByRobot | ByBackend

  datatype StageRecord = StageRecord(
    stageId: Uuid,
    headerId: nat,
    stageIndex: nat,
    status: StageStatus,
    progress: real,
    startedAt: Option<Time>,
    endedAt: Option<Time>,
    result: Option<string>,
    sourceTs: Time,
    source: StatusSource,
    parent: Option<Uuid>)

  // A run's stage rows, keyed by stage.
  type Rows = map<Uuid, StageRecord>

  datatype ErrorOrigin = FromRobot | FromBackend
  datatype ErrorSeverity = Warning | Fatal

  // A reference of an error: a stage id, None when its text is not one, or something else.
  datatype ErrorReference = StageReference(id: Option<Uuid>) | OtherReference

  datatype MissionError = MissionError(origin: ErrorOrigin, severity: ErrorSeverity, kind: string,
                                       references: seq<ErrorReference>)

  datatype StageReport = StageReport(stageId: Uuid, status: StageStatus, progress: real,
                                     startedAt: Option<Time>, endedAt: Option<Time>, result: Option<string>)

  // One state report of the robot; the transport refuses a frame that names a stage twice.
  datatype Frame = Frame(headerId: nat, timestamp: Time, exec: ExecStatus,
                         stageStates: seq<StageReport>, errors: seq<MissionError>)

  predicate IsFinal(status: StageStatus) {
    status in {Finished, StageFailed, StageCancelled, Skipped}
  }

  // ---------- Where a stage stands in the plan ----------

  datatype PlanPlace = PlanPlace(index: nat, parent: Option<Uuid>)

  function DirectIds(stages: seq<Stage>): set<Uuid> {
    set stage | stage in stages :: stage.stageId
  }

  function CleanupPlaces(stages: seq<Stage>, place: PlanPlace): map<Uuid, PlanPlace> {
    map id | id in DirectIds(stages) :: place
  }

  // The places of the first n stages and their cleanup, which is indexed under its parent.
  function PlacesUpTo(stages: seq<Stage>, n: nat): map<Uuid, PlanPlace>
    requires n <= |stages|
  {
    if n == 0 then map[]
    else
      var stage := stages[n - 1];
      PlacesUpTo(stages, n - 1)[stage.stageId := PlanPlace(n - 1, None)]
      + CleanupPlaces(Cleanup(stage), PlanPlace(n - 1, Some(stage.stageId)))
  }

  function Places(stages: seq<Stage>): map<Uuid, PlanPlace> {
    PlacesUpTo(stages, |stages|)
  }

  lemma {:induction false} DirectIdsAreIds(stages: seq<Stage>)
    ensures DirectIds(stages) <= StageIds(stages)
  {
    if stages != [] {
      DirectIdsAreIds(stages[1..]);
      assert forall s :: s in stages ==> s == stages[0] || s in stages[1..];
    }
  }

  lemma {:induction false} TopLevelApart(stages: seq<Stage>, i: nat, j: nat)
    requires DistinctIds(stages) && i < |stages| && j < |stages|
    ensures i != j ==> stages[i].stageId != stages[j].stageId
    ensures stages[i].stageId !in DirectIds(Cleanup(stages[j]))
  {
    DirectIdsAreIds(Cleanup(stages[j]));
    if i == j {
      IdsOfMember(stages, i);
    } else {
      SubtreesApart(stages, i, j);
    }
  }

  // With distinct ids every top-level stage is placed at its own position.
  lemma {:induction false} PlaceOfTopLevel(stages: seq<Stage>, n: nat, i: nat)
    requires DistinctIds(stages) && i < n <= |stages|
    ensures stages[i].stageId in PlacesUpTo(stages, n)
    ensures PlacesUpTo(stages, n)[stages[i].stageId] == PlanPlace(i, None)
  {
    TopLevelApart(stages, i, n - 1);
    if i < n - 1 {
      PlaceOfTopLevel(stages, n - 1, i);
    }
  }

  // Every place is that of a top-level stage, or of a cleanup stage under one.
  lemma {:induction false} PlaceShape(stages: seq<Stage>, n: nat, id: Uuid)
    requires n <= |stages| && id in PlacesUpTo(stages, n)
    ensures var place := PlacesUpTo(stages, n)[id];
            && place.index < n
            && (if place.parent.None? then id == stages[place.index].stageId
                else place.parent.value == stages[place.index].stageId)
  {
    var stage := stages[n - 1];
    if id != stage.stageId && id !in DirectIds(Cleanup(stage)) {
      PlaceShape(stages, n - 1, id);
    }
  }

  // ---------- Live records ----------

  function LiveRecord(frame: Frame, report: StageReport, place: PlanPlace): StageRecord {
    StageRecord(report.stageId, frame.headerId, place.index, report.status, report.progress,
                report.startedAt, report.endedAt, report.result, frame.timestamp, ByRobot, place.parent)
  }

  // The records of the frame's first n stage reports, those of stages the plan knows.
  function LiveUpTo(frame: Frame, places: map<Uuid, PlanPlace>, n: nat): seq<StageRecord>
    requires n <= |frame.stageStates|
  {
    if n == 0 then []
    else
      var report := frame.stageStates[n - 1];
      LiveUpTo(frame, places, n - 1)
      + if report.stageId in places then [LiveRecord(frame, report, places[report.stageId])] else []
  }

  function LiveRecords(frame: Frame, stages: seq<Stage>): seq<StageRecord> {
    LiveUpTo(frame, Places(stages), |frame.stageStates|)
  }

  method ComputeLiveRecords(frame: Frame, stages: seq<Stage>) returns (records: seq<StageRecord>)
    ensures records == LiveRecords(frame, stages)
  {
    var places: map<Uuid, PlanPlace> := map[];
    for index := 0 to |stages|
      invariant places == PlacesUpTo(stages, index)
    {
      var stage := stages[index];
      places := places[stage.stageId := PlanPlace(index, None)];
      places := places + CleanupPlaces(Cleanup(stage), PlanPlace(index, Some(stage.stageId)));
    }
    records := [];
    for i := 0 to |frame.stageStates|
      invariant records == LiveUpTo(frame, places, i)
    {
      var report := frame.stageStates[i];
      if report.stageId !in places {
        assert records + [] == records;
        continue;
      }
      records := records + [LiveRecord(frame, report, places[report.stageId])];
    }
  }

  // Rows from a list of records, a later record of a stage replacing an earlier one.
  function RowsOf(records: seq<StageRecord>): Rows {
    if records == [] then map[] else RowsOf(records[..|records| - 1])[Last(records).stageId := Last(records)]
  }

  // Every row stands at its stage's place in the plan.
  ghost predicate InPlan(rows: Rows, stages: seq<Stage>) {
    forall id :: id in rows ==>
      && rows[id].stageId == id
      && id in Places(stages)
      && Places(stages)[id] == PlanPlace(rows[id].stageIndex, rows[id].parent)
  }

  ghost predicate RecordsInPlan(records: seq<StageRecord>, stages: seq<Stage>) {
    forall r :: r in records ==>
      r.stageId in Places(stages) && Places(stages)[r.stageId] == PlanPlace(r.stageIndex, r.parent)
  }

  lemma {:induction false} LiveInPlan(frame: Frame, stages: seq<Stage>, n: nat)
    requires n <= |frame.stageStates|
    ensures RecordsInPlan(LiveUpTo(frame, Places(stages), n), stages)
  {
    if n > 0 {
      LiveInPlan(frame, stages, n - 1);
    }
  }

  lemma {:induction false} RowsOfInPlan(records: seq<StageRecord>, stages: seq<Stage>)
    requires RecordsInPlan(records, stages)
    ensures InPlan(RowsOf(records), stages)
  {
    if records != [] {
      RowsOfInPlan(records[..|records| - 1], stages);
    }
  }

  // ---------- The final projection ----------

  function ProjectStatus(status: StageStatus, run: RunStatus): StageStatus {
    if status in {StageCancelled, Skipped} then status
    else if run == Succeeded then Finished
    else if status == Finished then Finished
    else if status == StageFailed then StageFailed
    else if status == Waiting then Skipped
    else if run == Cancelled then StageCancelled
    else StageFailed
  }

  function FinalRecord(stage: Stage, index: nat, live: Option<StageRecord>, run: RunStatus, now: Time): StageRecord {
    var current := if live.Some? then live.value.status else Waiting;
    var final := ProjectStatus(current, run);
    var startedAt := if live.Some? then live.value.startedAt else None;
    var endedAt := if live.Some? then live.value.endedAt else None;
    StageRecord(
      stage.stageId,
      if live.Some? then live.value.headerId else 0,
      index,
      final,
      if live.Some? then live.value.progress else 0.0,
      startedAt,
      if endedAt.None? && startedAt.Some? && final != Skipped then Some(now) else endedAt,
      if live.Some? then live.value.result else None,
      now,
      if live.Some? && final == live.value.status then live.value.source else ByBackend,
      None)
  }

  function LiveAt(live: Rows, id: Uuid): Option<StageRecord> {
    if id in live then Some(live[id]) else None
  }

  // The cleanup rows the robot reported under a stage, kept as reported.
  function ReportedUnder(live: Rows, parent: Uuid): Rows {
    map id | id in live && live[id].parent == Some(parent) :: live[id]
  }

  // The resolved rows of the first n stages: each stage's own, then its reported cleanup's.
  function FinalUpTo(stages: seq<Stage>, live: Rows, run: RunStatus, now: Time, n: nat): Rows
    requires n <= |stages|
  {
    if n == 0 then map[]
    else
      var stage := stages[n - 1];
      FinalUpTo(stages, live, run, now, n - 1)
        [stage.stageId := FinalRecord(stage, n - 1, LiveAt(live, stage.stageId), run, now)]
      + ReportedUnder(live, stage.stageId)
  }

  function FinalRows(stages: seq<Stage>, live: Rows, run: RunStatus, now: Time): Rows {
    FinalUpTo(stages, live, run, now, |stages|)
  }

  method FinalStageStatuses(stages: seq<Stage>, live: Rows, run: RunStatus, now: Time) returns (resolved: Rows)
    ensures resolved == FinalRows(stages, live, run, now)
  {
    resolved := map[];
    for index := 0 to |stages|
      invariant resolved == FinalUpTo(stages, live, run, now, index)
    {
      var stage := stages[index];
      var found := LiveAt(live, stage.stageId);
      var current := if found.Some? then found.value.status else Waiting;
      var final := ProjectStatus(current, run);
      var source := if found.Some? && final == found.value.status then found.value.source else ByBackend;
      var startedAt := if found.Some? then found.value.startedAt else None;
      var endedAt := if found.Some? then found.value.endedAt else None;
      if endedAt.None? && startedAt.Some? && final != Skipped {
        endedAt := Some(now);
      }
      var record := StageRecord(
        stage.stageId, if found.Some? then found.value.headerId else 0, index, final,
        if found.Some? then found.value.progress else 0.0, startedAt, endedAt,
        if found.Some? then found.value.result else None, now, source, None);
      assert record == FinalRecord(stage, index, found, run, now);
      resolved := resolved[stage.stageId := record] + ReportedUnder(live, stage.stageId);
    }
  }

  ghost predicate TopLevelBefore(stages: seq<Stage>, n: nat, id: Uuid)
    requires n <= |stages|
  {
    exists i :: 0 <= i < n && stages[i].stageId == id
  }

  ghost predicate IsTopLevel(stages: seq<Stage>, id: Uuid) {
    TopLevelBefore(stages, |stages|, id)
  }

  lemma {:induction false} FinalKeys(stages: seq<Stage>, live: Rows, run: RunStatus, now: Time, n: nat, id: Uuid)
    requires n <= |stages|
    ensures id in FinalUpTo(stages, live, run, now, n) <==>
            TopLevelBefore(stages, n, id) ||
            (id in live && live[id].parent.Some? && TopLevelBefore(stages, n, live[id].parent.value))
  {
    if n > 0 {
      FinalKeys(stages, live, run, now, n - 1, id);
    }
  }

  // A top-level row is a top-level stage's own, and a cleanup row hangs under one.
  lemma {:induction false} InPlanParents(stages: seq<Stage>, live: Rows, id: Uuid)
    requires DistinctIds(stages) && InPlan(live, stages) && id in live
    ensures live[id].parent.Some? ==> IsTopLevel(stages, live[id].parent.value)
    ensures live[id].parent.None? <==> IsTopLevel(stages, id)
    ensures live[id].stageIndex < |stages|
    ensures live[id].parent.None? ==> stages[live[id].stageIndex].stageId == id
  {
    PlaceShape(stages, |stages|, id);
    if IsTopLevel(stages, id) {
      var i :| 0 <= i < |stages| && stages[i].stageId == id;
      PlaceOfTopLevel(stages, |stages|, i);
    }
  }

  lemma {:induction false} FinalOfTopLevel(stages: seq<Stage>, live: Rows, run: RunStatus, now: Time, n: nat, i: nat)
    requires i < n <= |stages|
    requires forall j :: i < j < |stages| ==> stages[j].stageId != stages[i].stageId
    requires stages[i].stageId in live ==> live[stages[i].stageId].parent.None?
    ensures stages[i].stageId in FinalUpTo(stages, live, run, now, n)
    ensures FinalUpTo(stages, live, run, now, n)[stages[i].stageId] ==
            FinalRecord(stages[i], i, LiveAt(live, stages[i].stageId), run, now)
  {
    if i < n - 1 {
      FinalOfTopLevel(stages, live, run, now, n - 1, i);
    }
  }

  lemma {:induction false} FinalOfCleanup(stages: seq<Stage>, live: Rows, run: RunStatus, now: Time, n: nat, id: Uuid)
    requires n <= |stages|
    requires id in live && live[id].parent.Some?
    requires TopLevelBefore(stages, n, live[id].parent.value) && !TopLevelBefore(stages, n, id)
    ensures id in FinalUpTo(stages, live, run, now, n) && FinalUpTo(stages, live, run, now, n)[id] == live[id]
  {
    if TopLevelBefore(stages, n - 1, live[id].parent.value) {
      FinalOfCleanup(stages, live, run, now, n - 1, id);
    }
  }

  // Every top-level stage has a final row at its plan position.
  ghost predicate ViewComplete(rows: Rows, stages: seq<Stage>) {
    forall i :: 0 <= i < |stages| ==>
      && stages[i].stageId in rows
      && rows[stages[i].stageId].stageIndex == i
      && rows[stages[i].stageId].parent.None?
      && IsFinal(rows[stages[i].stageId].status)
  }

  lemma {:induction false} ProjectionIsFinal(status: StageStatus, run: RunStatus)
    ensures IsFinal(ProjectStatus(status, run))
    ensures ProjectStatus(ProjectStatus(status, run), run) == ProjectStatus(status, run)
    ensures run == Succeeded ==> ProjectStatus(status, run) != StageFailed
  {}

  // The projection resolves the whole plan: it holds exactly one row per top-level stage, projected
  // from what was reported of it, and exactly the reported cleanup rows, unchanged.
  lemma {:induction false} FinalRowsResolve(stages: seq<Stage>, live: Rows, run: RunStatus, now: Time)
    requires DistinctIds(stages) && InPlan(live, stages)
    ensures var final := FinalRows(stages, live, run, now);
            && (forall id :: id in final <==> IsTopLevel(stages, id) || id in live)
            && (forall i :: 0 <= i < |stages| ==>
                  && stages[i].stageId in final
                  && final[stages[i].stageId] ==
                     FinalRecord(stages[i], i, LiveAt(live, stages[i].stageId), run, now))
            && (forall id :: id in live && live[id].parent.Some? ==> id in final && final[id] == live[id])
  {
    var final := FinalRows(stages, live, run, now);
    forall id
      ensures id in final <==> IsTopLevel(stages, id) || id in live
      ensures id in live && live[id].parent.Some? ==> id in final && final[id] == live[id]
    {
      FinalKeys(stages, live, run, now, |stages|, id);
      if id in live {
        InPlanParents(stages, live, id);
        if live[id].parent.Some? {
          FinalOfCleanup(stages, live, run, now, |stages|, id);
        }
      }
    }
    forall i | 0 <= i < |stages|
      ensures stages[i].stageId in final
      ensures final[stages[i].stageId] == FinalRecord(stages[i], i, LiveAt(live, stages[i].stageId), run, now)
    {
      assert TopLevelBefore(stages, |stages|, stages[i].stageId);
      if stages[i].stageId in live {
        InPlanParents(stages, live, stages[i].stageId);
      }
      forall j | i < j < |stages| ensures stages[j].stageId != stages[i].stageId {
        TopLevelApart(stages, i, j);
      }
      FinalOfTopLevel(stages, live, run, now, |stages|, i);
    }
  }

  lemma {:induction false} FinalRowsComplete(stages: seq<Stage>, live: Rows, run: RunStatus, now: Time)
    requires DistinctIds(stages) && InPlan(live, stages)
    ensures InPlan(FinalRows(stages, live, run, now), stages)
    ensures ViewComplete(FinalRows(stages, live, run, now), stages)
  {
    var final := FinalRows(stages, live, run, now);
    FinalRowsResolve(stages, live, run, now);
    forall i | 0 <= i < |stages| ensures IsFinal(final[stages[i].stageId].status) {
      var found := LiveAt(live, stages[i].stageId);
      ProjectionIsFinal(if found.Some? then found.value.status else Waiting, run);
    }
    forall id | id in final
      ensures final[id].stageId == id && id in Places(stages)
      ensures Places(stages)[id] == PlanPlace(final[id].stageIndex, final[id].parent)
    {
      if IsTopLevel(stages, id) {
        var i :| 0 <= i < |stages| && stages[i].stageId == id;
        PlaceOfTopLevel(stages, |stages|, i);
      } else {
        InPlanParents(stages, live, id);
      }
    }
  }

  lemma {:induction false} FinalRecordStable(stage: Stage, index: nat, live: Option<StageRecord>, run: RunStatus,
                                             now: Time, later: Time)
    ensures var once := FinalRecord(stage, index, live, run, now);
            FinalRecord(stage, index, Some(once), run, later) == once.(sourceTs := later)
  {}

  // Projecting an already final view again changes nothing but the projection's own timestamp.
  lemma {:induction false} FinalRowsStable(stages: seq<Stage>, live: Rows, run: RunStatus, now: Time, later: Time)
    requires DistinctIds(stages) && InPlan(live, stages)
    ensures var once := FinalRows(stages, live, run, now);
            var twice := FinalRows(stages, once, run, later);
            && twice.Keys == once.Keys
            && (forall id :: id in once ==>
                  twice[id] == if IsTopLevel(stages, id) then once[id].(sourceTs := later) else once[id])
  {
    var once := FinalRows(stages, live, run, now);
    var twice := FinalRows(stages, once, run, later);
    FinalRowsResolve(stages, live, run, now);
    FinalRowsComplete(stages, live, run, now);
    FinalRowsResolve(stages, once, run, later);
    forall id | id in once
      ensures twice[id] == if IsTopLevel(stages, id) then once[id].(sourceTs := later) else once[id]
    {
      if IsTopLevel(stages, id) {
        var i :| 0 <= i < |stages| && stages[i].stageId == id;
        FinalRecordStable(stages[i], i, LiveAt(live, id), run, now, later);
      } else {
        InPlanParents(stages, once, id);
      }
    }
  }

  // ---------- Error attribution ----------

  // The stage the error's first stage reference names, if it is one of the run's.
  function ReferencedStage(references: seq<ErrorReference>, ids: set<Uuid>): Option<Uuid> {
    if references == [] then None
    else if references[0].OtherReference? then ReferencedStage(references[1..], ids)
    else if references[0].id.Some? && references[0].id.value in ids then references[0].id
    else None
  }

  function FailedIds(rows: Rows): set<Uuid> {
    set id | id in rows && rows[id].status == StageFailed
  }

  // Where an error belongs: the stage it names, else the one failed stage, else the mission.
  ghost predicate AttributedTo(error: MissionError, rows: Rows, id: Uuid) {
    var named := ReferencedStage(error.references, rows.Keys);
    if named.Some? then id == named.value else FailedIds(rows) == {id}
  }

  ghost function AttributedErrors(errors: seq<MissionError>, rows: Rows, id: Uuid): seq<MissionError> {
    if errors == [] then []
    else
      var earlier := AttributedErrors(errors[..|errors| - 1], rows, id);
      if AttributedTo(Last(errors), rows, id) then earlier + [Last(errors)] else earlier
  }

  // Each stage gets exactly the errors that belong to it, in their order; a stage with none is absent.
  method AttributeErrors(errors: seq<MissionError>, rows: Rows) returns (byStage: map<Uuid, seq<MissionError>>)
    ensures forall id :: (id in byStage <==> AttributedErrors(errors, rows, id) != [])
                         && (id in byStage ==> byStage[id] == AttributedErrors(errors, rows, id))
  {
    byStage := map[];
    var failed := FailedIds(rows);
    for i := 0 to |errors|
      invariant forall id :: (id in byStage <==> AttributedErrors(errors[..i], rows, id) != [])
                             && (id in byStage ==> byStage[id] == AttributedErrors(errors[..i], rows, id))
    {
      assert errors[..i + 1][..i] == errors[..i];
      var named := ReferencedStage(errors[i].references, rows.Keys);
      var target := None;
      if named.Some? {
        target := named;
      } else if |failed| == 1 {
        var sole :| sole in failed;
        SingletonOf(failed, sole);
        target := Some(sole);
      }
      forall id ensures AttributedTo(errors[i], rows, id) <==> target == Some(id) {
      }
      if target.Some? {
        byStage := byStage[target.value :=
                             (if target.value in byStage then byStage[target.value] else []) + [errors[i]]];
      }
    }
    assert errors[..|errors|] == errors;
  }

  lemma {:induction false} SingletonOf(s: set<Uuid>, x: Uuid)
    requires x in s && |s| == 1
    ensures s == {x}
  {
    assert |s - {x}| == 0;
  }

  // The error's first stage reference is to this stage.
  ghost predicate NamesFirst(references: seq<ErrorReference>, id: Uuid) {
    exists k :: 0 <= k < |references| && references[k] == StageReference(Some(id))
                && forall j :: 0 <= j < k ==> references[j].OtherReference?
  }

  lemma {:induction false} NamesFirstCons(references: seq<ErrorReference>, id: Uuid)
    requires references != []
    ensures NamesFirst(references, id) <==>
            references[0] == StageReference(Some(id)) || (references[0].OtherReference? && NamesFirst(references[1..], id))
  {
    var rest := references[1..];
    if NamesFirst(rest, id) && references[0].OtherReference? {
      var k :| 0 <= k < |rest| && rest[k] == StageReference(Some(id)) && forall j :: 0 <= j < k ==> rest[j].OtherReference?;
      assert references[k + 1] == StageReference(Some(id));
    }
    if NamesFirst(references, id) {
      var k :| 0 <= k < |references| && references[k] == StageReference(Some(id))
               && forall j :: 0 <= j < k ==> references[j].OtherReference?;
      assert k > 0 ==> rest[k - 1] == StageReference(Some(id));
    }
  }

  lemma {:induction false} ReferencedIff(references: seq<ErrorReference>, ids: set<Uuid>, id: Uuid)
    ensures ReferencedStage(references, ids) == Some(id) <==> NamesFirst(references, id) && id in ids
  {
    if references != [] {
      NamesFirstCons(references, id);
      ReferencedIff(references[1..], ids, id);
    }
  }

  lemma {:induction false} SoleFailed(rows: Rows, id: Uuid)
    ensures FailedIds(rows) == {id} <==>
            && id in rows && rows[id].status == StageFailed
            && forall other :: other in rows && rows[other].status == StageFailed ==> other == id
  {
    if FailedIds(rows) == {id} {
      assert id in FailedIds(rows);
      assert forall other :: other in rows && rows[other].status == StageFailed ==> other in FailedIds(rows);
    }
  }

  // An error belongs to the run's stage its first stage reference names; if it names none of the run's, to
  // the one failed stage, provided exactly one failed.
  lemma {:induction false} AttributedIff(error: MissionError, rows: Rows, id: Uuid)
    ensures AttributedTo(error, rows, id) <==>
            && id in rows
            && if exists other :: other in rows && NamesFirst(error.references, other) then NamesFirst(error.references, id)
               else rows[id].status == StageFailed
                    && forall other :: other in rows && rows[other].status == StageFailed ==> other == id
  {
    forall other ensures ReferencedStage(error.references, rows.Keys) == Some(other) <==>
                         NamesFirst(error.references, other) && other in rows.Keys
    {
      ReferencedIff(error.references, rows.Keys, other);
    }
    var named := ReferencedStage(error.references, rows.Keys);
    if named.Some? {
      assert NamesFirst(error.references, named.value);
    } else {
      SoleFailed(rows, id);
    }
  }

  // No error is attributed twice.
  lemma {:induction false} AttributionIsUnique(error: MissionError, rows: Rows, a: Uuid, b: Uuid)
    requires AttributedTo(error, rows, a) && AttributedTo(error, rows, b)
    ensures a == b
  {}
}
