/**
 Runs and the store they live in: one row per run with its plan, its transition log and its stage
 rows. The status write is a compare-and-set that appends to the log.
 */
module Runs {
  import opened Wrappers
  import opened Lifecycle
  import opened Mission
  import opened StageState

  // One recorded status change.
  datatype Transition = Transition(from: RunStatus, to: RunStatus, trigger: RunTrigger, actor: Actor,
                                   reportHeaderId: Option<nat>, acknowledged: Option<bool>)

  datatype LastReport = LastReport(receivedAt: Time, headerId: nat, exec: ExecStatus, robotTimestamp: Time)

  datatype Run = Run(
    missionId: Uuid,
    robotId: RobotId,
    status: RunStatus,
    stages: seq<Stage>,
    failureErrors: seq<MissionError>,
    createdAt: Time,
    dispatchedAt: Option<Time>,
    startedAt: Option<Time>,
    endedAt: Option<Time>,
    lastReport: Option<LastReport>,
    log: seq<Transition>,
    rows: Rows)

  type RunTable = map<Uuid, Run>

  // ---------- The statements, on one run ----------

  datatype StatusWrite = StatusWrite(
    to: RunStatus,
    expected: RunStatus,
    trigger: RunTrigger,
    reportHeaderId: Option<nat>,
    acknowledged: Option<bool>,
    errors: Option<seq<MissionError>>,
    dispatchedAt: Option<Time>)

  // A write with nothing but the transition itself.
  function PlainWrite(to: RunStatus, expected: RunStatus, trigger: RunTrigger): StatusWrite {
    StatusWrite(to, expected, trigger, None, None, None, None)
  }

  // The compare-and-set applies only to a live run still in the expected state.
  predicate Applies(run: Run, w: StatusWrite) {
    run.status == w.expected && !IsTerminal(run.status)
  }

  function Written(run: Run, w: StatusWrite, now: Time): Run {
    run.(
    status := w.to,
    failureErrors := if w.errors.Some? then w.errors.value else run.failureErrors,
    dispatchedAt := if w.dispatchedAt.Some? then w.dispatchedAt else run.dispatchedAt,
    startedAt := if w.to == Running && run.startedAt.None? then Some(now) else run.startedAt,
    endedAt := if IsTerminal(w.to) then Some(now) else run.endedAt,
    log := run.log + [Transition(w.expected, w.to, w.trigger, ActorOf(w.trigger), w.reportHeaderId, w.acknowledged)])
  }

  function CompareAndSet(run: Run, w: StatusWrite, now: Time): Run {
    if Applies(run, w) then Written(run, w, now) else run
  }

  // The receipt is noted on the newest transition.
  function Acknowledged(run: Run, acknowledged: bool): Run {
    if run.log == [] then run
    else run.(log := run.log[|run.log| - 1 := Last(run.log).(acknowledged := Some(acknowledged))])
  }

  function MarkedDispatched(run: Run, when: Time): Run {
    if run.dispatchedAt.None? then run.(dispatchedAt := Some(when)) else run
  }

  // The record replaces its stage's row if its counter is larger, or where there is no row yet.
  function UpsertRow(rows: Rows, record: StageRecord): Rows {
    if record.stageId in rows && record.headerId <= rows[record.stageId].headerId then rows
    else rows[record.stageId := record]
  }

  function UpsertRows(rows: Rows, records: seq<StageRecord>): Rows {
    if records == [] then rows
    else UpsertRow(UpsertRows(rows, records[..|records| - 1]), Last(records))
  }

  // ---------- The store ----------

  class RunStore {
    var runs: RunTable

    constructor ()
      ensures runs == map[]
    {
      runs := map[];
    }

    // Inserts a run unless its robot already holds an active one: the partial unique index.
    method Create(id: Uuid, run: Run) returns (ok: bool)
      requires id !in runs
      modifies this
      ensures ok <==> !RobotHolds(old(runs), run.robotId)
      ensures runs == if ok then old(runs)[id := run] else old(runs)
    {
      ok := !RobotHolds(runs, run.robotId);
      if ok {
        runs := runs[id := run];
      }
    }

    method Get(id: Uuid) returns (run: Option<Run>)
      ensures run == Lookup(runs, id)
    {
      run := Lookup(runs, id);
    }

    method UpdateStatus(id: Uuid, w: StatusWrite, now: Time) returns (updated: Option<Run>)
      modifies this
      ensures updated.Some? <==> id in old(runs) && Applies(old(runs)[id], w)
      ensures updated.Some? ==> runs == old(runs)[id := updated.value] && updated.value == Written(old(runs)[id], w, now)
      ensures updated.None? ==> runs == old(runs)
    {
      if id !in runs || runs[id].status != w.expected || IsTerminal(runs[id].status) {
        return None;
      }
      var run := runs[id];
      run := run.(status := w.to);
      if w.errors.Some? {
        run := run.(failureErrors := w.errors.value);
      }
      if w.dispatchedAt.Some? {
        run := run.(dispatchedAt := w.dispatchedAt);
      }
      if w.to == Running && run.startedAt.None? {
        run := run.(startedAt := Some(now));
      }
      if IsTerminal(w.to) {
        run := run.(endedAt := Some(now));
      }
      var row := Transition(w.expected, w.to, w.trigger, ActorOf(w.trigger), w.reportHeaderId, w.acknowledged);
      run := run.(log := run.log + [row]);
      runs := runs[id := run];
      updated := Some(run);
    }

    method SetAcknowledged(id: Uuid, acknowledged: bool)
      modifies this
      ensures runs == if id in old(runs) then old(runs)[id := Acknowledged(old(runs)[id], acknowledged)] else old(runs)
    {
      if id in runs {
        var run := runs[id];
        if run.log != [] {
          run := run.(log := run.log[|run.log| - 1 := Last(run.log).(acknowledged := Some(acknowledged))]);
        }
        runs := runs[id := run];
      }
    }

    method MarkDispatchedAt(id: Uuid, when: Time)
      modifies this
      ensures runs == if id in old(runs) then old(runs)[id := MarkedDispatched(old(runs)[id], when)] else old(runs)
    {
      if id in runs {
        runs := runs[id := MarkedDispatched(runs[id], when)];
      }
    }

    method TouchLastReport(id: Uuid, report: LastReport)
      modifies this
      ensures runs == if id in old(runs) then old(runs)[id := old(runs)[id].(lastReport := Some(report))] else old(runs)
    {
      if id in runs {
        runs := runs[id := runs[id].(lastReport := Some(report))];
      }
    }

    method UpsertStageRuns(id: Uuid, records: seq<StageRecord>)
      modifies this
      ensures runs == if id in old(runs) then old(runs)[id := old(runs)[id].(rows := UpsertRows(old(runs)[id].rows, records))]
                      else old(runs)
    {
      if id !in runs {
        return;
      }
      var rows := runs[id].rows;
      for i := 0 to |records|
        invariant rows == UpsertRows(runs[id].rows, records[..i])
      {
        var record := records[i];
        assert records[..i + 1][..i] == records[..i];
        if record.stageId !in rows || rows[record.stageId].headerId < record.headerId {
          rows := rows[record.stageId := record];
        }
      }
      assert records[..|records|] == records;
      runs := runs[id := runs[id].(rows := rows)];
    }

    method OverwriteStageRuns(id: Uuid, rows: Rows)
      modifies this
      ensures runs == if id in old(runs) then old(runs)[id := old(runs)[id].(rows := old(runs)[id].rows + rows)]
                      else old(runs)
    {
      if id in runs {
        runs := runs[id := runs[id].(rows := runs[id].rows + rows)];
      }
    }

    // The robot's active runs, in no particular order.
    method ListActiveByRobot(robotId: RobotId) returns (ids: seq<Uuid>)
      ensures NoDuplicates(ids)
      ensures forall id :: id in ids <==> id in runs && runs[id].robotId == robotId && IsActive(runs[id].status)
    {
      ids := Listing(set id | id in runs && runs[id].robotId == robotId && IsActive(runs[id].status));
    }

    // Every active run, in no particular order.
    method ListActive() returns (ids: seq<Uuid>)
      ensures NoDuplicates(ids)
      ensures forall id :: id in ids <==> id in runs && IsActive(runs[id].status)
    {
      ids := Listing(set id | id in runs && IsActive(runs[id].status));
    }

    method Delete(id: Uuid)
      modifies this
      ensures runs == old(runs) - {id}
    {
      runs := runs - {id};
    }
  }

  function Lookup(runs: RunTable, id: Uuid): Option<Run> {
    if id in runs then Some(runs[id]) else None
  }

  predicate RobotHolds(runs: RunTable, robotId: RobotId) {
    exists id :: id in runs && runs[id].robotId == robotId && IsActive(runs[id].status)
  }

  predicate MissionActive(runs: RunTable, missionId: Uuid) {
    exists id :: id in runs && runs[id].missionId == missionId && IsActive(runs[id].status)
  }

  method Listing(ids: set<Uuid>) returns (listing: seq<Uuid>)
    ensures NoDuplicates(listing)
    ensures forall id :: id in listing <==> id in ids
  {
    var left := ids;
    listing := [];
    while left != {}
      invariant left <= ids
      invariant forall id :: id in listing <==> id in ids && id !in left
      invariant NoDuplicates(listing)
      decreases left
    {
      var id :| id in left;
      listing := listing + [id];
      left := left - {id};
    }
  }
}
