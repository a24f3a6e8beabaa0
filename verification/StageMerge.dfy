/**
 Live stage rows are a last-writer-wins merge of the robot's frames: what each row holds while a run is
 executing depends on which frames arrived, not on their order or on how often.
 */
module StageMerge {
  import opened Wrappers
  import opened Lifecycle
  import opened Mission
  import opened StageState
  import opened Runs
  import opened RunSteps
  import opened RunInvariants
  import opened RunWorld
  import opened RunTheorems

  // ---------- One frame ----------

  // What the first n stage reports of a frame say of a stage the plan knows.
  function RecordUpTo(frame: Frame, places: map<Uuid, PlanPlace>, id: Uuid, n: nat): Option<StageRecord>
    requires n <= |frame.stageStates|
  {
    if n == 0 || id !in places then None
    else
      var earlier := RecordUpTo(frame, places, id, n - 1);
      if earlier.Some? || frame.stageStates[n - 1].stageId != id then earlier
      else Some(LiveRecord(frame, frame.stageStates[n - 1], places[id]))
  }

  function RecordFor(frame: Frame, stages: seq<Stage>, id: Uuid): Option<StageRecord> {
    RecordUpTo(frame, Places(stages), id, |frame.stageStates|)
  }

  lemma {:induction false} RecordIsOfFrame(frame: Frame, places: map<Uuid, PlanPlace>, id: Uuid, n: nat)
    requires n <= |frame.stageStates|
    ensures RecordUpTo(frame, places, id, n).Some? <==>
            id in places && exists i :: 0 <= i < n && frame.stageStates[i].stageId == id
    ensures RecordUpTo(frame, places, id, n).Some? ==>
              var record := RecordUpTo(frame, places, id, n).value;
              && record.stageId == id && record.headerId == frame.headerId
              && record.sourceTs == frame.timestamp && record.source == ByRobot
  {
    if n > 0 {
      RecordIsOfFrame(frame, places, id, n - 1);
    }
  }

  // The row of a stage after a record of it is offered.
  function Offered(row: Option<StageRecord>, record: Option<StageRecord>): Option<StageRecord> {
    if record.None? || (row.Some? && record.value.headerId <= row.value.headerId) then row else record
  }

  lemma {:induction false} UpsertsOfConcat(rows: Rows, records: seq<StageRecord>, record: StageRecord)
    ensures UpsertRows(rows, records + [record]) == UpsertRow(UpsertRows(rows, records), record)
  {}

  lemma {:induction false} OneOffers(rows: Rows, record: StageRecord, id: Uuid)
    ensures LiveAt(UpsertRow(rows, record), id) ==
            Offered(LiveAt(rows, id), if record.stageId == id then Some(record) else None)
  {}

  // Writing a frame's records offers each stage the frame's record of it, and nothing else.
  lemma {:induction false} FrameOffers(rows: Rows, frame: Frame, places: map<Uuid, PlanPlace>, id: Uuid, n: nat)
    requires n <= |frame.stageStates|
    ensures LiveAt(UpsertRows(rows, LiveUpTo(frame, places, n)), id) ==
            Offered(LiveAt(rows, id), RecordUpTo(frame, places, id, n))
  {
    if n > 0 {
      FrameOffers(rows, frame, places, id, n - 1);
      RecordIsOfFrame(frame, places, id, n - 1);
      var report, earlier := frame.stageStates[n - 1], LiveUpTo(frame, places, n - 1);
      if report.stageId in places {
        var record := LiveRecord(frame, report, places[report.stageId]);
        UpsertsOfConcat(rows, earlier, record);
        OneOffers(UpsertRows(rows, earlier), record, id);
      } else {
        assert earlier + [] == earlier;
      }
    }
  }

  // ---------- Many frames ----------

  function Merged(rows: Rows, frames: seq<Frame>, stages: seq<Stage>): Rows
    decreases |frames|
  {
    if frames == [] then rows
    else Merged(UpsertRows(rows, LiveRecords(frames[0], stages)), frames[1..], stages)
  }

  // The row is the record of a frame that no frame naming the stage has a higher counter than; there is
  // one exactly when some frame names the stage. `first` is the row there was before the frames.
  ghost predicate IsNewest(first: Option<StageRecord>, frames: seq<Frame>, stages: seq<Stage>, id: Uuid,
                           row: Option<StageRecord>)
  {
    && (row.None? ==> first.None?)
    && (row.Some? ==>
          || first == row
          || exists i :: 0 <= i < |frames| && RecordFor(frames[i], stages, id) == row)
    && (first.Some? ==> row.Some? && first.value.headerId <= row.value.headerId)
    && (forall i :: 0 <= i < |frames| && RecordFor(frames[i], stages, id).Some? ==>
                      row.Some? && frames[i].headerId <= row.value.headerId)
  }

  lemma {:induction false} NewestOfMore(first: Option<StageRecord>, frames: seq<Frame>, stages: seq<Stage>, id: Uuid,
                                        row: Option<StageRecord>)
    requires frames != []
    requires IsNewest(Offered(first, RecordFor(frames[0], stages, id)), frames[1..], stages, id, row)
    ensures IsNewest(first, frames, stages, id, row)
  {
    var offered := RecordFor(frames[0], stages, id);
    RecordIsOfFrame(frames[0], Places(stages), id, |frames[0].stageStates|);
    if row.Some? && first != row && offered != row {
      var i :| 0 <= i < |frames[1..]| && RecordFor(frames[1..][i], stages, id) == row;
      assert frames[i + 1] == frames[1..][i];
    }
    forall i | 0 <= i < |frames| && RecordFor(frames[i], stages, id).Some?
      ensures row.Some? && frames[i].headerId <= row.value.headerId
    {
      if i > 0 {
        assert frames[1..][i - 1] == frames[i];
      }
    }
  }

  // Each row is the one from the highest counter among the frames naming its stage.
  lemma {:induction false} LastWriterWins(rows: Rows, frames: seq<Frame>, stages: seq<Stage>, id: Uuid)
    ensures IsNewest(LiveAt(rows, id), frames, stages, id, LiveAt(Merged(rows, frames, stages), id))
    decreases |frames|
  {
    if frames != [] {
      FrameOffers(rows, frames[0], Places(stages), id, |frames[0].stageStates|);
      LastWriterWins(UpsertRows(rows, LiveRecords(frames[0], stages)), frames[1..], stages, id);
      NewestOfMore(LiveAt(rows, id), frames, stages, id, LiveAt(Merged(rows, frames, stages), id));
    }
  }

  // A frame no newer than the row of each stage it names changes no row: a repeated one, or one overtaken.
  lemma {:induction false} StaleFrameChangesNothing(rows: Rows, frame: Frame, stages: seq<Stage>)
    requires forall i :: 0 <= i < |frame.stageStates| && frame.stageStates[i].stageId in Places(stages) ==>
               && frame.stageStates[i].stageId in rows
               && frame.headerId <= rows[frame.stageStates[i].stageId].headerId
    ensures UpsertRows(rows, LiveRecords(frame, stages)) == rows
  {
    forall id ensures LiveAt(UpsertRows(rows, LiveRecords(frame, stages)), id) == LiveAt(rows, id) {
      FrameOffers(rows, frame, Places(stages), id, |frame.stageStates|);
      RecordIsOfFrame(frame, Places(stages), id, |frame.stageStates|);
    }
    SameRows(UpsertRows(rows, LiveRecords(frame, stages)), rows);
  }

  // The robot's counter tells its frames apart; a redelivered frame is the same frame.
  ghost predicate CountersTellApart(frames: seq<Frame>) {
    forall i, j :: 0 <= i < |frames| && 0 <= j < |frames| && frames[i].headerId == frames[j].headerId ==>
                     frames[i] == frames[j]
  }

  lemma {:induction false} NewestReaches(a: seq<Frame>, b: seq<Frame>, stages: seq<Stage>, id: Uuid,
                                         x: Option<StageRecord>, y: Option<StageRecord>)
    requires forall f :: f in a ==> f in b
    requires IsNewest(None, a, stages, id, x) && IsNewest(None, b, stages, id, y)
    ensures x.Some? ==> y.Some? && x.value.headerId <= y.value.headerId
    ensures x.Some? ==> exists k :: 0 <= k < |b| && RecordFor(b[k], stages, id) == x && b[k].headerId == x.value.headerId
  {
    if x.Some? {
      var i :| 0 <= i < |a| && RecordFor(a[i], stages, id) == x;
      RecordIsOfFrame(a[i], Places(stages), id, |a[i].stageStates|);
      assert a[i] in b;
      var k :| 0 <= k < |b| && b[k] == a[i];
      assert RecordFor(b[k], stages, id) == x;
    }
  }

  lemma {:induction false} NewestIsOne(a: seq<Frame>, b: seq<Frame>, stages: seq<Stage>, id: Uuid,
                                       x: Option<StageRecord>, y: Option<StageRecord>)
    requires CountersTellApart(a) && (forall f :: f in a <==> f in b)
    requires IsNewest(None, a, stages, id, x) && IsNewest(None, b, stages, id, y)
    ensures x == y
  {
    NewestReaches(a, b, stages, id, x, y);
    NewestReaches(b, a, stages, id, y, x);
    NewestReaches(a, a, stages, id, x, x);
    if x.Some? {
      var i :| 0 <= i < |a| && RecordFor(a[i], stages, id) == x && a[i].headerId == x.value.headerId;
      var k :| 0 <= k < |a| && RecordFor(a[k], stages, id) == y && a[k].headerId == y.value.headerId;
      assert a[i] == a[k];
    }
  }

  lemma {:induction false} SameRows(x: Rows, y: Rows)
    requires forall id :: LiveAt(x, id) == LiveAt(y, id)
    ensures x == y
  {
    assert forall id :: (id in x) == (LiveAt(x, id).Some?) == (LiveAt(y, id).Some?) == (id in y);
    forall id | id in x ensures id in y && x[id] == y[id] {
      assert LiveAt(x, id) == LiveAt(y, id);
    }
    assert x.Keys == y.Keys;
  }

  // The same frames in any order, each any number of times, leave the same rows.
  lemma {:induction false} MergeIgnoresOrder(a: seq<Frame>, b: seq<Frame>, stages: seq<Stage>)
    requires CountersTellApart(a) && (forall f :: f in a <==> f in b)
    ensures Merged(map[], a, stages) == Merged(map[], b, stages)
  {
    var x, y := Merged(map[], a, stages), Merged(map[], b, stages);
    forall id: Uuid ensures LiveAt(x, id) == LiveAt(y, id) {
      LastWriterWins(map[], a, stages, id);
      LastWriterWins(map[], b, stages, id);
      NewestIsOne(a, b, stages, id, LiveAt(x, id), LiveAt(y, id));
    }
    SameRows(x, y);
  }

  // A frame from the j-th on names the stage with at least the counter.
  ghost predicate NamedFrom(frames: seq<Frame>, j: nat, stages: seq<Stage>, id: Uuid, headerId: nat) {
    exists l :: j <= l < |frames| && RecordFor(frames[l], stages, id).Some? && headerId <= frames[l].headerId
  }

  // What the first j frames say of the stage, a later frame says at least as new.
  ghost predicate Superseded(frames: seq<Frame>, j: nat, stages: seq<Stage>, id: Uuid) {
    forall i :: 0 <= i < j <= |frames| && RecordFor(frames[i], stages, id).Some? ==>
                  NamedFrom(frames, j, stages, id, frames[i].headerId)
  }

  lemma {:induction false} SupersededKeepsRow(frames: seq<Frame>, j: nat, stages: seq<Stage>, id: Uuid,
                                              x: Option<StageRecord>, y: Option<StageRecord>)
    requires CountersTellApart(frames) && j <= |frames| && Superseded(frames, j, stages, id)
    requires IsNewest(None, frames, stages, id, x) && IsNewest(None, frames[j..], stages, id, y)
    ensures x == y
  {
    NewestReaches(frames[j..], frames, stages, id, y, x);
    NewestReaches(frames, frames, stages, id, x, x);
    if x.Some? {
      var i :| 0 <= i < |frames| && RecordFor(frames[i], stages, id) == x && frames[i].headerId == x.value.headerId;
      var l := i;
      if i < j {
        assert NamedFrom(frames, j, stages, id, frames[i].headerId);
        l :| j <= l < |frames| && RecordFor(frames[l], stages, id).Some? && frames[i].headerId <= frames[l].headerId;
      }
      assert frames[j..][l - j] == frames[l];
      var k :| 0 <= k < |frames| && RecordFor(frames[k], stages, id) == y && frames[k].headerId == y.value.headerId;
      assert frames[k] == frames[i];
    }
  }

  lemma {:induction false} KeptRowSupersedes(frames: seq<Frame>, j: nat, stages: seq<Stage>, id: Uuid,
                                             x: Option<StageRecord>)
    requires j <= |frames|
    requires IsNewest(None, frames, stages, id, x) && IsNewest(None, frames[j..], stages, id, x)
    ensures Superseded(frames, j, stages, id)
  {
    NewestReaches(frames[j..], frames[j..], stages, id, x, x);
    forall i | 0 <= i < j && RecordFor(frames[i], stages, id).Some?
      ensures NamedFrom(frames, j, stages, id, frames[i].headerId)
    {
      var l :| 0 <= l < |frames[j..]| && RecordFor(frames[j..][l], stages, id) == x
               && frames[j..][l].headerId == x.value.headerId;
      assert frames[j + l] == frames[j..][l];
    }
  }

  // Losing the first j frames leaves the same rows if and only if, for every stage, whatever they said of
  // it is said at least as new by a later frame.
  lemma {:induction false} LosingFramesIff(frames: seq<Frame>, j: nat, stages: seq<Stage>)
    requires CountersTellApart(frames) && j <= |frames|
    ensures Merged(map[], frames, stages) == Merged(map[], frames[j..], stages) <==>
            forall id :: Superseded(frames, j, stages, id)
  {
    var x, y := Merged(map[], frames, stages), Merged(map[], frames[j..], stages);
    forall id ensures LiveAt(x, id) == LiveAt(y, id) <==> Superseded(frames, j, stages, id) {
      LastWriterWins(map[], frames, stages, id);
      LastWriterWins(map[], frames[j..], stages, id);
      if Superseded(frames, j, stages, id) {
        SupersededKeepsRow(frames, j, stages, id, LiveAt(x, id), LiveAt(y, id));
      }
      if LiveAt(x, id) == LiveAt(y, id) {
        KeptRowSupersedes(frames, j, stages, id, LiveAt(x, id));
      }
    }
    if forall id :: Superseded(frames, j, stages, id) {
      SameRows(x, y);
    }
  }

  // ---------- In the run protocol ----------

  // The event records a frame that leaves its run executing.
  predicate Merges(w: World, e: Event, id: Uuid) {
    && id in w.runs
    && e.FrameArrived? && e.id == id && e.robotId == w.runs[id].robotId
    && IsExecuting(RecordRun(w.runs[id], e.robotId, e.frame, e.now).status)
  }

  function FrameOf(w: World, e: Event, id: Uuid): seq<Frame> {
    if Merges(w, e, id) then [e.frame] else []
  }

  // The frames recorded for a run while it executes, in the order they came.
  function FramesFor(w: World, events: seq<Event>, id: Uuid): seq<Frame>
    decreases |events|
  {
    if events == [] then []
    else FrameOf(w, events[0], id) + FramesFor(Next(w, events[0]), events[1..], id)
  }

  function RowsIn(w: World, id: Uuid): Rows {
    if id in w.runs then w.runs[id].rows else map[]
  }

  lemma {:induction false} RecordRows(run: Run, robotId: RobotId, frame: Frame, now: Time)
    ensures var after := RecordRun(run, robotId, frame, now);
            !IsTerminal(after.status) ==>
              after.rows == if robotId == run.robotId && IsExecuting(after.status)
                            then UpsertRows(run.rows, LiveRecords(frame, run.stages)) else run.rows
  {}

  lemma {:induction false} OtherStepsKeepRows(run: Run, e: Event)
    requires !e.Prepared? && !e.ClaimStopped? && !e.DeleteAsked? && !e.FrameArrived?
    ensures IsTerminal(OnRun(run, e).run.status) || OnRun(run, e).run.rows == run.rows
  {
    if e.CancelAsked? {
      CancelCases(run, e.seen, e.mode, e.offline, e.reply, e.now);
    }
  }

  lemma {:induction false} NextRows(w: World, e: Event, id: Uuid)
    requires WorldOk(w)
    requires id in Next(w, e).runs && !IsTerminal(Next(w, e).runs[id].status)
    ensures RowsIn(Next(w, e), id) == if Merges(w, e, id)
                                      then UpsertRows(RowsIn(w, id), LiveRecords(e.frame, Next(w, e).runs[id].stages))
                                      else RowsIn(w, id)
  {
    if id in w.runs && e.FrameArrived? && e.id == id {
      OnRunFollows(w.runs[id], e);
      RecordRows(w.runs[id], e.robotId, e.frame, e.now);
    } else if id in w.runs && !e.Prepared? && !e.ClaimStopped? && !e.DeleteAsked? && e.id == id {
      OtherStepsKeepRows(w.runs[id], e);
    } else {
      OtherRunsKeepRows(w, e, id);
    }
  }

  lemma {:induction false} OtherRunsKeepRows(w: World, e: Event, id: Uuid)
    requires WorldOk(w) && id in Next(w, e).runs
    requires id !in w.runs || e.Prepared? || e.ClaimStopped? || e.DeleteAsked? || e.id != id
    ensures RowsIn(Next(w, e), id) == RowsIn(w, id)
  {}

  // While a run has not ended, its rows are the merge of the frames recorded for it, whatever its other
  // writers do in between.
  lemma {:induction false} LiveRowsAreMerged(w: World, events: seq<Event>, id: Uuid)
    requires WorldOk(w) && AllWellFormed(events)
    requires id in After(w, events).runs && !IsTerminal(After(w, events).runs[id].status)
    ensures RowsIn(After(w, events), id) ==
            Merged(RowsIn(w, id), FramesFor(w, events, id), After(w, events).runs[id].stages)
    decreases |events|
  {
    if events != [] {
      var next, rest := Next(w, events[0]), events[1..];
      assert WellFormed(events[0]);
      NextKeepsOk(w, events[0]);
      LiveRowsAreMerged(next, rest, id);
      if id in next.runs {
        RunsOnlyMoveForward(next, rest, id);
        NextRows(w, events[0], id);
      } else if id in w.runs {
        NextFollows(w, events[0], id);
        GoneStaysGone(next, rest, id);
      }
      MergedFirst(RowsIn(w, id), FrameOf(w, events[0], id), FramesFor(next, rest, id), After(w, events).runs[id].stages);
    }
  }

  lemma {:induction false} MergedFirst(rows: Rows, first: seq<Frame>, frames: seq<Frame>, stages: seq<Stage>)
    requires |first| <= 1
    ensures Merged(rows, first + frames, stages) ==
            Merged(if first == [] then rows else UpsertRows(rows, LiveRecords(first[0], stages)), frames, stages)
  {
    if first == [] {
      assert first + frames == frames;
    } else {
      assert (first + frames)[1..] == frames;
    }
  }

  // Two histories that brought a run the same frames, in whatever order and whatever else happened,
  // show the same live rows.
  lemma {:induction false} LiveRowsIgnoreOrder(first: seq<Event>, second: seq<Event>, id: Uuid)
    requires AllWellFormed(first) && AllWellFormed(second)
    requires id in After(EMPTY_WORLD, first).runs && !IsTerminal(After(EMPTY_WORLD, first).runs[id].status)
    requires id in After(EMPTY_WORLD, second).runs && !IsTerminal(After(EMPTY_WORLD, second).runs[id].status)
    requires After(EMPTY_WORLD, first).runs[id].stages == After(EMPTY_WORLD, second).runs[id].stages
    requires CountersTellApart(FramesFor(EMPTY_WORLD, first, id))
    requires forall f :: f in FramesFor(EMPTY_WORLD, first, id) <==> f in FramesFor(EMPTY_WORLD, second, id)
    ensures After(EMPTY_WORLD, first).runs[id].rows == After(EMPTY_WORLD, second).runs[id].rows
  {
    LiveRowsAreMerged(EMPTY_WORLD, first, id);
    LiveRowsAreMerged(EMPTY_WORLD, second, id);
    MergeIgnoresOrder(FramesFor(EMPTY_WORLD, first, id), FramesFor(EMPTY_WORLD, second, id), After(EMPTY_WORLD, first).runs[id].stages);
  }
}
