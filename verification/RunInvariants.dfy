/**
 What every step keeps of one run: its log is a path through the transition table, a pause or resume is
 only confirmed by a later report, and its stage rows fit its plan and are complete once it ends.
 */
module RunInvariants {
  import opened Wrappers
  import opened Lifecycle
  import opened Mission
  import opened StageState
  import opened Runs
  import opened RunSteps

  // ---------- The log ----------

  // A row of the table, or the note that a dispatch went unconfirmed.
  ghost predicate Legal(t: Transition) {
    && t.actor == ActorOf(t.trigger)
    && (TryNextState(t.from, t.trigger) == Some(t.to)
        || (t.from == Pending && t.to == Pending && t.trigger == DispatchUnconfirmed))
  }

  // The log is a chain of legal rows from Pending to the run's status.
  ghost predicate LogIsPath(log: seq<Transition>, status: RunStatus) {
    && (forall i :: 0 <= i < |log| ==> Legal(log[i]))
    && (forall i :: 0 < i < |log| ==> log[i - 1].to == log[i].from)
    && (if log == [] then status == Pending else log[0].from == Pending && Last(log).to == status)
  }

  // A robot's report taking a pause or resume as done.
  predicate IsConfirmation(t: Transition) {
    || (t.from == Pausing && t.to == Paused)
    || (t.from == Resuming && t.to == Running)
  }

  // The confirming report is newer than the request it confirms, which is the row before it.
  ghost predicate Confirms(request: Transition, confirmation: Transition) {
    && request.to == confirmation.from
    && request.trigger == (if confirmation.from == Pausing then PauseRequest else ResumeRequest)
    && confirmation.trigger == (if confirmation.from == Pausing then Pause else Ack)
    && request.reportHeaderId.Some? && confirmation.reportHeaderId.Some?
    && confirmation.reportHeaderId.value > request.reportHeaderId.value
  }

  ghost predicate ConfirmationsAreLater(log: seq<Transition>) {
    forall i :: 0 <= i < |log| && IsConfirmation(log[i]) ==> i > 0 && Confirms(log[i - 1], log[i])
  }

  // Every request to pause or resume notes the report counter it was made at.
  ghost predicate RequestsAreStamped(log: seq<Transition>) {
    forall i :: 0 <= i < |log| && log[i].to in {Pausing, Resuming} ==>
      log[i].reportHeaderId.Some? && log[i].trigger == (if log[i].to == Pausing then PauseRequest else ResumeRequest)
  }

  // The three of them, row by row from the newest.
  ghost predicate LogOk(log: seq<Transition>, status: RunStatus)
    decreases |log|
  {
    if log == [] then status == Pending
    else
      var row, earlier := Last(log), log[..|log| - 1];
      && row.to == status
      && Legal(row)
      && (row.to in {Pausing, Resuming} ==>
            row.reportHeaderId.Some? && row.trigger == (if row.to == Pausing then PauseRequest else ResumeRequest))
      && (IsConfirmation(row) ==> earlier != [] && Confirms(Last(earlier), row))
      && LogOk(earlier, row.from)
  }

  lemma {:induction false} PathGrows(earlier: seq<Transition>, row: Transition)
    requires LogIsPath(earlier, row.from) && Legal(row)
    ensures LogIsPath(earlier + [row], row.to)
  {
    var log := earlier + [row];
    forall i | 0 < i < |log| ensures log[i - 1].to == log[i].from {
      if i < |earlier| {
        assert earlier[i - 1].to == earlier[i].from;
      }
    }
  }

  lemma {:induction false} ConfirmationsGrow(earlier: seq<Transition>, row: Transition)
    requires ConfirmationsAreLater(earlier)
    requires IsConfirmation(row) ==> earlier != [] && Confirms(Last(earlier), row)
    ensures ConfirmationsAreLater(earlier + [row])
  {}

  lemma {:induction false} StampsGrow(earlier: seq<Transition>, row: Transition)
    requires RequestsAreStamped(earlier)
    requires row.to in {Pausing, Resuming} ==>
               row.reportHeaderId.Some? && row.trigger == (if row.to == Pausing then PauseRequest else ResumeRequest)
    ensures RequestsAreStamped(earlier + [row])
  {}

  lemma {:induction false} LogOkMeans(log: seq<Transition>, status: RunStatus)
    requires LogOk(log, status)
    ensures LogIsPath(log, status) && ConfirmationsAreLater(log) && RequestsAreStamped(log)
    decreases |log|
  {
    if log != [] {
      var row, earlier := Last(log), log[..|log| - 1];
      LogOkMeans(earlier, row.from);
      assert log == earlier + [row];
      PathGrows(earlier, row);
      ConfirmationsGrow(earlier, row);
      StampsGrow(earlier, row);
    }
  }

  // ---------- The stage rows ----------

  ghost predicate RowsOk(run: Run) {
    && DistinctIds(run.stages)
    && InPlan(run.rows, run.stages)
    && (run.status == Pending ==> run.rows == map[])
    && (IsTerminal(run.status) ==> ViewComplete(run.rows, run.stages))
  }

  ghost predicate RunOk(run: Run) {
    LogOk(run.log, run.status) && RowsOk(run)
  }

  // ---------- Writes keep the log ----------

  // The write follows the table, or is the unconfirmed note.
  ghost predicate LegalWrite(w: StatusWrite) {
    || TryNextState(w.expected, w.trigger) == Some(w.to)
    || (w.expected == Pending && w.to == Pending && w.trigger == DispatchUnconfirmed)
  }

  // A request is stamped, and a confirmation is newer than the request before it.
  ghost predicate StampedWrite(w: StatusWrite, log: seq<Transition>) {
    && (w.to in {Pausing, Resuming} ==> w.reportHeaderId.Some?)
    && (w.expected in {Pausing, Resuming} && w.to in {Paused, Running} ==>
          && w.reportHeaderId.Some?
          && log != [] && Last(log).reportHeaderId.Some?
          && w.reportHeaderId.value > Last(log).reportHeaderId.value)
  }

  lemma {:induction false} WriteKeepsLog(run: Run, w: StatusWrite, now: Time)
    requires LogOk(run.log, run.status) && Applies(run, w) && LegalWrite(w) && StampedWrite(w, run.log)
    ensures LogOk(Written(run, w, now).log, w.to)
  {
    var log := Written(run, w, now).log;
    assert log[..|log| - 1] == run.log;
    if TryNextState(w.expected, w.trigger).Some? {
      RequestsAreHeld(w.expected, w.trigger);
    }
  }

  // ---------- Writes keep the rows ----------

  lemma {:induction false} Absorbed(rows: Rows, wider: Rows)
    requires rows.Keys <= wider.Keys
    ensures rows + wider == wider
  {}

  lemma {:induction false} SettleKeepsRows(run: Run, overlay: Rows, now: Time)
    requires DistinctIds(run.stages) && InPlan(run.rows, run.stages) && InPlan(overlay, run.stages)
    requires IsTerminal(run.status)
    ensures RowsOk(Settled(run, overlay, now))
    ensures Settled(run, overlay, now).rows == FinalRows(run.stages, run.rows + overlay, run.status, now)
  {
    var live := run.rows + overlay;
    var final := FinalRows(run.stages, live, run.status, now);
    assert run.rows.Keys <= final.Keys by {
      FinalRowsResolve(run.stages, live, run.status, now);
    }
    Absorbed(run.rows, final);
    FinalRowsComplete(run.stages, live, run.status, now);
  }

  lemma {:induction false} UpsertKeepsInPlan(rows: Rows, records: seq<StageRecord>, stages: seq<Stage>)
    requires InPlan(rows, stages) && RecordsInPlan(records, stages)
    ensures InPlan(UpsertRows(rows, records), stages)
  {
    if records != [] {
      UpsertKeepsInPlan(rows, records[..|records| - 1], stages);
    }
  }

  // ---------- The steps ----------

  lemma {:induction false} SettleKeepsOk(run: Run, outcome: DispatchOutcome, repliedAt: Time, now: Time)
    requires RunOk(run)
    ensures RunOk(SettleRun(run, outcome, repliedAt, now).run)
  {
    match outcome
    case Accepted =>
      var w := PlainWrite(Dispatched, Pending, Accept).(dispatchedAt := Some(repliedAt));
      if Applies(run, w) {
        WriteKeepsLog(run, w, now);
      }
    case Declined =>
      if run.status in {Pending, Cancelling} {
        var target := if run.status == Cancelling then Cancelled else Rejected;
        var w := PlainWrite(target, run.status, Reject).(errors := Some([DISPATCH_REJECTED]));
        WriteKeepsLog(run, w, now);
        SettleKeepsRows(Written(run, w, now), map[], now);
      }
    case _ =>
      if run.status == Pending {
        var w := PlainWrite(Pending, Pending, DispatchUnconfirmed).(errors := Some([DISPATCH_WARNING]));
        WriteKeepsLog(run, w, now);
      }
  }

  lemma {:induction false} AcknowledgeKeepsOk(run: Run, acknowledged: bool)
    requires RunOk(run)
    ensures RunOk(Acknowledged(run, acknowledged))
  {}

  // A legal write into a live state keeps the run in order: the plan and the rows are untouched.
  lemma {:induction false} LiveWriteKeepsOk(run: Run, w: StatusWrite, now: Time)
    requires RunOk(run) && Applies(run, w) && LegalWrite(w) && StampedWrite(w, run.log)
    requires !IsTerminal(w.to) && (w.to == Pending ==> w.expected == Pending)
    ensures RunOk(Written(run, w, now))
  {
    WriteKeepsLog(run, w, now);
  }

  // A legal write into a terminal state, with the stages closed out, keeps the run in order.
  lemma {:induction false} FinalWriteKeepsOk(run: Run, w: StatusWrite, overlay: Rows, now: Time)
    requires RunOk(run) && Applies(run, w) && LegalWrite(w) && StampedWrite(w, run.log)
    requires IsTerminal(w.to) && InPlan(overlay, run.stages)
    ensures RunOk(Settled(Written(run, w, now), overlay, now))
  {
    WriteKeepsLog(run, w, now);
    SettleKeepsRows(Written(run, w, now), overlay, now);
  }

  // Noting the receipt of a request just recorded leaves the rows before it alone.
  lemma {:induction false} AcknowledgedAddsOne(run: Run, w: StatusWrite, now: Time, acknowledged: bool)
    ensures run.log <= Acknowledged(Written(run, w, now), acknowledged).log
  {}

  function CancelWrite(seen: Seen): StatusWrite {
    PlainWrite(Cancelling, seen.status, CancelRequest).(reportHeaderId := Some(seen.headerId))
  }

  // Every outcome of a cancel is the run untouched, asked and noted, or asked and abandoned.
  lemma {:induction false} CancelCases(run: Run, seen: Seen, mode: CancelMode, offline: bool, reply: ControlReply,
                                       now: Time)
    ensures var after, asked := CancelRun(run, seen, mode, offline, reply, now).run, Written(run, CancelWrite(seen), now);
            || after == run
            || (&& Applies(run, CancelWrite(seen)) && LegalWrite(CancelWrite(seen))
                && (|| after == Acknowledged(asked, true)
                    || after == Acknowledged(asked, false)
                    || after == Settled(Written(Acknowledged(asked, false), PlainWrite(Cancelled, Cancelling, Reconcile), now),
                                        map[], now)))
  {}

  lemma {:induction false} CancelKeepsOk(run: Run, seen: Seen, mode: CancelMode, offline: bool, reply: ControlReply,
                                         now: Time)
    requires RunOk(run)
    ensures RunOk(CancelRun(run, seen, mode, offline, reply, now).run)
  {
    CancelCases(run, seen, mode, offline, reply, now);
    if CancelRun(run, seen, mode, offline, reply, now).run != run {
      CancelledOk(run, seen, now);
    }
  }

  lemma {:induction false} CancelledOk(run: Run, seen: Seen, now: Time)
    requires RunOk(run) && Applies(run, CancelWrite(seen)) && LegalWrite(CancelWrite(seen))
    ensures var asked := Written(run, CancelWrite(seen), now);
            && RunOk(Acknowledged(asked, true))
            && RunOk(Acknowledged(asked, false))
            && RunOk(Settled(Written(Acknowledged(asked, false), PlainWrite(Cancelled, Cancelling, Reconcile), now),
                             map[], now))
  {
    var asked := Written(run, CancelWrite(seen), now);
    LiveWriteKeepsOk(run, CancelWrite(seen), now);
    AcknowledgeKeepsOk(asked, true);
    AcknowledgeKeepsOk(asked, false);
    FinalWriteKeepsOk(Acknowledged(asked, false), PlainWrite(Cancelled, Cancelling, Reconcile), map[], now);
  }

  lemma {:induction false} CloseKeepsOk(run: Run, seen: Seen, offline: bool, now: Time)
    requires RunOk(run)
    ensures RunOk(CloseRun(run, seen, offline, now).run)
  {
    var w := PlainWrite(Cancelled, seen.status, Close);
    if Applies(run, w) {
      FinalWriteKeepsOk(run, w, map[], now);
    }
  }

  lemma {:induction false} SteerKeepsOk(run: Run, seen: Seen, pause: bool, offline: bool, reply: ControlReply,
                                        now: Time)
    requires RunOk(run)
    ensures RunOk(SteerRun(run, seen, pause, offline, reply, now).run)
  {
    var trigger := if pause then PauseRequest else ResumeRequest;
    var target := TryNextState(seen.status, trigger);
    if target.Some? {
      RequestsAreHeld(seen.status, trigger);
      var w := PlainWrite(target.value, seen.status, trigger)
               .(reportHeaderId := Some(seen.headerId), acknowledged := Some(true));
      if Applies(run, w) {
        LiveWriteKeepsOk(run, w, now);
      }
    }
  }

  lemma {:induction false} ReportIsStamped(run: Run, frame: Frame)
    requires LogOk(run.log, run.status) && ReportTransition(run, frame).Some?
    ensures var w := ReportWrite(run, frame, ReportTransition(run, frame).value);
            LegalWrite(w) && StampedWrite(w, run.log)
  {}

  lemma {:induction false} MergeKeepsOk(run: Run, live: seq<StageRecord>)
    requires RunOk(run) && RecordsInPlan(live, run.stages) && !IsTerminal(run.status)
    ensures RunOk(MergeLive(run, run.status, live))
  {
    UpsertKeepsInPlan(run.rows, live, run.stages);
  }

  lemma {:induction false} RecordKeepsOk(run: Run, robotId: RobotId, frame: Frame, now: Time)
    requires RunOk(run)
    ensures RunOk(RecordRun(run, robotId, frame, now))
  {
    if !IsTerminal(run.status) {
      var live, move, touched := LiveRecords(frame, run.stages), ReportTransition(run, frame), Touched(run, frame, now);
      LiveInPlan(frame, run.stages, |frame.stageStates|);
      if move.None? {
        MergeKeepsOk(touched, live);
      } else {
        MovedOk(run, frame, move.value, now);
      }
    }
  }

  lemma {:induction false} MovedOk(run: Run, frame: Frame, move: (RunStatus, RunTrigger), now: Time)
    requires RunOk(run) && !IsTerminal(run.status) && ReportTransition(run, frame) == Some(move)
    ensures var live, moved := LiveRecords(frame, run.stages), Written(Touched(run, frame, now), ReportWrite(run, frame, move), now);
            RunOk(if IsTerminal(moved.status) then Settled(moved, RowsOf(live), now) else MergeLive(moved, moved.status, live))
  {
    var live, touched, w := LiveRecords(frame, run.stages), Touched(run, frame, now), ReportWrite(run, frame, move);
    assert RunOk(touched);
    LiveInPlan(frame, run.stages, |frame.stageStates|);
    ReportIsStamped(run, frame);
    if IsTerminal(w.to) {
      RowsOfInPlan(live, run.stages);
      FinalWriteKeepsOk(touched, w, RowsOf(live), now);
    } else {
      LiveWriteKeepsOk(touched, w, now);
      MergeKeepsOk(Written(touched, w, now), live);
    }
  }

  lemma {:induction false} SweepKeepsOk(run: Run, seen: Run, id: Uuid, sweep: Sweep)
    requires RunOk(run)
    ensures RunOk(SweepRun(run, seen, id, sweep).run)
  {
    if !SweepSkips(sweep, id, seen) && Applies(run, SweepWrite(seen)) {
      WriteKeepsLog(run, SweepWrite(seen), sweep.now);
      SettleKeepsRows(Written(run, SweepWrite(seen), sweep.now), map[], sweep.now);
    }
  }
}
