/**
 A dispatch reply may be recorded before or after the robot's first reports. This is what its
 position changes, and what it does not.
 */
module Confluence {
  import opened Wrappers
  import opened Lifecycle
  import opened Mission
  import opened StageState
  import opened Runs
  import opened RunSteps

  // A frame and the clock reading at which it is recorded.
  datatype Report = Report(frame: Frame, now: Time)

  function RecordAll(run: Run, reports: seq<Report>): Run
    decreases |reports|
  {
    if reports == [] then run
    else RecordAll(RecordRun(run, run.robotId, reports[0].frame, reports[0].now), reports[1..])
  }

  function AcceptedAt(run: Run, repliedAt: Time, now: Time): Run {
    SettleRun(run, Accepted, repliedAt, now).run
  }

  // The acceptance is recorded before any report, or after the first k of them.
  function AcceptFirst(run: Run, reports: seq<Report>, repliedAt: Time, now: Time): Run {
    RecordAll(AcceptedAt(run, repliedAt, now), reports)
  }

  function AcceptLate(run: Run, reports: seq<Report>, k: nat, repliedAt: Time, now: Time): Run
    requires k <= |reports|
  {
    RecordAll(AcceptedAt(RecordAll(run, reports[..k]), repliedAt, now), reports[k..])
  }

  ghost predicate JustPrepared(run: Run) {
    && run.status == Pending && run.log == [] && run.rows == map[]
    && run.failureErrors == [] && run.dispatchedAt.None?
  }

  // ---------- Runs that differ only by the acceptance ----------

  const ACCEPT_ROW: Transition := Transition(Pending, Dispatched, RunTrigger.Accept, Backend, None, None)

  // The second log is the first with the acceptance in front and its first row starting from there.
  ghost predicate AcceptedInFront(without: seq<Transition>, with: seq<Transition>) {
    && without != []
    && with == [ACCEPT_ROW, without[0].(from := Dispatched)] + without[1..]
  }

  // The same run but for the acceptance in its log, and when it was dispatched.
  ghost predicate Twins(without: Run, with: Run) {
    && with == without.(log := with.log, dispatchedAt := with.dispatchedAt)
    && AcceptedInFront(without.log, with.log)
    && without.status !in {Pending, Pausing, Resuming, Cancelling}
  }

  lemma {:induction false} ReportsNeverRequest(state: RunStatus, report: ExecStatus)
    requires state !in {Pausing, Resuming, Cancelling}
    ensures StateAfterReport(state, report) !in {Pausing, Resuming, Cancelling}
    ensures state != Pending ==> StateAfterReport(state, report) != Pending
  {}

  lemma {:induction false} AppendKeepsFront(without: seq<Transition>, with: seq<Transition>, row: Transition)
    requires AcceptedInFront(without, with)
    ensures AcceptedInFront(without + [row], with + [row])
  {}

  // The run after a report that moves it.
  function Moved(run: Run, frame: Frame, now: Time, target: RunStatus, trigger: RunTrigger): Run {
    var live := LiveRecords(frame, run.stages);
    var moved := Written(Touched(run, frame, now), ReportWrite(run, frame, (target, trigger)), now);
    if IsTerminal(target) then Settled(moved, RowsOf(live), now) else MergeLive(moved, target, live)
  }

  // The run after a report that does not.
  function Unmoved(run: Run, frame: Frame, now: Time): Run {
    MergeLive(if IsTerminal(run.status) then run else Touched(run, frame, now), run.status,
              LiveRecords(frame, run.stages))
  }

  lemma {:induction false} RecordCases(run: Run, frame: Frame, now: Time)
    requires run.status !in {Pausing, Resuming}
    ensures var trigger := TriggerForReport(run.status, frame.exec);
            var target := TryNextState(run.status, trigger);
            RecordRun(run, run.robotId, frame, now) ==
            (if target.Some? then Moved(run, frame, now, target.value, trigger) else Unmoved(run, frame, now))
  {
    TerminalIffNoExit(run.status);
  }

  lemma {:induction false} RecordMoves(run: Run, frame: Frame, now: Time)
    requires run.status !in {Pausing, Resuming}
    ensures var after := RecordRun(run, run.robotId, frame, now);
            && after.status == StateAfterReport(run.status, frame.exec)
            && after.robotId == run.robotId
  {
    RecordCases(run, frame, now);
  }

  // Moving does not look at the log or the dispatch time, and looks at the state only through the move.
  lemma {:induction false} MovedAlike(a: Run, b: Run, frame: Frame, now: Time, target: RunStatus, trigger: RunTrigger)
    requires b == a.(status := b.status, log := b.log, dispatchedAt := b.dispatchedAt)
    ensures var x, y := Moved(a, frame, now, target, trigger), Moved(b, frame, now, target, trigger);
            && y == x.(log := y.log, dispatchedAt := b.dispatchedAt)
            && x.dispatchedAt == a.dispatchedAt
            && x.status == target
            && x.log == a.log + [ReportedRow(a.status, (target, trigger), frame.headerId)]
            && y.log == b.log + [ReportedRow(b.status, (target, trigger), frame.headerId)]
  {}

  lemma {:induction false} UnmovedAlike(a: Run, b: Run, frame: Frame, now: Time)
    requires b == a.(log := b.log, dispatchedAt := b.dispatchedAt)
    ensures var x, y := Unmoved(a, frame, now), Unmoved(b, frame, now);
            && y == x.(log := b.log, dispatchedAt := b.dispatchedAt)
            && x.dispatchedAt == a.dispatchedAt && x.status == a.status && x.log == a.log
  {}

  lemma {:induction false} TwinsRecord(without: Run, with: Run, frame: Frame, now: Time)
    requires Twins(without, with)
    ensures Twins(RecordRun(without, without.robotId, frame, now), RecordRun(with, with.robotId, frame, now))
    ensures RecordRun(with, with.robotId, frame, now).dispatchedAt == with.dispatchedAt
    ensures RecordRun(without, without.robotId, frame, now).dispatchedAt == without.dispatchedAt
  {
    RecordCases(without, frame, now);
    RecordCases(with, frame, now);
    ReportsNeverRequest(without.status, frame.exec);
    var trigger := TriggerForReport(without.status, frame.exec);
    var target := TryNextState(without.status, trigger);
    if target.Some? {
      MovedAlike(without, with, frame, now, target.value, trigger);
      AppendKeepsFront(without.log, with.log, ReportedRow(without.status, (target.value, trigger), frame.headerId));
    } else {
      UnmovedAlike(without, with, frame, now);
    }
  }

  lemma {:induction false} TwinsRecordAll(without: Run, with: Run, reports: seq<Report>)
    requires Twins(without, with)
    ensures Twins(RecordAll(without, reports), RecordAll(with, reports))
    ensures RecordAll(with, reports).dispatchedAt == with.dispatchedAt
    ensures RecordAll(without, reports).dispatchedAt == without.dispatchedAt
    decreases |reports|
  {
    if reports != [] {
      var r := reports[0];
      TwinsRecord(without, with, r.frame, r.now);
      TwinsRecordAll(RecordRun(without, without.robotId, r.frame, r.now),
                     RecordRun(with, with.robotId, r.frame, r.now), reports[1..]);
    }
  }

  lemma {:induction false} FirstReportMoves(exec: ExecStatus)
    requires exec != ExecPaused
    ensures var trigger := TriggerForReport(Pending, exec);
            && TriggerForReport(Dispatched, exec) == trigger
            && TryNextState(Dispatched, trigger) == TryNextState(Pending, trigger)
            && TryNextState(Pending, trigger).Some?
            && TryNextState(Pending, trigger).value !in {Pending, Pausing, Resuming, Cancelling}
  {}

  // The first report, when it is not PAUSED, takes a pending run where it would take a dispatched one.
  lemma {:induction false} FirstReportMakesTwins(run: Run, frame: Frame, now: Time, repliedAt: Time, settledAt: Time)
    requires JustPrepared(run) && frame.exec != ExecPaused
    ensures var without, with := RecordRun(run, run.robotId, frame, now),
                                 RecordRun(AcceptedAt(run, repliedAt, settledAt), run.robotId, frame, now);
            Twins(without, with) && without.dispatchedAt.None? && with.dispatchedAt == Some(repliedAt)
  {
    var accepted := AcceptedAt(run, repliedAt, settledAt);
    var trigger := TriggerForReport(Pending, frame.exec);
    assert accepted == run.(status := Dispatched, log := [ACCEPT_ROW], dispatchedAt := Some(repliedAt));
    FirstReportMoves(frame.exec);
    RecordCases(run, frame, now);
    RecordCases(accepted, frame, now);
    MovedAlike(run, accepted, frame, now, TryNextState(Pending, trigger).value, trigger);
  }

  lemma {:induction false} RecordAllConcat(run: Run, first: seq<Report>, second: seq<Report>)
    ensures RecordAll(run, first + second) == RecordAll(RecordAll(run, first), second)
    decreases |first|
  {
    if first == [] {
      assert first + second == second;
    } else {
      assert (first + second)[0] == first[0] && (first + second)[1..] == first[1..] + second;
      RecordAllConcat(RecordRun(run, run.robotId, first[0].frame, first[0].now), first[1..], second);
    }
  }

  // The same run, whenever the acceptance is recorded, but for the acceptance's own log row: the
  // status, the stage rows, the errors, the last report and the times are equal, and it is marked
  // dispatched.
  ghost predicate SameOutcome(late: Run, first: Run, repliedAt: Time) {
    && late == first.(log := late.log)
    && late.dispatchedAt == Some(repliedAt)
    && (late.log == first.log || AcceptedInFront(late.log, first.log))
  }

  lemma {:induction false} DispatchTimeKept(run: Run, reports: seq<Report>)
    ensures RecordAll(run, reports).dispatchedAt == run.dispatchedAt
    decreases |reports|
  {
    if reports != [] {
      DispatchTimeKept(RecordRun(run, run.robotId, reports[0].frame, reports[0].now), reports[1..]);
    }
  }

  lemma {:induction false} ConfluentOnceMoved(one: Run, oneAccepted: Run, middle: seq<Report>, rest: seq<Report>,
                                              repliedAt: Time, now: Time)
    requires Twins(one, oneAccepted) && one.dispatchedAt.None? && oneAccepted.dispatchedAt == Some(repliedAt)
    ensures SameOutcome(RecordAll(AcceptedAt(RecordAll(one, middle), repliedAt, now), rest),
                        RecordAll(oneAccepted, middle + rest), repliedAt)
  {
    var before := RecordAll(one, middle);
    TwinsRecordAll(one, oneAccepted, middle);
    TwinsRecordAll(AcceptedAt(before, repliedAt, now), RecordAll(oneAccepted, middle), rest);
    RecordAllConcat(oneAccepted, middle, rest);
  }

  // Late acceptance is confluent: unless the robot's first report is PAUSED, recording the acceptance
  // at any position among the reports ends in the same run.
  lemma {:induction false} LateAcceptanceIsConfluent(run: Run, reports: seq<Report>, k: nat, repliedAt: Time, now: Time)
    requires JustPrepared(run) && k <= |reports|
    requires reports != [] ==> reports[0].frame.exec != ExecPaused
    ensures SameOutcome(AcceptLate(run, reports, k, repliedAt, now), AcceptFirst(run, reports, repliedAt, now), repliedAt)
  {
    if k == 0 {
      AcceptAtZero(run, reports, repliedAt, now);
    } else {
      var r := reports[0];
      FirstReportMakesTwins(run, r.frame, r.now, repliedAt, now);
      LateUnrolled(run, reports, k, repliedAt, now);
      ConfluentOnceMoved(RecordRun(run, run.robotId, r.frame, r.now),
                         RecordRun(AcceptedAt(run, repliedAt, now), run.robotId, r.frame, r.now),
                         reports[1..k], reports[k..], repliedAt, now);
    }
  }

  lemma {:induction false} LateUnrolled(run: Run, reports: seq<Report>, k: nat, repliedAt: Time, now: Time)
    requires 0 < k <= |reports|
    ensures var r := reports[0];
            && AcceptLate(run, reports, k, repliedAt, now) ==
               RecordAll(AcceptedAt(RecordAll(RecordRun(run, run.robotId, r.frame, r.now), reports[1..k]), repliedAt, now),
                         reports[k..])
            && AcceptFirst(run, reports, repliedAt, now) ==
               RecordAll(RecordRun(AcceptedAt(run, repliedAt, now), AcceptedAt(run, repliedAt, now).robotId, r.frame, r.now),
                         reports[1..k] + reports[k..])
  {
    assert reports[..k][0] == reports[0] && reports[..k][1..] == reports[1..k];
    assert reports[1..] == reports[1..k] + reports[k..];
  }

  lemma {:induction false} AcceptAtZero(run: Run, reports: seq<Report>, repliedAt: Time, now: Time)
    requires JustPrepared(run)
    ensures AcceptLate(run, reports, 0, repliedAt, now) == AcceptFirst(run, reports, repliedAt, now)
    ensures SameOutcome(AcceptLate(run, reports, 0, repliedAt, now), AcceptFirst(run, reports, repliedAt, now), repliedAt)
  {
    assert reports[..0] == [] && reports[0..] == reports;
    DispatchTimeKept(AcceptedAt(run, repliedAt, now), reports);
  }

  // ---------- When the first report is PAUSED ----------

  // A pending run ignores PAUSED reports, but for noting that they came.
  lemma {:induction false} PausesWhilePending(run: Run, reports: seq<Report>)
    requires JustPrepared(run) && AllPaused(reports)
    ensures RecordAll(run, reports) == run.(lastReport := RecordAll(run, reports).lastReport)
    decreases |reports|
  {
    if reports != [] {
      var next := RecordRun(run, run.robotId, reports[0].frame, reports[0].now);
      assert next == run.(lastReport := next.lastReport);
      PausesWhilePending(next, reports[1..]);
    }
  }

  lemma {:induction false} LateInTwoParts(run: Run, reports: seq<Report>, j: nat, k: nat, repliedAt: Time, now: Time)
    requires j <= k <= |reports|
    ensures AcceptLate(run, reports, k, repliedAt, now) ==
            AcceptLate(RecordAll(run, reports[..j]), reports[j..], k - j, repliedAt, now)
  {
    assert reports[..k] == reports[..j] + reports[j..k];
    RecordAllConcat(run, reports[..j], reports[j..k]);
    assert reports[j..][..k - j] == reports[j..k] && reports[j..][k - j..] == reports[k..];
  }

  lemma {:induction false} PausesAreOnlyNoted(run: Run, paused: seq<Report>)
    requires JustPrepared(run) && AllPaused(paused)
    ensures JustPrepared(RecordAll(run, paused))
  {
    PausesWhilePending(run, paused);
  }

  // In every case the late acceptance loses exactly the PAUSED reports that came first and before it:
  // the run ends as if the acceptance had been recorded first and those reports had only been noted.
  lemma {:induction false} LatePausesAreLost(run: Run, reports: seq<Report>, j: nat, k: nat, repliedAt: Time, now: Time)
    requires JustPrepared(run) && j <= k <= |reports|
    requires AllPaused(reports[..j])
    requires j < k ==> reports[j].frame.exec != ExecPaused
    ensures SameOutcome(AcceptLate(run, reports, k, repliedAt, now),
                        AcceptFirst(RecordAll(run, reports[..j]), reports[j..], repliedAt, now), repliedAt)
  {
    var noted, rest := RecordAll(run, reports[..j]), reports[j..];
    PausesAreOnlyNoted(run, reports[..j]);
    LateInTwoParts(run, reports, j, k, repliedAt, now);
    assert k - j > 0 ==> rest[0] == reports[j];
    LateAfterPauses(noted, rest, k - j, repliedAt, now);
  }

  lemma {:induction false} LateAfterPauses(noted: Run, rest: seq<Report>, k: nat, repliedAt: Time, now: Time)
    requires JustPrepared(noted) && k <= |rest|
    requires k > 0 ==> rest[0].frame.exec != ExecPaused
    ensures SameOutcome(AcceptLate(noted, rest, k, repliedAt, now), AcceptFirst(noted, rest, repliedAt, now), repliedAt)
  {
    if k > 0 {
      LateAcceptanceIsConfluent(noted, rest, k, repliedAt, now);
    } else {
      AcceptAtZero(noted, rest, repliedAt, now);
    }
  }

  // ---------- Exactly when the status agrees ----------

  function StatusAfter(status: RunStatus, reports: seq<Report>): RunStatus
    decreases |reports|
  {
    if reports == [] then status
    else StatusAfter(StateAfterReport(status, reports[0].frame.exec), reports[1..])
  }

  lemma {:induction false} RecordAllStatus(run: Run, reports: seq<Report>)
    requires run.status !in {Pausing, Resuming, Cancelling}
    ensures RecordAll(run, reports).status == StatusAfter(run.status, reports)
    ensures RecordAll(run, reports).status !in {Pausing, Resuming, Cancelling}
    decreases |reports|
  {
    if reports != [] {
      var r := reports[0];
      RecordMoves(run, r.frame, r.now);
      ReportsNeverRequest(run.status, r.frame.exec);
      RecordAllStatus(RecordRun(run, run.robotId, r.frame, r.now), reports[1..]);
    }
  }

  predicate AllPaused(reports: seq<Report>) {
    forall i :: 0 <= i < |reports| ==> reports[i].frame.exec == ExecPaused
  }

  // Dispatched and paused runs agree after any one report.
  lemma {:induction false} OneReportJoins(reports: seq<Report>)
    requires reports != []
    ensures StatusAfter(Dispatched, reports) == StatusAfter(Paused, reports)
    ensures reports[0].frame.exec != ExecPaused ==>
              StatusAfter(Pending, reports) == StatusAfter(Dispatched, reports)
  {
    ReportTable(Dispatched, reports[0].frame.exec);
    ReportTable(Paused, reports[0].frame.exec);
    ReportTable(Pending, reports[0].frame.exec);
  }

  lemma {:induction false} PausedStaysPaused(reports: seq<Report>)
    requires AllPaused(reports)
    ensures StatusAfter(Pending, reports) == Pending
    ensures reports != [] ==> StatusAfter(Dispatched, reports) == Paused
    ensures StatusAfter(Paused, reports) == Paused
    decreases |reports|
  {
    if reports != [] {
      PausedStaysPaused(reports[1..]);
    }
  }

  lemma {:induction false} StatusAfterConcat(status: RunStatus, first: seq<Report>, second: seq<Report>)
    ensures StatusAfter(status, first + second) == StatusAfter(StatusAfter(status, first), second)
    decreases |first|
  {
    if first == [] {
      assert first + second == second;
    } else {
      assert (first + second)[0] == first[0] && (first + second)[1..] == first[1..] + second;
      StatusAfterConcat(StateAfterReport(status, first[0].frame.exec), first[1..], second);
    }
  }

  function LeadingPauses(reports: seq<Report>): (n: nat)
    ensures n <= |reports|
    ensures AllPaused(reports[..n])
    ensures n < |reports| ==> reports[n].frame.exec != ExecPaused
  {
    if reports == [] || reports[0].frame.exec != ExecPaused then 0
    else
      var n := LeadingPauses(reports[1..]);
      assert forall i :: 0 < i <= n ==> reports[i] == reports[1..][..n][i - 1];
      1 + n
  }

  // The status reached from Dispatched by all the reports, and by all but the first j, all PAUSED.
  lemma {:induction false} StatusWithoutPauses(reports: seq<Report>, j: nat)
    requires j <= |reports| && AllPaused(reports[..j])
    ensures StatusAfter(Dispatched, reports[j..]) == StatusAfter(Dispatched, reports) <==> !(j == |reports| && j > 0)
  {
    var paused, rest := reports[..j], reports[j..];
    assert reports == paused + rest;
    StatusAfterConcat(Dispatched, paused, rest);
    PausedStaysPaused(paused);
    if rest != [] {
      OneReportJoins(rest);
    }
  }

  lemma {:induction false} AcceptedStatus(run: Run, reports: seq<Report>, repliedAt: Time, now: Time)
    requires run.status == Pending
    ensures AcceptFirst(run, reports, repliedAt, now).status == StatusAfter(Dispatched, reports)
  {
    RecordAllStatus(AcceptedAt(run, repliedAt, now), reports);
  }

  lemma {:induction false} LateStatus(run: Run, reports: seq<Report>, j: nat, k: nat, repliedAt: Time, now: Time)
    requires JustPrepared(run) && j <= k <= |reports|
    requires AllPaused(reports[..j])
    requires j < k ==> reports[j].frame.exec != ExecPaused
    ensures AcceptLate(run, reports, k, repliedAt, now).status == StatusAfter(Dispatched, reports[j..])
  {
    LatePausesAreLost(run, reports, j, k, repliedAt, now);
    PausesAreOnlyNoted(run, reports[..j]);
    AcceptedStatus(RecordAll(run, reports[..j]), reports[j..], repliedAt, now);
  }

  // A late acceptance changes the final status in exactly one case: it comes after every report, and
  // all of them were PAUSED.
  lemma {:induction false} StatusAgreesExactly(run: Run, reports: seq<Report>, k: nat, repliedAt: Time, now: Time)
    requires JustPrepared(run) && k <= |reports|
    ensures AcceptLate(run, reports, k, repliedAt, now).status == AcceptFirst(run, reports, repliedAt, now).status
            <==> !(k == |reports| && reports != [] && AllPaused(reports))
  {
    var j := LeadingPauses(reports[..k]);
    assert reports[..k][..j] == reports[..j];
    LateStatus(run, reports, j, k, repliedAt, now);
    AcceptedStatus(run, reports, repliedAt, now);
    StatusWithoutPauses(reports, j);
    assert reports[..|reports|] == reports;
  }
}
