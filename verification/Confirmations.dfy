/**
 What a confirmation of a pause or resume is newer than: the report recorded last before the request,
 which need not be the newest of those recorded.
 */
module Confirmations {
  import opened Wrappers
  import opened Lifecycle
  import opened StageState
  import opened Runs
  import opened RunSteps
  import opened RunInvariants
  import opened RunWorld
  import opened RunTheorems

  // ---------- The reports recorded for a run ----------

  // The event leaves its report as the run's last one.
  predicate Notes(w: World, e: Event, id: Uuid) {
    && id in w.runs && !IsTerminal(w.runs[id].status)
    && e.FrameArrived? && e.id == id && e.robotId == w.runs[id].robotId
  }

  // The counters of the reports recorded for a run, in the order they came.
  function CountersNoted(w: World, events: seq<Event>, id: Uuid): seq<nat>
    decreases |events|
  {
    if events == [] then []
    else (if Notes(w, events[0], id) then [events[0].frame.headerId] else [])
         + CountersNoted(Next(w, events[0]), events[1..], id)
  }

  // The stamp a request would carry now; zero for a run that is not there yet.
  function StampIn(w: World, id: Uuid): nat {
    if id in w.runs then LastHeaderId(w.runs[id]) else 0
  }

  lemma {:induction false} NextStamp(w: World, e: Event, id: Uuid)
    requires w.runs.Keys <= w.minted && id in Next(w, e).runs
    ensures StampIn(Next(w, e), id) == if Notes(w, e, id) then e.frame.headerId else StampIn(w, id)
  {
    if id in w.runs && Touches(e, id) {
      OnRunStamp(w.runs[id], e);
    }
  }

  lemma {:induction false} OnRunStamp(run: Run, e: Event)
    requires !e.Prepared? && !e.ClaimStopped? && !e.DeleteAsked?
    ensures LastHeaderId(OnRun(run, e).run) ==
            if e.FrameArrived? && e.robotId == run.robotId && !IsTerminal(run.status)
            then e.frame.headerId else LastHeaderId(run)
  {
    if e.CancelAsked? {
      CancelCases(run, e.seen, e.mode, e.offline, e.reply, e.now);
    }
  }

  // The stamp is the counter of the report that was recorded last.
  lemma {:induction false} StampIsLastNoted(w: World, events: seq<Event>, id: Uuid)
    requires WorldOk(w) && AllWellFormed(events) && id in After(w, events).runs
    ensures var noted := CountersNoted(w, events, id);
            StampIn(After(w, events), id) == if noted == [] then StampIn(w, id) else Last(noted)
    decreases |events|
  {
    if events != [] {
      var next, rest := Next(w, events[0]), events[1..];
      assert WellFormed(events[0]);
      NextKeepsOk(w, events[0]);
      StampIsLastNoted(next, rest, id);
      if id in next.runs {
        NextStamp(w, events[0], id);
      } else if id in w.runs {
        NextFollows(w, events[0], id);
        GoneStaysGone(next, rest, id);
      }
    }
  }

  // ---------- What confirms a request ----------

  function Confirmed(pause: bool): RunStatus {
    if pause then Paused else Running
  }

  // The report takes the pending pause or resume as done.
  predicate IsConfirmedBy(waiting: Run, pause: bool, frame: Frame, now: Time) {
    RecordRun(waiting, waiting.robotId, frame, now).status == Confirmed(pause)
  }

  lemma {:induction false} ConfirmedIff(waiting: Run, pause: bool, stamp: nat, frame: Frame, now: Time)
    requires waiting.status == (if pause then Pausing else Resuming)
    requires waiting.log != [] && Last(waiting.log).reportHeaderId == Some(stamp)
    ensures IsConfirmedBy(waiting, pause, frame, now) <==>
            frame.exec == (if pause then ExecPaused else ExecRunning) && frame.headerId > stamp
  {
    ReportTable(waiting.status, frame.exec);
  }

  // The last report recorded is as new as any.
  predicate EndsHighest(counters: seq<nat>) {
    forall i :: 0 <= i < |counters| ==> counters[i] <= Last(counters)
  }

  ghost predicate ConfirmationsAreNewest(waiting: Run, pause: bool, counters: seq<nat>, now: Time) {
    forall frame: Frame :: IsConfirmedBy(waiting, pause, frame, now) ==>
                             forall i :: 0 <= i < |counters| ==> counters[i] < frame.headerId
  }

  lemma {:induction false} NewestIff(waiting: Run, pause: bool, counters: seq<nat>, now: Time)
    requires waiting.status == (if pause then Pausing else Resuming)
    requires waiting.log != []
    requires Last(waiting.log).reportHeaderId == Some(if counters == [] then 0 else Last(counters))
    ensures ConfirmationsAreNewest(waiting, pause, counters, now) <==> EndsHighest(counters)
  {
    var stamp := if counters == [] then 0 else Last(counters);
    forall frame: Frame
      ensures IsConfirmedBy(waiting, pause, frame, now) <==>
              frame.exec == (if pause then ExecPaused else ExecRunning) && frame.headerId > stamp
    {
      ConfirmedIff(waiting, pause, stamp, frame, now);
    }
    if ConfirmationsAreNewest(waiting, pause, counters, now) {
      var next := Frame(stamp + 1, 0, if pause then ExecPaused else ExecRunning, [], []);
      assert IsConfirmedBy(waiting, pause, next, now);
    }
  }

  // The run as a pause or resume the robot took leaves it.
  function Requested(run: Run, pause: bool, now: Time): Run {
    SteerRun(run, SeenOf(run), pause, false, Applied, now).run
  }

  lemma {:induction false} RequestStamps(run: Run, pause: bool, now: Time)
    requires TryNextState(run.status, if pause then PauseRequest else ResumeRequest).Some?
    ensures var asked := Requested(run, pause, now);
            && asked.status == (if pause then Pausing else Resuming)
            && asked.log != [] && Last(asked.log).reportHeaderId == Some(LastHeaderId(run))
  {
    RequestsAreHeld(run.status, if pause then PauseRequest else ResumeRequest);
    TerminalIffNoExit(run.status);
  }

  // Over every history before a request, and whatever comes while it waits: no report can confirm it but
  // one newer than all that were recorded before it, if and only if the one recorded last was the highest
  // of them. A robot whose counter went back can confirm with a report older than some already recorded.
  lemma {:induction false} ConfirmationIsNewestIff(events: seq<Event>, id: Uuid, pause: bool, askedAt: Time,
                                                   waiting: Run, now: Time)
    requires AllWellFormed(events) && id in After(EMPTY_WORLD, events).runs
    requires TryNextState(After(EMPTY_WORLD, events).runs[id].status,
                          if pause then PauseRequest else ResumeRequest).Some?
    requires var asked := Requested(After(EMPTY_WORLD, events).runs[id], pause, askedAt);
             waiting.status == asked.status && waiting.log == asked.log
    ensures var counters := CountersNoted(EMPTY_WORLD, events, id);
            ConfirmationsAreNewest(waiting, pause, counters, now) <==> EndsHighest(counters)
  {
    StampIsLastNoted(EMPTY_WORLD, events, id);
    RequestStamps(After(EMPTY_WORLD, events).runs[id], pause, askedAt);
    NewestIff(waiting, pause, CountersNoted(EMPTY_WORLD, events, id), now);
  }

  function RunningFrame(headerId: nat): Frame {
    Frame(headerId, 0, ExecRunning, [], [])
  }

  lemma {:induction false} StillRunning(run: Run, headerId: nat)
    requires run.status == Running
    ensures var after := RecordRun(run, run.robotId, RunningFrame(headerId), 0);
            after.status == Running && LastHeaderId(after) == headerId
  {
    ReportTable(Running, ExecRunning);
  }

  // Report 9, then report 5 once the robot's counter started over, then a pause: report 6 confirms it.
  lemma {:induction false} OlderReportConfirms(run: Run)
    requires run.status == Running
    ensures var after9 := RecordRun(run, run.robotId, RunningFrame(9), 0);
            var after5 := RecordRun(after9, after9.robotId, RunningFrame(5), 0);
            && after5.status == Running
            && IsConfirmedBy(Requested(after5, true, 0), true, Frame(6, 0, ExecPaused, [], []), 0)
  {
    var after9 := RecordRun(run, run.robotId, RunningFrame(9), 0);
    StillRunning(run, 9);
    StillRunning(after9, 5);
    var after5 := RecordRun(after9, after9.robotId, RunningFrame(5), 0);
    RequestStamps(after5, true, 0);
    ConfirmedIff(Requested(after5, true, 0), true, 5, Frame(6, 0, ExecPaused, [], []), 0);
  }
}
