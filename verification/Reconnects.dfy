/**
 Which of its runs a robot still has after it reconnected, by what it says it holds, by when the runs were
 made, and by when it was last heard of them.
 */
module Reconnects {
  import opened Wrappers
  import opened Lifecycle
  import opened Mission
  import opened StageState
  import opened Runs
  import opened RunSteps
  import opened RunInvariants
  import opened RunWorld
  import opened RunTheorems
  import opened RunFacts
  import opened Reconciliation

  // ---------- One reconnect ----------

  // The reconnect leaves a listed run alone if it was made since the robot answered again, waits for its
  // dispatch and is under ten seconds old, or is the robot's own: the one it names by its canonical id or,
  // where it says nothing of what it holds, one it has reported since.
  predicate LeftAlone(sweep: Sweep, id: Uuid, run: Run) {
    || run.createdAt >= sweep.since
    || (run.status == Pending && sweep.now < run.createdAt + 10_000_000)
    || (match sweep.claim
        case NotReported => run.lastReport.Some? && run.lastReport.value.receivedAt >= sweep.since
        case HoldsNone => false
        case Holds(claimed) => claimed == Canonical(id))
  }

  // The run as the reconnect gives up on it: failed, or cancelled if that was asked, with the sweep's error.
  ghost predicate GivenUp(before: Run, after: Run, now: Time) {
    && after.status == (if before.status == Cancelling then Cancelled else Failed)
    && after.failureErrors == [UNCLAIMED] && after.endedAt == Some(now)
    && after.log == before.log + [Transition(before.status, after.status, Reconcile, Backend, None, None)]
  }

  lemma {:induction false} SweptIsGivenUp(run: Run, id: Uuid, sweep: Sweep)
    requires !IsTerminal(run.status) && !LeftAlone(sweep, id, run)
    ensures GivenUp(run, SweepRun(run, run, id, sweep).run, sweep.now) && !Spared(sweep, id, run)
  {}

  // Every listed run is left as it was or given up on, and only those given up on are sent a cancel by the
  // sweep.
  lemma {:induction false} ReconnectLeavesIff(runs: RunTable, ids: seq<Uuid>, robotId: RobotId, sweep: Sweep, id: Uuid)
    requires ListsActive(ids, runs, robotId) && id in ids
    ensures var so := SweepUpTo(runs, [], ids, sweep, |ids|);
            && id in so.runs
            && (if LeftAlone(sweep, id, runs[id]) then so.runs[id] == runs[id]
                else GivenUp(runs[id], so.runs[id], sweep.now))
            && (Sent(id, robotId, CancelOrder(Graceful)) in so.sent <==> !LeftAlone(sweep, id, runs[id]))
  {
    var so := SweepUpTo(runs, [], ids, sweep, |ids|);
    TerminalIffNoExit(runs[id].status);
    SweepGuarantees(runs, [], ids, robotId, sweep);
    SweepUpToIsGood(runs, [], ids, robotId, sweep, |ids|);
    assert so.sent == CancelsTo(so.ended, robotId);
    if LeftAlone(sweep, id, runs[id]) {
      assert Spared(sweep, id, runs[id]);
    } else {
      SweptIsGivenUp(runs[id], id, sweep);
      var i :| 0 <= i < |so.ended| && so.ended[i] == id;
      assert so.sent[i] == Sent(id, robotId, CancelOrder(Graceful));
    }
  }

  // Of any run, known or not, the robot is told something exactly if it is its own and either was given up
  // on or is over and named.
  lemma {:induction false} ReconnectTellsIff(runs: RunTable, ids: seq<Uuid>, robotId: RobotId, sweep: Sweep, id: Uuid)
    requires ListsActive(ids, runs, robotId)
    ensures Told(ReconnectSends(runs, ids, robotId, sweep), id) <==>
            && id in runs && runs[id].robotId == robotId
            && if IsTerminal(runs[id].status) then Names(sweep.claim, id) else !LeftAlone(sweep, id, runs[id])
  {
    if id !in runs {
      GoneRunIsNotTold(runs, ids, robotId, sweep, id);
    } else {
      TerminalIffNoExit(runs[id].status);
      if runs[id].robotId == robotId {
        ToldIff(runs, ids, robotId, sweep, id);
      } else {
        OthersAreNotTold(runs, ids, robotId, sweep, id);
      }
    }
  }

  lemma {:induction false} OthersAreNotTold(runs: RunTable, ids: seq<Uuid>, robotId: RobotId, sweep: Sweep, id: Uuid)
    requires ListsActive(ids, runs, robotId) && id in runs && runs[id].robotId != robotId
    ensures !Told(ReconnectSends(runs, ids, robotId, sweep), id)
  {
    var so := SweepUpTo(runs, [], ids, sweep, |ids|);
    SweepGuarantees(runs, [], ids, robotId, sweep);
    SweepKeepsRobot(runs, ids, robotId, sweep, id);
    assert so.sent == CancelsTo(so.ended, robotId);
    ToldOfCancels(so.ended, robotId, StopCommand(so.runs, robotId, sweep.claim), id);
  }

  // ---------- A robot that says nothing of what it holds ----------

  // When the reports of a run were taken in, in the order they came.
  function HeardAt(w: World, events: seq<Event>, id: Uuid): seq<Time>
    decreases |events|
  {
    if events == [] then []
    else (if id in w.runs && Touches(events[0], id) && TellsProgress(w.runs[id], events[0]) then [events[0].now] else [])
         + HeardAt(Next(w, events[0]), events[1..], id)
  }

  function LastHeard(w: World, id: Uuid): Option<Time> {
    if id in w.runs && w.runs[id].lastReport.Some? then Some(w.runs[id].lastReport.value.receivedAt) else None
  }

  lemma {:induction false} NextHeard(w: World, e: Event, id: Uuid)
    requires w.runs.Keys <= w.minted && AllFactsOk(w) && id in Next(w, e).runs
    ensures LastHeard(Next(w, e), id) ==
            if id in w.runs && Touches(e, id) && TellsProgress(w.runs[id], e) then Some(e.now) else LastHeard(w, id)
  {
    if id in w.runs && Touches(e, id) {
      TimesAreTheEvents(w.runs[id], e);
    }
  }

  // A run was last heard of when the last of its reports was taken in.
  lemma {:induction false} LastHeardIs(w: World, events: seq<Event>, id: Uuid)
    requires WorldOk(w) && AllFactsOk(w) && AllWellFormed(events) && id in After(w, events).runs
    ensures var heard := HeardAt(w, events, id);
            LastHeard(After(w, events), id) == if heard == [] then LastHeard(w, id) else Some(Last(heard))
    decreases |events|
  {
    if events != [] {
      var next, rest := Next(w, events[0]), events[1..];
      assert WellFormed(events[0]);
      NextKeepsOk(w, events[0]);
      NextKeepsFacts(w, events[0]);
      LastHeardIs(next, rest, id);
      if id in next.runs {
        NextHeard(w, events[0], id);
      } else if id in w.runs {
        NextFollows(w, events[0], id);
        GoneStaysGone(next, rest, id);
      }
    }
  }

  predicate InOrder(times: seq<Time>) {
    forall i, j :: 0 <= i <= j < |times| ==> times[i] <= times[j]
  }

  // Over every history: when a robot reconnects without saying what it holds, an executing run from before
  // survives if and only if its last report was taken in since the robot answered again. With a clock that
  // does not go back, that is if any was.
  lemma {:induction false} UnclaimedSurvivesIffHeard(events: seq<Event>, ids: seq<Uuid>, robotId: RobotId, since: Time,
                                                     now: Time, id: Uuid)
    requires AllWellFormed(events) && ListsActive(ids, After(EMPTY_WORLD, events).runs, robotId) && id in ids
    requires var run := After(EMPTY_WORLD, events).runs[id]; run.createdAt < since && run.status != Pending
    ensures var runs, heard := After(EMPTY_WORLD, events).runs, HeardAt(EMPTY_WORLD, events, id);
            var so := SweepUpTo(runs, [], ids, Sweep(since, now, NotReported), |ids|);
            && id in so.runs
            && (if heard != [] && Last(heard) >= since then so.runs[id] == runs[id]
                else GivenUp(runs[id], so.runs[id], now))
            && (InOrder(heard) ==>
                  (so.runs[id] == runs[id] <==> exists i :: 0 <= i < |heard| && heard[i] >= since))
  {
    var w, heard := After(EMPTY_WORLD, events), HeardAt(EMPTY_WORLD, events, id);
    LastHeardIs(EMPTY_WORLD, events, id);
    ReconnectLeavesIff(w.runs, ids, robotId, Sweep(since, now, NotReported), id);
    if heard != [] && InOrder(heard) {
      assert forall i :: 0 <= i < |heard| ==> heard[i] <= heard[|heard| - 1];
    }
  }
}
