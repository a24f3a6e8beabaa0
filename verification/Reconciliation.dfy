/** The reconnect sweep: what happens to a robot's live runs when it comes back. */
module Reconciliation {
  import opened Wrappers
  import opened Lifecycle
  import opened Mission
  import opened StageState
  import opened Runs
  import opened RunSteps
  import opened RunInvariants
  import opened RunWorld
  import opened RunServices
  import opened RunTheorems

  datatype Swept = Swept(runs: RunTable, sent: seq<Sent>, ended: seq<Uuid>)

  // The robot's own live runs, listed once each.
  ghost predicate ListsActive(ids: seq<Uuid>, runs: RunTable, robotId: RobotId) {
    && NoDuplicates(ids)
    && (forall id :: id in ids <==> id in runs && runs[id].robotId == robotId && IsActive(runs[id].status))
  }

  // One listed run: left alone, or cancelled, closed and noted as ended.
  function SweepNext(so: Swept, id: Uuid, sweep: Sweep): Swept {
    if id !in so.runs || SweepSkips(sweep, id, so.runs[id]) then so
    else
      var run := so.runs[id];
      var step := SweepRun(run, run, id, sweep);
      Swept(so.runs[id := step.run], so.sent + Tagged(id, run.robotId, step.sent), so.ended + [id])
  }

  // The sweep of the first n listed runs.
  function SweepUpTo(runs: RunTable, sent: seq<Sent>, ids: seq<Uuid>, sweep: Sweep, n: nat): Swept
    requires n <= |ids|
  {
    if n == 0 then Swept(runs, sent, [])
    else SweepNext(SweepUpTo(runs, sent, ids, sweep, n - 1), ids[n - 1], sweep)
  }

  // What is sent for the claim itself.
  function StopCommand(runs: RunTable, robotId: RobotId, claim: Claim): seq<Sent> {
    if claim.Holds? && StopsClaim(runs, robotId, claim.claimed)
    then [Sent(claim.claimed.id, robotId, CancelOrder(Immediate))] else []
  }

  method ReconcileRobotRuns(store: RunStore, dispatcher: Dispatcher, robotId: RobotId, sweep: Sweep)
    returns (ended: seq<Uuid>)
    modifies store, dispatcher
    ensures exists ids ::
              && ListsActive(ids, old(store.runs), robotId)
              && var swept := SweepUpTo(old(store.runs), old(dispatcher.sent), ids, sweep, |ids|);
                 && store.runs == swept.runs && ended == swept.ended
                 && dispatcher.sent == swept.sent + StopCommand(swept.runs, robotId, sweep.claim)
  {
    var ids := store.ListActiveByRobot(robotId);
    ended := [];
    for i := 0 to |ids|
      invariant Swept(store.runs, dispatcher.sent, ended) ==
                SweepUpTo(old(store.runs), old(dispatcher.sent), ids, sweep, i)
    {
      ended := SweepOne(store, dispatcher, ids[i], sweep, ended);
    }
    assert ListsActive(ids, old(store.runs), robotId);
    if sweep.claim.Holds? {
      StopAClosedClaim(store, dispatcher, robotId, sweep.claim.claimed);
    }
  }

  method SweepOne(store: RunStore, dispatcher: Dispatcher, id: Uuid, sweep: Sweep, ended: seq<Uuid>)
    returns (endedNow: seq<Uuid>)
    modifies store, dispatcher
    ensures Swept(store.runs, dispatcher.sent, endedNow) ==
            SweepNext(Swept(old(store.runs), old(dispatcher.sent), ended), id, sweep)
  {
    endedNow := ended;
    var found := store.Get(id);
    if found.None? || IsTerminal(found.value.status) {
      return;
    }
    var run := found.value;
    if run.createdAt >= sweep.since {
      return;
    }
    if IsClaimed(sweep, id) {
      return;
    }
    if run.status == Pending && sweep.now - run.createdAt < DISPATCH_WINDOW {
      return;
    }
    if sweep.claim.NotReported? && run.lastReport.Some? && run.lastReport.value.receivedAt >= sweep.since {
      return;
    }
    SweepEnds(run, id, sweep);
    TaggedOne(id, run.robotId, CancelOrder(Graceful));
    endedNow := EndSwept(store, dispatcher, id, sweep, ended);
  }

  // Sends the cancel before writing anything, so that a robot still driving is stopped whatever follows.
  method EndSwept(store: RunStore, dispatcher: Dispatcher, id: Uuid, sweep: Sweep, ended: seq<Uuid>)
    returns (endedNow: seq<Uuid>)
    requires id in store.runs && !SweepSkips(sweep, id, store.runs[id])
    modifies store, dispatcher
    ensures var run := old(store.runs)[id];
            && store.runs == old(store.runs)[id := SweepRun(run, run, id, sweep).run]
            && dispatcher.sent == old(dispatcher.sent) + [Sent(id, run.robotId, CancelOrder(Graceful))]
            && endedNow == ended + [id]
  {
    endedNow := ended;
    var run := store.runs[id];
    dispatcher.Send(id, run.robotId, CancelOrder(Graceful));
    var target := if run.status == Cancelling then Cancelled else Failed;
    var w := PlainWrite(target, run.status, Reconcile).(errors := Some([UNCLAIMED]));
    assert w == SweepWrite(run);
    var updated := store.UpdateStatus(id, w, sweep.now);
    if updated.None? {
      return;
    }
    SettleStageState(store, id, map[], sweep.now);
    endedNow := ended + [id];
  }

  method StopAClosedClaim(store: RunStore, dispatcher: Dispatcher, robotId: RobotId, claimed: UuidText)
    modifies dispatcher
    ensures dispatcher.sent == old(dispatcher.sent) + StopCommand(store.runs, robotId, Holds(claimed))
  {
    if claimed.NotAnId? {
      return;
    }
    var run := store.Get(claimed.id);
    if run.None? || !IsTerminal(run.value.status) || run.value.robotId != robotId {
      return;
    }
    dispatcher.Send(claimed.id, robotId, CancelOrder(Immediate));
  }

  // ---------- What the sweep guarantees ----------

  // The listed runs the sweep does not spare, in order.
  function Unspared(runs: RunTable, ids: seq<Uuid>, sweep: Sweep, n: nat): seq<Uuid>
    requires n <= |ids|
  {
    if n == 0 then []
    else
      var earlier, id := Unspared(runs, ids, sweep, n - 1), ids[n - 1];
      if id in runs && Spared(sweep, id, runs[id]) then earlier else earlier + [id]
  }

  function CancelsTo(ids: seq<Uuid>, robotId: RobotId): seq<Sent> {
    seq(|ids|, i requires 0 <= i < |ids| => Sent(ids[i], robotId, CancelOrder(Graceful)))
  }

  lemma {:induction false} SweepEnds(run: Run, id: Uuid, sweep: Sweep)
    requires !SweepSkips(sweep, id, run)
    ensures var step := SweepRun(run, run, id, sweep);
            && step.run.status == SweepTarget(run.status) && IsTerminal(step.run.status)
            && step.sent == [CancelOrder(Graceful)]
  {}

  // After the first n runs: those not spared are over and were sent a cancel each, in order; every
  // other run is as it was.
  ghost predicate SweptWell(runs: RunTable, sent: seq<Sent>, ids: seq<Uuid>, robotId: RobotId, sweep: Sweep, n: nat,
                            swept: Swept)
    requires n <= |ids|
  {
    && swept.ended == Unspared(runs, ids, sweep, n)
    && swept.sent == sent + CancelsTo(swept.ended, robotId)
    && swept.runs.Keys == runs.Keys
    && (forall id :: id in runs && id !in swept.ended ==> swept.runs[id] == runs[id])
    && (forall id :: id in runs && id in swept.ended ==> swept.runs[id] == SweepRun(runs[id], runs[id], id, sweep).run)
  }

  lemma {:induction false} UnsparedMembers(runs: RunTable, ids: seq<Uuid>, sweep: Sweep, n: nat)
    requires n <= |ids| && forall id :: id in ids ==> id in runs
    ensures forall id :: id in Unspared(runs, ids, sweep, n) <==> id in ids[..n] && !Spared(sweep, id, runs[id])
  {
    if n > 0 {
      UnsparedMembers(runs, ids, sweep, n - 1);
      assert ids[..n] == ids[..n - 1] + [ids[n - 1]];
    }
  }

  lemma {:induction false} SweepUpToIsGood(runs: RunTable, sent: seq<Sent>, ids: seq<Uuid>, robotId: RobotId,
                                           sweep: Sweep, n: nat)
    requires n <= |ids| && ListsActive(ids, runs, robotId)
    ensures SweptWell(runs, sent, ids, robotId, sweep, n, SweepUpTo(runs, sent, ids, sweep, n))
  {
    if n == 0 {
      assert sent + CancelsTo([], robotId) == sent;
    } else {
      SweepUpToIsGood(runs, sent, ids, robotId, sweep, n - 1);
      NotYetSwept(runs, ids, robotId, sweep, n);
      SweptStep(runs, sent, ids, robotId, sweep, n, SweepUpTo(runs, sent, ids, sweep, n - 1));
    }
  }

  // The next listed run is live, and not among those ended so far.
  lemma {:induction false} NotYetSwept(runs: RunTable, ids: seq<Uuid>, robotId: RobotId, sweep: Sweep, n: nat)
    requires 0 < n <= |ids| && ListsActive(ids, runs, robotId)
    ensures var id := ids[n - 1];
            && id in runs && runs[id].robotId == robotId && !IsTerminal(runs[id].status)
            && id !in Unspared(runs, ids, sweep, n - 1)
  {
    UnsparedMembers(runs, ids, sweep, n - 1);
    assert ids[n - 1] in ids && ids[n - 1] !in ids[..n - 1];
    TerminalIffNoExit(runs[ids[n - 1]].status);
  }

  lemma {:induction false} SweptStep(runs: RunTable, sent: seq<Sent>, ids: seq<Uuid>, robotId: RobotId, sweep: Sweep,
                                     n: nat, so: Swept)
    requires 0 < n <= |ids| && ids[n - 1] in runs && runs[ids[n - 1]].robotId == robotId
    requires !IsTerminal(runs[ids[n - 1]].status) && ids[n - 1] !in so.ended
    requires SweptWell(runs, sent, ids, robotId, sweep, n - 1, so)
    ensures SweptWell(runs, sent, ids, robotId, sweep, n, SweepNext(so, ids[n - 1], sweep))
  {
    var id := ids[n - 1];
    assert so.runs[id] == runs[id];
    if !Spared(sweep, id, runs[id]) {
      SweptOneMore(runs, sent, ids, robotId, sweep, n, so);
    }
  }

  lemma {:induction false} SweptOneMore(runs: RunTable, sent: seq<Sent>, ids: seq<Uuid>, robotId: RobotId,
                                        sweep: Sweep, n: nat, so: Swept)
    requires 0 < n <= |ids| && ids[n - 1] in runs && runs[ids[n - 1]].robotId == robotId
    requires SweptWell(runs, sent, ids, robotId, sweep, n - 1, so)
    requires ids[n - 1] !in so.ended && !SweepSkips(sweep, ids[n - 1], runs[ids[n - 1]])
    ensures var id := ids[n - 1];
            var step := SweepRun(runs[id], runs[id], id, sweep);
            SweptWell(runs, sent, ids, robotId, sweep, n,
                      Swept(so.runs[id := step.run], so.sent + Tagged(id, robotId, step.sent), so.ended + [id]))
  {
    var id := ids[n - 1];
    SweepEnds(runs[id], id, sweep);
    assert CancelsTo(so.ended + [id], robotId) == CancelsTo(so.ended, robotId) + [Sent(id, robotId, CancelOrder(Graceful))];
    TaggedOne(id, robotId, CancelOrder(Graceful));
  }

  // A sweep ends exactly the robot's live runs it does not spare. It returns those runs and no other,
  // each was sent a cancel, nothing else was sent but the stop for a claim, and every other run of
  // every robot is untouched. What it ends is complete.
  lemma {:induction false} SweepGuarantees(runs: RunTable, sent: seq<Sent>, ids: seq<Uuid>, robotId: RobotId,
                                           sweep: Sweep)
    requires ListsActive(ids, runs, robotId)
    ensures var swept := SweepUpTo(runs, sent, ids, sweep, |ids|);
            && swept.sent == sent + CancelsTo(swept.ended, robotId)
            && swept.runs.Keys == runs.Keys
            && (forall id :: id in swept.ended <==> id in ids && !Spared(sweep, id, runs[id]))
            && (forall id :: id in runs && id !in swept.ended ==> swept.runs[id] == runs[id])
            && (forall id :: id in swept.ended ==>
                  && IsTerminal(swept.runs[id].status)
                  && swept.runs[id].status == SweepTarget(runs[id].status)
                  && (RunOk(runs[id]) ==> RunOk(swept.runs[id])))
  {
    var swept := SweepUpTo(runs, sent, ids, sweep, |ids|);
    SweepUpToIsGood(runs, sent, ids, robotId, sweep, |ids|);
    UnsparedMembers(runs, ids, sweep, |ids|);
    assert ids[..|ids|] == ids;
    forall id | id in swept.ended
      ensures IsTerminal(swept.runs[id].status) && swept.runs[id].status == SweepTarget(runs[id].status)
      ensures RunOk(runs[id]) ==> RunOk(swept.runs[id])
    {
      TerminalIffNoExit(runs[id].status);
      SweepEnds(runs[id], id, sweep);
      if RunOk(runs[id]) {
        SweepKeepsOk(runs[id], runs[id], id, sweep);
      }
    }
  }

  // ---------- The sweep as events of the protocol ----------

  // The sweep of the first n listed runs, each judged as it is at its turn.
  function SweepEvents(runs: RunTable, sent: seq<Sent>, ids: seq<Uuid>, sweep: Sweep, n: nat): seq<Event>
    requires n <= |ids|
  {
    if n == 0 then []
    else
      var so := SweepUpTo(runs, sent, ids, sweep, n - 1);
      SweepEvents(runs, sent, ids, sweep, n - 1)
      + if ids[n - 1] in so.runs then [SweptOne(ids[n - 1], so.runs[ids[n - 1]], sweep)] else []
  }

  lemma {:induction false} SweepNextIsEvent(w: World, ended: seq<Uuid>, id: Uuid, sweep: Sweep)
    requires id in w.runs
    ensures var so := SweepNext(Swept(w.runs, w.sent, ended), id, sweep);
            Next(w, SweptOne(id, w.runs[id], sweep)) == w.(runs := so.runs, sent := so.sent)
  {
    var run := w.runs[id];
    assert w.runs[id := run] == w.runs;
    assert w.sent + Tagged(id, run.robotId, []) == w.sent;
    if !SweepSkips(sweep, id, run) {
      TerminalIffNoExit(run.status);
    }
  }

  lemma {:induction false} SweepUpToIsEvents(w: World, ids: seq<Uuid>, sweep: Sweep, n: nat)
    requires n <= |ids|
    ensures var so := SweepUpTo(w.runs, w.sent, ids, sweep, n);
            After(w, SweepEvents(w.runs, w.sent, ids, sweep, n)) == w.(runs := so.runs, sent := so.sent)
  {
    if n > 0 {
      var earlier := SweepEvents(w.runs, w.sent, ids, sweep, n - 1);
      var so := SweepUpTo(w.runs, w.sent, ids, sweep, n - 1);
      var reached := w.(runs := so.runs, sent := so.sent);
      SweepUpToIsEvents(w, ids, sweep, n - 1);
      if ids[n - 1] in so.runs {
        var e := SweptOne(ids[n - 1], so.runs[ids[n - 1]], sweep);
        AfterConcat(w, earlier, [e]);
        SweepNextIsEvent(reached, so.ended, ids[n - 1], sweep);
        assert [e][1..] == [];
        assert After(reached, [e]) == Next(reached, e);
      } else {
        assert earlier + [] == earlier;
      }
    }
  }

  function StopEvents(robotId: RobotId, claim: Claim): seq<Event> {
    if claim.Holds? then [ClaimStopped(robotId, claim.claimed)] else []
  }

  // What a reconnect leaves is a world of the protocol: the sweep's events in the order of the listing,
  // then the stop for a claim. So whatever holds in every reachable world holds after it.
  lemma {:induction false} ReconnectIsAfter(w: World, ids: seq<Uuid>, robotId: RobotId, sweep: Sweep)
    ensures var so := SweepUpTo(w.runs, w.sent, ids, sweep, |ids|);
            && After(w, SweepEvents(w.runs, w.sent, ids, sweep, |ids|) + StopEvents(robotId, sweep.claim)) ==
               w.(runs := so.runs, sent := so.sent + StopCommand(so.runs, robotId, sweep.claim))
            && (WorldOk(w) ==>
                  WorldOk(w.(runs := so.runs, sent := so.sent + StopCommand(so.runs, robotId, sweep.claim))))
  {
    var events, stop := SweepEvents(w.runs, w.sent, ids, sweep, |ids|), StopEvents(robotId, sweep.claim);
    SweepUpToIsEvents(w, ids, sweep, |ids|);
    AfterConcat(w, events, stop);
    if WorldOk(w) {
      SweepEventsWellFormed(w.runs, w.sent, ids, sweep, |ids|);
      AfterKeepsOk(w, events + stop);
    }
  }

  lemma {:induction false} SweepEventsWellFormed(runs: RunTable, sent: seq<Sent>, ids: seq<Uuid>, sweep: Sweep, n: nat)
    requires n <= |ids|
    ensures forall i :: 0 <= i < |SweepEvents(runs, sent, ids, sweep, n)| ==>
                          SweepEvents(runs, sent, ids, sweep, n)[i].SweptOne?
  {
    if n > 0 {
      SweepEventsWellFormed(runs, sent, ids, sweep, n - 1);
    }
  }

  // ---------- Who is told on reconnect ----------

  ghost predicate Told(sent: seq<Sent>, id: Uuid) {
    exists i :: 0 <= i < |sent| && sent[i].runId == id
  }

  // What a whole reconnect sends.
  function ReconnectSends(runs: RunTable, ids: seq<Uuid>, robotId: RobotId, sweep: Sweep): seq<Sent> {
    var so := SweepUpTo(runs, [], ids, sweep, |ids|);
    so.sent + StopCommand(so.runs, robotId, sweep.claim)
  }

  // The robot came back naming this run, in whatever spelling.
  predicate Names(claim: Claim, id: Uuid) {
    claim.Holds? && !claim.claimed.NotAnId? && claim.claimed.id == id
  }

  lemma {:induction false} ToldOfCancels(ended: seq<Uuid>, robotId: RobotId, stop: seq<Sent>, id: Uuid)
    ensures Told(CancelsTo(ended, robotId) + stop, id) <==> id in ended || Told(stop, id)
  {
    var cancels := CancelsTo(ended, robotId);
    if i :| 0 <= i < |ended| && ended[i] == id {
      assert (cancels + stop)[i].runId == id;
    }
    if i :| 0 <= i < |stop| && stop[i].runId == id {
      assert (cancels + stop)[|cancels| + i].runId == id;
    }
    if i :| 0 <= i < |cancels + stop| && (cancels + stop)[i].runId == id {
      assert i < |cancels| ==> ended[i] == id;
      assert i >= |cancels| ==> stop[i - |cancels|].runId == id;
    }
  }

  // A robot is told of a run on reconnect exactly when the sweep ends it, or the robot names it and it is
  // over by then.
  lemma {:induction false} ToldIff(runs: RunTable, ids: seq<Uuid>, robotId: RobotId, sweep: Sweep, id: Uuid)
    requires ListsActive(ids, runs, robotId) && id in runs && runs[id].robotId == robotId
    ensures var ended := id in ids && !Spared(sweep, id, runs[id]);
            Told(ReconnectSends(runs, ids, robotId, sweep), id) <==>
            ended || (Names(sweep.claim, id) && IsTerminal(runs[id].status))
  {
    var so := SweepUpTo(runs, [], ids, sweep, |ids|);
    SweepGuarantees(runs, [], ids, robotId, sweep);
    SweepKeepsRobot(runs, ids, robotId, sweep, id);
    var stop := StopCommand(so.runs, robotId, sweep.claim);
    assert so.sent == CancelsTo(so.ended, robotId);
    ToldOfCancels(so.ended, robotId, stop, id);
    assert Told(stop, id) <==> stop != [] && stop[0].runId == id;
  }

  lemma {:induction false} SweepKeepsRobot(runs: RunTable, ids: seq<Uuid>, robotId: RobotId, sweep: Sweep, id: Uuid)
    requires ListsActive(ids, runs, robotId) && id in runs
    ensures var so := SweepUpTo(runs, [], ids, sweep, |ids|);
            id in so.runs && so.runs[id].robotId == runs[id].robotId
  {
    SweepUpToIsGood(runs, [], ids, robotId, sweep, |ids|);
    SweepFollows(runs[id], runs[id], id, sweep);
  }

  // A run that is over is told of exactly when its robot comes back naming it.
  lemma {:induction false} EndedRunToldIff(runs: RunTable, ids: seq<Uuid>, robotId: RobotId, sweep: Sweep, id: Uuid)
    requires ListsActive(ids, runs, robotId) && id in runs
    requires runs[id].robotId == robotId && IsTerminal(runs[id].status)
    ensures Told(ReconnectSends(runs, ids, robotId, sweep), id) <==> Names(sweep.claim, id)
    ensures Names(sweep.claim, id) ==>
              Sent(id, robotId, CancelOrder(Immediate)) in ReconnectSends(runs, ids, robotId, sweep)
  {
    TerminalIffNoExit(runs[id].status);
    ToldIff(runs, ids, robotId, sweep, id);
    SweepGuarantees(runs, [], ids, robotId, sweep);
    if Names(sweep.claim, id) {
      assert StopCommand(SweepUpTo(runs, [], ids, sweep, |ids|).runs, robotId, sweep.claim) ==
             [Sent(id, robotId, CancelOrder(Immediate))];
    }
  }

  // Nothing is sent for a run whose record is gone.
  lemma {:induction false} GoneRunIsNotTold(runs: RunTable, ids: seq<Uuid>, robotId: RobotId, sweep: Sweep, id: Uuid)
    requires ListsActive(ids, runs, robotId) && id !in runs
    ensures !Told(ReconnectSends(runs, ids, robotId, sweep), id)
  {
    var so := SweepUpTo(runs, [], ids, sweep, |ids|);
    SweepGuarantees(runs, [], ids, robotId, sweep);
    assert so.sent == CancelsTo(so.ended, robotId);
    ToldOfCancels(so.ended, robotId, StopCommand(so.runs, robotId, sweep.claim), id);
  }

  // Closed while its robot was away, a run stays over and its robot's, whatever happens in between.
  lemma {:induction false} ClosedStaysClosed(w: World, seen: Seen, now: Time, between: seq<Event>, id: Uuid)
    requires WorldOk(w) && AllWellFormed(between)
    requires id in w.runs && seen == SeenOf(w.runs[id]) && !IsTerminal(seen.status)
    ensures var later := After(Next(w, CloseAsked(id, seen, true, now)), between);
            id in later.runs ==> IsTerminal(later.runs[id].status) && later.runs[id].robotId == w.runs[id].robotId
  {
    var e := CloseAsked(id, seen, true, now);
    ClosingStep(w, seen, now, id);
    NextKeepsOk(w, e);
    RunsOnlyMoveForward(Next(w, e), between, id);
  }

  lemma {:induction false} ClosingStep(w: World, seen: Seen, now: Time, id: Uuid)
    requires id in w.runs && seen == SeenOf(w.runs[id]) && !IsTerminal(seen.status)
    ensures var closed := Next(w, CloseAsked(id, seen, true, now));
            id in closed.runs && IsTerminal(closed.runs[id].status) && closed.runs[id].robotId == w.runs[id].robotId
  {
    CloseFollows(w.runs[id], seen, true, now);
  }

  // A run closed while its robot was away is stopped when the robot returns if and only if its record is
  // still there and the robot names it, whatever happened in between.
  lemma {:induction false} ClosedRunIsStopped(w: World, seen: Seen, now: Time, between: seq<Event>, id: Uuid,
                                              later: World, ids: seq<Uuid>, sweep: Sweep)
    requires WorldOk(w) && AllWellFormed(between)
    requires id in w.runs && seen == SeenOf(w.runs[id]) && !IsTerminal(seen.status)
    requires later == After(Next(w, CloseAsked(id, seen, true, now)), between)
    requires ListsActive(ids, later.runs, w.runs[id].robotId)
    ensures var robotId := w.runs[id].robotId;
            var stopped := id in later.runs && Names(sweep.claim, id);
            && (Told(ReconnectSends(later.runs, ids, robotId, sweep), id) <==> stopped)
            && (stopped ==>
                  Sent(id, robotId, CancelOrder(Immediate)) in ReconnectSends(later.runs, ids, robotId, sweep))
  {
    ClosedStaysClosed(w, seen, now, between, id);
    if id in later.runs {
      EndedRunToldIff(later.runs, ids, w.runs[id].robotId, sweep, id);
    } else {
      GoneRunIsNotTold(later.runs, ids, w.runs[id].robotId, sweep, id);
    }
  }

  // The case the comment on closing leaves out: a robot that comes back without saying what it holds is
  // told nothing of the run closed meanwhile.
  lemma {:induction false} ClosedUnclaimedIsNotTold(id: Uuid, run: Run, now: Time)
    requires run.status == Running
    ensures var closed := Next(World(map[id := run], {id}, []), CloseAsked(id, SeenOf(run), true, now));
            && closed.runs[id].status == Cancelled
            && ListsActive([], closed.runs, run.robotId)
            && ReconnectSends(closed.runs, [], run.robotId, Sweep(now, now, NotReported)) == []
  {
    ClosingRunning(run, now);
    var e := CloseAsked(id, SeenOf(run), true, now);
    var closed := Next(World(map[id := run], {id}, []), e);
    assert closed.runs == map[id := CloseRun(run, SeenOf(run), true, now).run];
  }

  lemma {:induction false} ClosingRunning(run: Run, now: Time)
    requires run.status == Running
    ensures CloseRun(run, SeenOf(run), true, now).run.status == Cancelled
  {
    assert TryNextState(Running, Close) == Some(Cancelled);
  }

  // ---------- Cancels deferred while the robot was away ----------

  lemma {:induction false} DeferredStaysPending(w: World, mode: CancelMode, reply: ControlReply, now: Time,
                                                between: seq<Event>, id: Uuid)
    requires WorldOk(w) && AllWellFormed(between) && id in w.runs && !IsTerminal(w.runs[id].status)
    ensures var later := After(Next(w, CancelAsked(id, SeenOf(w.runs[id]), mode, true, reply, now)), between);
            id in later.runs ==>
              && (later.runs[id].status == Cancelling || IsTerminal(later.runs[id].status))
              && later.runs[id].robotId == w.runs[id].robotId
  {
    var run := w.runs[id];
    var e := CancelAsked(id, SeenOf(run), mode, true, reply, now);
    CancelEndsAtOnceIff(run, SeenOf(run), mode, true, reply, now);
    CancelFollows(run, SeenOf(run), mode, true, reply, now);
    assert Next(w, e).runs[id] == CancelRun(run, SeenOf(run), mode, true, reply, now).run;
    NextKeepsOk(w, e);
    RunsOnlyMoveForward(Next(w, e), between, id);
  }

  // A cancel recorded while the robot was offline, and still pending when it returns, is carried out by
  // the reconnect (the robot told, the run closed as cancelled) if and only if the sweep does not spare
  // the run. A robot that names it in its canonical spelling is not told again.
  lemma {:induction false} DeferredCancelIsCarriedOutUnlessSpared(w: World, mode: CancelMode, reply: ControlReply,
                                                                  now: Time, between: seq<Event>, id: Uuid,
                                                                  later: World, ids: seq<Uuid>, sweep: Sweep)
    requires WorldOk(w) && AllWellFormed(between) && id in w.runs && !IsTerminal(w.runs[id].status)
    requires later == After(Next(w, CancelAsked(id, SeenOf(w.runs[id]), mode, true, reply, now)), between)
    requires ListsActive(ids, later.runs, w.runs[id].robotId)
    ensures id in later.runs ==>
              && (later.runs[id].status == Cancelling || IsTerminal(later.runs[id].status))
              && (later.runs[id].status == Cancelling ==>
                    CarriedOutIff(later.runs, ids, w.runs[id].robotId, sweep, id))
  {
    DeferredStaysPending(w, mode, reply, now, between, id);
    if id in later.runs && later.runs[id].status == Cancelling {
      PendingCancelCarriedOut(later.runs, ids, w.runs[id].robotId, sweep, id);
    }
  }

  ghost predicate CarriedOutIff(runs: RunTable, ids: seq<Uuid>, robotId: RobotId, sweep: Sweep, id: Uuid)
    requires id in runs
  {
    var so := SweepUpTo(runs, [], ids, sweep, |ids|);
    && id in so.runs
    && (Told(ReconnectSends(runs, ids, robotId, sweep), id) <==> !Spared(sweep, id, runs[id]))
    && (if Spared(sweep, id, runs[id]) then so.runs[id] == runs[id] else so.runs[id].status == Cancelled)
    && (IsClaimed(sweep, id) ==> Spared(sweep, id, runs[id]))
  }

  lemma {:induction false} PendingCancelCarriedOut(runs: RunTable, ids: seq<Uuid>, robotId: RobotId, sweep: Sweep,
                                                   id: Uuid)
    requires ListsActive(ids, runs, robotId) && id in runs
    requires runs[id].robotId == robotId && runs[id].status == Cancelling
    ensures CarriedOutIff(runs, ids, robotId, sweep, id)
  {
    ToldIff(runs, ids, robotId, sweep, id);
    SweepGuarantees(runs, [], ids, robotId, sweep);
  }

  // The case the comment on a deferred cancel leaves out: a robot that comes back naming the run is spared,
  // so nothing is sent and the run stays cancelling.
  lemma {:induction false} ClaimedDeferredCancelIsNotSent(id: Uuid, run: Run, mode: CancelMode, reply: ControlReply,
                                                          now: Time)
    requires run.status == Running && run.createdAt < now
    ensures var asked := Next(World(map[id := run], {id}, []), CancelAsked(id, SeenOf(run), mode, true, reply, now));
            var sweep := Sweep(now, now, Holds(Canonical(id)));
            && ListsActive([id], asked.runs, run.robotId)
            && ReconnectSends(asked.runs, [id], run.robotId, sweep) == []
            && SweepUpTo(asked.runs, [], [id], sweep, 1).runs == asked.runs
            && asked.runs[id].status == Cancelling
  {
    DeferringRunning(run, mode, reply, now);
    var e := CancelAsked(id, SeenOf(run), mode, true, reply, now);
    var asked, sweep := Next(World(map[id := run], {id}, []), e), Sweep(now, now, Holds(Canonical(id)));
    assert asked.runs == map[id := CancelRun(run, SeenOf(run), mode, true, reply, now).run];
    assert SweepUpTo(asked.runs, [], [id], sweep, 1) == Swept(asked.runs, [], []);
  }

  lemma {:induction false} DeferringRunning(run: Run, mode: CancelMode, reply: ControlReply, now: Time)
    requires run.status == Running
    ensures var asked := CancelRun(run, SeenOf(run), mode, true, reply, now).run;
            asked.status == Cancelling && asked.robotId == run.robotId && asked.createdAt == run.createdAt
  {
    CancelEndsAtOnceIff(run, SeenOf(run), mode, true, reply, now);
    CancelCases(run, SeenOf(run), mode, true, reply, now);
  }

  // The live run a robot claims in another spelling than the canonical one is not recognised as
  // claimed: it is closed like any other, and the robot is then told to drop it at once.
  lemma {:induction false} OtherSpellingIsNotAClaim(runs: RunTable, sent: seq<Sent>, ids: seq<Uuid>, robotId: RobotId,
                                                    sweep: Sweep, id: Uuid)
    requires ListsActive(ids, runs, robotId) && id in ids
    requires sweep.claim == Holds(OtherSpelling(id))
    requires runs[id].createdAt < sweep.since && runs[id].status != Pending
    ensures var swept := SweepUpTo(runs, sent, ids, sweep, |ids|);
            && id in swept.ended
            && StopCommand(swept.runs, robotId, sweep.claim) == [Sent(id, robotId, CancelOrder(Immediate))]
  {
    SweepGuarantees(runs, sent, ids, robotId, sweep);
    SweepFollows(runs[id], runs[id], id, sweep);
    SweepUpToIsGood(runs, sent, ids, robotId, sweep, |ids|);
  }
}
