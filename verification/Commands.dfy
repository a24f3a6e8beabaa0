/**
 What an operator's command sends, records and answers, from what it read and what the robot said, and
 what the log says of the orders sent, over every history.
 */
module Commands {
  import opened Wrappers
  import opened Lifecycle
  import opened Mission
  import opened StageState
  import opened Runs
  import opened RunSteps
  import opened RunInvariants
  import opened RunWorld
  import opened RunTheorems

  // ---------- One command ----------

  // The event concerns one run: every other run, and every id drawn, is as it was.
  ghost predicate Concerns(before: World, after: World, id: Uuid) {
    id in after.runs && after.runs == before.runs[id := after.runs[id]] && after.minted == before.minted
  }

  // The log of a cancel: the request as it was received and, where it ends the run at once, that end.
  function CancelRows(from: RunStatus, headerId: nat, offline: bool, reply: ControlReply): seq<Transition> {
    [Transition(from, Cancelling, CancelRequest, Operator, Some(headerId), Some(!offline && reply.Applied?))]
    + if EndsAtOnce(from, offline, reply) then [Transition(Cancelling, Cancelled, Reconcile, Backend, None, None)] else []
  }

  // A cancel is recorded if the run is still as it was read and not over, and what is recorded goes to the
  // robot, once and in the mode asked, unless the robot is offline. The recorded request is noted as
  // received exactly when the robot, online, applied it; only a run read as over is an error.
  lemma {:induction false} CancelSendsIff(w: World, id: Uuid, seen: Seen, mode: CancelMode, offline: bool,
                                          reply: ControlReply, now: Time)
    requires id in w.runs
    ensures var run, e := w.runs[id], CancelAsked(id, seen, mode, offline, reply, now);
            var next, recorded := Next(w, e), run.status == seen.status && !IsTerminal(run.status);
            && Concerns(w, next, id)
            && next.sent == w.sent + (if recorded && !offline then [Sent(id, run.robotId, CancelOrder(mode))] else [])
            && (!recorded ==> next.runs[id] == run)
            && (recorded ==>
                  && next.runs[id].log == run.log + CancelRows(run.status, seen.headerId, offline, reply)
                  && next.runs[id].failureErrors == run.failureErrors)
            && OnRun(run, e).error == (if IsTerminal(seen.status) then Some(InvalidTransition) else None)
  {
    var run := w.runs[id];
    CancelStep(run, seen, mode, offline, reply, now);
    TaggedOne(id, run.robotId, CancelOrder(mode));
    assert w.runs[id := run] == w.runs;
  }

  lemma {:induction false} SendingStep(asked: Run, before: RunStatus, mode: CancelMode, offline: bool,
                                       reply: ControlReply, now: Time)
    requires asked.status == Cancelling && asked.log != []
    ensures var step, last := SendCancel(asked, before, mode, offline, reply, now), |asked.log| - 1;
            && step.sent == (if offline then [] else [CancelOrder(mode)])
            && step.error.None?
            && step.run.failureErrors == asked.failureErrors
            && step.run.log ==
               asked.log[last := asked.log[last].(acknowledged := Some(!offline && reply.Applied?))]
               + if EndsAtOnce(before, offline, reply) then [Transition(Cancelling, Cancelled, Reconcile, Backend, None, None)]
                 else []
  {}

  lemma {:induction false} CancelBegins(run: Run, seen: Seen, mode: CancelMode, offline: bool, reply: ControlReply,
                                        now: Time)
    ensures CancelRun(run, seen, mode, offline, reply, now) ==
            if IsTerminal(seen.status) then Step(run, [], Some(InvalidTransition))
            else if run.status != seen.status then Step(run, [], None)
            else SendCancel(Written(run, CancelWrite(seen), now), seen.status, mode, offline, reply, now)
  {
    assert TryNextState(seen.status, CancelRequest) == if IsTerminal(seen.status) then None else Some(Cancelling);
  }

  lemma {:induction false} RecordedStep(run: Run, seen: Seen, mode: CancelMode, offline: bool, reply: ControlReply,
                                        now: Time)
    requires run.status == seen.status
    ensures var step := SendCancel(Written(run, CancelWrite(seen), now), seen.status, mode, offline, reply, now);
            && step.sent == (if offline then [] else [CancelOrder(mode)]) && step.error.None?
            && step.run.log == run.log + CancelRows(run.status, seen.headerId, offline, reply)
            && step.run.failureErrors == run.failureErrors
  {
    var asked := Written(run, CancelWrite(seen), now);
    SendingStep(asked, seen.status, mode, offline, reply, now);
    assert asked.log == run.log + [Last(asked.log)];
  }

  lemma {:induction false} CancelStep(run: Run, seen: Seen, mode: CancelMode, offline: bool, reply: ControlReply,
                                      now: Time)
    ensures var step, recorded := CancelRun(run, seen, mode, offline, reply, now),
                                  run.status == seen.status && !IsTerminal(run.status);
            && step.sent == (if recorded && !offline then [CancelOrder(mode)] else [])
            && (!recorded ==> step.run == run)
            && (recorded ==> step.run.log == run.log + CancelRows(run.status, seen.headerId, offline, reply))
            && step.run.failureErrors == run.failureErrors
            && step.error == (if IsTerminal(seen.status) then Some(InvalidTransition) else None)
  {
    CancelBegins(run, seen, mode, offline, reply, now);
    if run.status == seen.status && !IsTerminal(run.status) {
      RecordedStep(run, seen, mode, offline, reply, now);
    }
  }

  // Closing a run by hand ends it as cancelled if it is live and its robot offline, and never sends anything.
  lemma {:induction false} CloseEndsIff(w: World, id: Uuid, offline: bool, now: Time)
    requires id in w.runs
    ensures var run, e := w.runs[id], CloseAsked(id, SeenOf(w.runs[id]), offline, now);
            var next, live := Next(w, e), !IsTerminal(run.status);
            && Concerns(w, next, id)
            && next.sent == w.sent
            && (live && offline ==> next.runs[id].status == Cancelled && next.runs[id].endedAt == Some(now)
                                    && next.runs[id].log ==
                                       run.log + [Transition(run.status, Cancelled, Close, Operator, None, None)])
            && (!live || !offline ==> next.runs[id] == run)
            && OnRun(run, e).error == (if !live then Some(InvalidTransition) else if !offline then Some(RobotIsOnline) else None)
  {
    var run := w.runs[id];
    TerminalIffNoExit(run.status);
    assert TryNextState(run.status, Close) == if IsTerminal(run.status) then None else Some(Cancelled);
    assert Tagged(id, run.robotId, []) == [];
    assert w.runs[id := run] == w.runs;
  }

  // Where a pause, or a resume, can be asked.
  predicate CanSteer(status: RunStatus, pause: bool) {
    if pause then status in {Dispatched, Running, Resuming} else status in {Paused, Pausing}
  }

  lemma {:induction false} SteerTable(status: RunStatus, pause: bool)
    ensures TryNextState(status, if pause then PauseRequest else ResumeRequest) ==
            if CanSteer(status, pause) then Some(if pause then Pausing else Resuming) else None
  {}

  // One order goes out, a pause for a pause and a resume for a resume, if the status read allows the request
  // and the robot is online. The run changes if the robot also applied it and the run is still as it was
  // read, and then by its one stamped request; each other end leaves it alone and is answered by its own error.
  lemma {:induction false} SteerSendsIff(w: World, id: Uuid, seen: Seen, pause: bool, offline: bool,
                                         reply: ControlReply, now: Time)
    requires id in w.runs
    ensures var run, e := w.runs[id], SteerAsked(id, seen, pause, offline, reply, now);
            var next, allowed := Next(w, e), CanSteer(seen.status, pause);
            var recorded := allowed && !offline && reply.Applied? && run.status == seen.status;
            && Concerns(w, next, id)
            && next.sent == w.sent + (if allowed && !offline
                                      then [Sent(id, run.robotId, if pause then PauseOrder else ResumeOrder)] else [])
            && (!recorded ==> next.runs[id] == run)
            && (recorded ==>
                  var to := if pause then Pausing else Resuming;
                  var row := Transition(run.status, to, if pause then PauseRequest else ResumeRequest, Operator,
                                        Some(seen.headerId), Some(true));
                  next.runs[id] == run.(status := to, log := run.log + [row]))
            && OnRun(run, e).error == (if !allowed then Some(InvalidTransition)
                                       else if offline then Some(RobotIsOffline)
                                       else match reply
                                         case Applied => None
                                         case NoReply => Some(RobotUnreachable)
                                         case Refused(_) => Some(RobotRefusedControl))
  {
    var run := w.runs[id];
    SteerTable(seen.status, pause);
    TaggedOne(id, run.robotId, if pause then PauseOrder else ResumeOrder);
    assert w.runs[id := run] == w.runs;
  }

  // ---------- The orders behind a log ----------

  datatype Kind = OfPause | OfResume | OfCancel

  // A row that says an order was given to the robot.
  predicate Says(t: Transition, kind: Kind) {
    match kind
    case OfPause => t.trigger == PauseRequest
    case OfResume => t.trigger == ResumeRequest
    case OfCancel => t.trigger == CancelRequest && t.acknowledged == Some(true)
  }

  predicate Gives(command: Command, kind: Kind) {
    match kind
    case OfPause => command == PauseOrder
    case OfResume => command == ResumeOrder
    case OfCancel => command.CancelOrder?
  }

  function RowsSaying(log: seq<Transition>, kind: Kind): nat {
    if log == [] then 0 else RowsSaying(log[..|log| - 1], kind) + if Says(Last(log), kind) then 1 else 0
  }

  function OrdersGiven(sent: seq<Sent>, id: Uuid, robotId: RobotId, kind: Kind): nat {
    if sent == [] then 0
    else OrdersGiven(sent[..|sent| - 1], id, robotId, kind)
         + if Last(sent).runId == id && Last(sent).robotId == robotId && Gives(Last(sent).command, kind) then 1 else 0
  }

  lemma {:induction false} RowsOfConcat(log: seq<Transition>, added: seq<Transition>, kind: Kind)
    ensures RowsSaying(log + added, kind) == RowsSaying(log, kind) + RowsSaying(added, kind)
  {
    if added == [] {
      assert log + added == log;
    } else {
      assert (log + added)[..|log + added| - 1] == log + added[..|added| - 1];
      RowsOfConcat(log, added[..|added| - 1], kind);
    }
  }

  lemma {:induction false} OrdersOfConcat(sent: seq<Sent>, more: seq<Sent>, id: Uuid, robotId: RobotId, kind: Kind)
    ensures OrdersGiven(sent + more, id, robotId, kind) ==
            OrdersGiven(sent, id, robotId, kind) + OrdersGiven(more, id, robotId, kind)
  {
    if more == [] {
      assert sent + more == sent;
    } else {
      assert (sent + more)[..|sent + more| - 1] == sent + more[..|more| - 1];
      OrdersOfConcat(sent, more[..|more| - 1], id, robotId, kind);
    }
  }

  // The rows a step adds to the log.
  function Added(before: Run, after: Run): seq<Transition> {
    if |before.log| <= |after.log| then after.log[|before.log|..] else []
  }

  lemma {:induction false} NoneSay(rows: seq<Transition>, kind: Kind)
    requires forall t :: t in rows ==> !Says(t, kind)
    ensures RowsSaying(rows, kind) == 0
  {
    if rows != [] {
      NoneSay(rows[..|rows| - 1], kind);
    }
  }

  lemma {:induction false} FrameLog(run: Run, robotId: RobotId, frame: Frame, now: Time)
    ensures var log, move := RecordRun(run, robotId, frame, now).log, ReportTransition(run, frame);
            log == run.log || (move.Some? && log == run.log + [ReportedRow(run.status, move.value, frame.headerId)])
  {}

  lemma {:induction false} ReplyRequestsNothing(run: Run, outcome: DispatchOutcome, repliedAt: Time, now: Time, kind: Kind)
    ensures forall t :: t in Added(run, SettleRun(run, outcome, repliedAt, now).run) ==> !Says(t, kind)
  {}

  lemma {:induction false} CloseRequestsNothing(run: Run, seen: Seen, offline: bool, now: Time, kind: Kind)
    ensures forall t :: t in Added(run, CloseRun(run, seen, offline, now).run) ==> !Says(t, kind)
  {}

  lemma {:induction false} SweepRequestsNothing(run: Run, read: Run, id: Uuid, sweep: Sweep, kind: Kind)
    ensures forall t :: t in Added(run, SweepRun(run, read, id, sweep).run) ==> !Says(t, kind)
  {}

  lemma {:induction false} OneRowAdded(run: Run, after: Run, row: Transition, kind: Kind)
    requires after.log == run.log || after.log == run.log + [row]
    requires !Says(row, kind)
    ensures forall t :: t in Added(run, after) ==> !Says(t, kind)
  {}

  lemma {:induction false} FramesRequestNothing(run: Run, robotId: RobotId, frame: Frame, now: Time, kind: Kind)
    ensures forall t :: t in Added(run, RecordRun(run, robotId, frame, now)) ==> !Says(t, kind)
  {
    var move := ReportTransition(run, frame);
    FrameLog(run, robotId, frame, now);
    if move.Some? {
      OneRowAdded(run, RecordRun(run, robotId, frame, now), ReportedRow(run.status, move.value, frame.headerId), kind);
    }
  }

  // Requests to a robot are only ever added by an operator's command.
  lemma {:induction false} OthersRequestNothing(run: Run, e: Event, kind: Kind)
    requires e.DispatchSent? || e.ReplySettled? || e.CloseAsked? || e.FrameArrived? || e.SweptOne?
    ensures RowsSaying(Added(run, OnRun(run, e).run), kind) == 0
  {
    match e
    case DispatchSent(_) =>
    case ReplySettled(_, outcome, repliedAt, now) => ReplyRequestsNothing(run, outcome, repliedAt, now, kind);
    case CloseAsked(_, seen, offline, now) => CloseRequestsNothing(run, seen, offline, now, kind);
    case FrameArrived(_, robotId, frame, now) => FramesRequestNothing(run, robotId, frame, now, kind);
    case SweptOne(id, read, sweep) => SweepRequestsNothing(run, read, id, sweep, kind);
    NoneSay(Added(run, OnRun(run, e).run), kind);
  }

  lemma {:induction false} CancelRowsSay(from: RunStatus, headerId: nat, offline: bool, reply: ControlReply, kind: Kind)
    ensures RowsSaying(CancelRows(from, headerId, offline, reply), kind) <= if kind.OfCancel? && !offline then 1 else 0
  {
    var rows := CancelRows(from, headerId, offline, reply);
    RowsOfConcat([rows[0]], rows[1..], kind);
    assert rows == [rows[0]] + rows[1..];
    NoneSay(rows[1..], kind);
  }

  lemma {:induction false} CancelSays(run: Run, seen: Seen, mode: CancelMode, offline: bool, reply: ControlReply,
                                      now: Time, id: Uuid, kind: Kind)
    ensures var step := CancelRun(run, seen, mode, offline, reply, now);
            RowsSaying(Added(run, step.run), kind) <=
            OrdersGiven(Tagged(id, run.robotId, step.sent), id, run.robotId, kind)
  {
    var step := CancelRun(run, seen, mode, offline, reply, now);
    CancelStep(run, seen, mode, offline, reply, now);
    CancelRowsSay(run.status, seen.headerId, offline, reply, kind);
    TaggedOne(id, run.robotId, CancelOrder(mode));
  }

  lemma {:induction false} SteerSays(run: Run, seen: Seen, pause: bool, offline: bool, reply: ControlReply,
                                     now: Time, id: Uuid, kind: Kind)
    ensures var step := SteerRun(run, seen, pause, offline, reply, now);
            RowsSaying(Added(run, step.run), kind) <=
            OrdersGiven(Tagged(id, run.robotId, step.sent), id, run.robotId, kind)
  {
    var added := Added(run, SteerRun(run, seen, pause, offline, reply, now).run);
    SteerTable(seen.status, pause);
    TaggedOne(id, run.robotId, if pause then PauseOrder else ResumeOrder);
    assert |added| == 1 ==> added == [added[0]] && added[..0] == [];
  }

  lemma {:induction false} StepSays(run: Run, e: Event, id: Uuid, kind: Kind)
    requires !e.Prepared? && !e.ClaimStopped? && !e.DeleteAsked?
    ensures RowsSaying(Added(run, OnRun(run, e).run), kind) <=
            OrdersGiven(Tagged(id, run.robotId, OnRun(run, e).sent), id, run.robotId, kind)
  {
    match e
    case CancelAsked(_, seen, mode, offline, reply, now) => CancelSays(run, seen, mode, offline, reply, now, id, kind);
    case SteerAsked(_, seen, pause, offline, reply, now) => SteerSays(run, seen, pause, offline, reply, now, id, kind);
    case _ => OthersRequestNothing(run, e, kind);
  }

  // The log of a run says no more orders than its robot was given.
  ghost predicate Backed(w: World, id: Uuid, kind: Kind) {
    id in w.runs ==> RowsSaying(w.runs[id].log, kind) <= OrdersGiven(w.sent, id, w.runs[id].robotId, kind)
  }

  lemma {:induction false} NextKeepsBacked(w: World, e: Event, id: Uuid, kind: Kind)
    requires Backed(w, id, kind)
    ensures Backed(Next(w, e), id, kind)
  {
    if id in w.runs && Touches(e, id) {
      var run, step := w.runs[id], OnRun(w.runs[id], e);
      OnRunFollows(run, e);
      StepSays(run, e, id, kind);
      RowsOfConcat(run.log, Added(run, step.run), kind);
      assert step.run.log == run.log + Added(run, step.run);
      OrdersOfConcat(w.sent, Tagged(id, run.robotId, step.sent), id, run.robotId, kind);
    } else if id in w.runs && id in Next(w, e).runs {
      NextSentGrows(w, e);
      OrdersOfConcat(w.sent, Next(w, e).sent[|w.sent|..], id, w.runs[id].robotId, kind);
    }
  }

  lemma {:induction false} NextSentGrows(w: World, e: Event)
    ensures w.sent <= Next(w, e).sent && Next(w, e).sent == w.sent + Next(w, e).sent[|w.sent|..]
  {}

  lemma {:induction false} AfterKeepsBacked(w: World, events: seq<Event>, id: Uuid, kind: Kind)
    requires Backed(w, id, kind)
    ensures Backed(After(w, events), id, kind)
    decreases |events|
  {
    if events != [] {
      NextKeepsBacked(w, events[0], id, kind);
      AfterKeepsBacked(Next(w, events[0]), events[1..], id, kind);
    }
  }

  // In every reachable world each pause, each resume and each cancel noted as received in a run's log has an
  // order of its own that went to the run's robot, whatever stale reads the operators acted on.
  lemma {:induction false} EveryRequestWasSent(events: seq<Event>, id: Uuid, kind: Kind)
    requires id in After(EMPTY_WORLD, events).runs
    ensures var w := After(EMPTY_WORLD, events);
            RowsSaying(w.runs[id].log, kind) <= OrdersGiven(w.sent, id, w.runs[id].robotId, kind)
  {
    AfterKeepsBacked(EMPTY_WORLD, events, id, kind);
  }
}
