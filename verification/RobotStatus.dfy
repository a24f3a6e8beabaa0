/**
 A robot's displayed status is computed in two places: the fleet view keeps one active run per robot
 from a single listing, the push path asks whether any run of the robot is executing.
 */
module RobotStatus {
  import opened Wrappers
  import opened Lifecycle
  import opened Runs
  import opened RunWorld
  import opened RunTheorems

  datatype DisplayStatus = Offline | Charging | Active | Idle

  datatype RobotFacts = RobotFacts(online: bool, charging: bool)

  function DeriveStatus(robot: RobotFacts, hasActiveMission: bool): DisplayStatus {
    if !robot.online then Offline
    else if robot.charging then Charging
    else if hasActiveMission then Active
    else Idle
  }

  // What a listing of the active runs returns: each once, in no particular order.
  predicate ListsAllActive(listing: seq<Uuid>, runs: RunTable) {
    && NoDuplicates(listing)
    && (forall id :: id in listing ==> id in runs && IsActive(runs[id].status))
    && (forall id :: id in runs && IsActive(runs[id].status) ==> id in listing)
  }

  // One run per robot; of several the last listed stays.
  function CurrentRuns(runs: RunTable, listing: seq<Uuid>): map<RobotId, Uuid>
    requires forall id :: id in listing ==> id in runs
  {
    if listing == [] then map[]
    else CurrentRuns(runs, listing[..|listing| - 1])[runs[Last(listing)].robotId := Last(listing)]
  }

  // The status the fleet view shows.
  function ViewStatus(robots: map<RobotId, RobotFacts>, runs: RunTable, listing: seq<Uuid>, robotId: RobotId):
    Option<DisplayStatus>
    requires ListsAllActive(listing, runs)
  {
    if robotId !in robots then None
    else
      var current := CurrentRuns(runs, listing);
      CurrentIsOwn(runs, listing, robotId);
      Some(DeriveStatus(robots[robotId], robotId in current && IsExecuting(runs[current[robotId]].status)))
  }

  predicate HasExecutingRun(runs: RunTable, robotId: RobotId) {
    exists id :: id in runs && runs[id].robotId == robotId && IsExecuting(runs[id].status)
  }

  // The status pushed to clients.
  function PushStatus(robots: map<RobotId, RobotFacts>, runs: RunTable, robotId: RobotId): Option<DisplayStatus> {
    if robotId !in robots then None
    else Some(DeriveStatus(robots[robotId], HasExecutingRun(runs, robotId)))
  }

  // A robot shows as offline first, then as charging, and as active if it has a live run that its robot has
  // taken on; otherwise it is idle.
  lemma {:induction false} ShownAs(robots: map<RobotId, RobotFacts>, runs: RunTable, robotId: RobotId)
    ensures var shown := PushStatus(robots, runs, robotId);
            && (shown.None? <==> robotId !in robots)
            && (shown == Some(Offline) <==> robotId in robots && !robots[robotId].online)
            && (shown == Some(Charging) <==> robotId in robots && robots[robotId].online && robots[robotId].charging)
            && (shown == Some(Active) <==>
                  && robotId in robots && robots[robotId].online && !robots[robotId].charging
                  && exists id :: id in runs && runs[id].robotId == robotId
                                  && !IsTerminal(runs[id].status) && runs[id].status != Pending)
  {
    forall id | id in runs ensures IsExecuting(runs[id].status) <==> !IsTerminal(runs[id].status) && runs[id].status != Pending {
      TerminalIffNoExit(runs[id].status);
    }
  }

  // The run kept for a robot is a listed run of it, and there is one if any is listed.
  lemma {:induction false} CurrentIsOwn(runs: RunTable, listing: seq<Uuid>, robotId: RobotId)
    requires forall id :: id in listing ==> id in runs
    ensures var current := CurrentRuns(runs, listing);
            robotId in current ==> current[robotId] in listing && runs[current[robotId]].robotId == robotId
    ensures forall id :: id in listing && runs[id].robotId == robotId ==> robotId in CurrentRuns(runs, listing)
  {
    if listing != [] {
      var earlier := listing[..|listing| - 1];
      assert listing == earlier + [Last(listing)];
      CurrentIsOwn(runs, earlier, robotId);
    }
  }

  ghost predicate WaitsAndExecutes(runs: RunTable, robotId: RobotId) {
    && HasExecutingRun(runs, robotId)
    && exists id :: id in runs && runs[id].robotId == robotId && runs[id].status == Pending
  }

  // Unless the robot has a pending run next to an executing one, the two paths agree however the
  // database orders the listing.
  lemma {:induction false} StatusPathsAgree(robots: map<RobotId, RobotFacts>, runs: RunTable, listing: seq<Uuid>,
                                            robotId: RobotId)
    requires ListsAllActive(listing, runs) && !WaitsAndExecutes(runs, robotId)
    ensures ViewStatus(robots, runs, listing, robotId) == PushStatus(robots, runs, robotId)
  {
    CurrentIsOwn(runs, listing, robotId);
    var current := CurrentRuns(runs, listing);
    if HasExecutingRun(runs, robotId) {
      var id :| id in runs && runs[id].robotId == robotId && IsExecuting(runs[id].status);
      assert id in listing;
      assert IsExecuting(runs[current[robotId]].status);
    }
  }

  // The listing with one of its runs moved to the end.
  function MovedLast(listing: seq<Uuid>, i: nat): seq<Uuid>
    requires i < |listing|
  {
    listing[..i] + listing[i + 1..] + [listing[i]]
  }

  lemma {:induction false} MovedLastLists(listing: seq<Uuid>, runs: RunTable, i: nat)
    requires ListsAllActive(listing, runs) && i < |listing|
    ensures ListsAllActive(MovedLast(listing, i), runs)
  {}

  // With both, some order of the listing makes an online, uncharged robot idle on one path and active
  // on the other.
  lemma {:induction false} StatusPathsDisagree(robots: map<RobotId, RobotFacts>, runs: RunTable, listing: seq<Uuid>,
                                               robotId: RobotId)
    returns (other: seq<Uuid>)
    requires ListsAllActive(listing, runs) && WaitsAndExecutes(runs, robotId)
    requires robotId in robots && robots[robotId].online && !robots[robotId].charging
    ensures ListsAllActive(other, runs)
    ensures ViewStatus(robots, runs, other, robotId) == Some(Idle)
    ensures PushStatus(robots, runs, robotId) == Some(Active)
  {
    var id :| id in runs && runs[id].robotId == robotId && runs[id].status == Pending;
    assert id in listing;
    var i :| 0 <= i < |listing| && listing[i] == id;
    other := MovedLast(listing, i);
    MovedLastLists(listing, runs, i);
    assert Last(other) == id;
    assert CurrentRuns(runs, other)[robotId] == id;
  }

  // In every reachable world the two paths agree for every robot, whatever the order of the listing.
  lemma {:induction false} StatusPathsAlwaysAgree(events: seq<Event>, robots: map<RobotId, RobotFacts>,
                                                  listing: seq<Uuid>, robotId: RobotId)
    requires AllWellFormed(events) && ListsAllActive(listing, After(EMPTY_WORLD, events).runs)
    ensures ViewStatus(robots, After(EMPTY_WORLD, events).runs, listing, robotId) ==
            PushStatus(robots, After(EMPTY_WORLD, events).runs, robotId)
  {
    var runs := After(EMPTY_WORLD, events).runs;
    OneActiveRunPerRobot(events);
    StatusPathsAgree(robots, runs, listing, robotId);
  }

  // The same of the store's own listing, which is all the fleet view ever reads.
  method ShowStatus(store: RunStore, robots: map<RobotId, RobotFacts>, robotId: RobotId)
    returns (view: Option<DisplayStatus>)
    ensures OneActivePerRobot(store.runs) ==> view == PushStatus(robots, store.runs, robotId)
  {
    var listing := store.ListActive();
    if robotId !in robots {
      return None;
    }
    var current: map<RobotId, Uuid> := map[];
    for i := 0 to |listing|
      invariant current == CurrentRuns(store.runs, listing[..i])
    {
      assert listing[..i + 1][..i] == listing[..i];
      current := current[store.runs[listing[i]].robotId := listing[i]];
    }
    assert listing[..|listing|] == listing;
    assert ListsAllActive(listing, store.runs);
    CurrentIsOwn(store.runs, listing, robotId);
    view := Some(DeriveStatus(robots[robotId], robotId in current && IsExecuting(store.runs[current[robotId]].status)));
    if OneActivePerRobot(store.runs) {
      StatusPathsAgree(robots, store.runs, listing, robotId);
    }
  }
}
