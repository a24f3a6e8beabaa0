/**
 Splitting a planned coverage path into its swaths and the turns joining them. The planner repeats the
 point where one run of states ends and the next begins.
 */
module CoveragePath {
  import opened Wrappers

  // Where the machine is to be, and which way it faces there.
  datatype Waypoint = Waypoint(x: real, y: real, heading: real)

  datatype Section = Swath | Turn | Unknown(code: nat)

  datatype State = State(section: Section, at: Waypoint)

  // Consecutive states of one section.
  datatype Run = Run(section: Section, states: seq<State>)

  datatype SegmentKind = SwathSegment | TurnSegment

  datatype Segment = Segment(kind: SegmentKind, waypoints: seq<Waypoint>)

  datatype PathError = UnknownSection | NoStates

  datatype Split = Split(segments: seq<Segment>, route: seq<State>)

  function KindOf(section: Section): Option<SegmentKind> {
    match section
    case Swath => Some(SwathSegment)
    case Turn => Some(TurnSegment)
    case Unknown(_) => None
  }

  function Waypoints(states: seq<State>): seq<Waypoint> {
    seq(|states|, i requires 0 <= i < |states| => states[i].at)
  }

  // ---------- Runs of one section ----------

  // The runs after one more state: it joins the last run of its section, or opens one.
  function Joined(runs: seq<Run>, state: State): seq<Run> {
    if runs != [] && Last(runs).section == state.section
    then runs[..|runs| - 1] + [Run(state.section, Last(runs).states + [state])]
    else runs + [Run(state.section, [state])]
  }

  function RunsUpTo(states: seq<State>, n: nat): seq<Run>
    requires n <= |states|
  {
    if n == 0 then [] else Joined(RunsUpTo(states, n - 1), states[n - 1])
  }

  function RunsOf(states: seq<State>): seq<Run> {
    RunsUpTo(states, |states|)
  }

  function Concat(runs: seq<Run>): seq<State> {
    if runs == [] then [] else Concat(runs[..|runs| - 1]) + Last(runs).states
  }

  ghost predicate Uniform(run: Run) {
    run.states != [] && forall s :: s in run.states ==> s.section == run.section
  }

  // Every run is of one section, and neighbours are of different ones.
  ghost predicate Maximal(runs: seq<Run>) {
    runs == [] ||
    (&& Uniform(Last(runs))
     && (|runs| > 1 ==> runs[|runs| - 2].section != Last(runs).section)
     && Maximal(runs[..|runs| - 1]))
  }

  lemma {:induction false} OneMore(states: seq<State>, n: nat)
    requires 0 < n <= |states|
    ensures states[..n] == states[..n - 1] + [states[n - 1]]
  {}

  lemma {:induction false} RunsAreMaximal(states: seq<State>, n: nat)
    requires n <= |states|
    ensures Maximal(RunsUpTo(states, n)) && Concat(RunsUpTo(states, n)) == states[..n]
  {
    if n > 0 {
      RunsAreMaximal(states, n - 1);
      JoiningKeepsMaximal(RunsUpTo(states, n - 1), states[n - 1]);
      OneMore(states, n);
    }
  }

  lemma {:induction false} JoiningKeepsMaximal(runs: seq<Run>, state: State)
    requires Maximal(runs)
    ensures Maximal(Joined(runs, state)) && Concat(Joined(runs, state)) == Concat(runs) + [state]
  {}

  lemma {:induction false} RunsOfSamePrefix(a: seq<State>, b: seq<State>, n: nat)
    requires n <= |a| && n <= |b| && forall k :: 0 <= k < n ==> a[k] == b[k]
    ensures RunsUpTo(a, n) == RunsUpTo(b, n)
  {
    if n > 0 {
      RunsOfSamePrefix(a, b, n - 1);
    }
  }

  lemma {:induction false} RunsOfExtended(states: seq<State>, state: State)
    ensures RunsOf(states + [state]) == Joined(RunsOf(states), state)
  {
    RunsOfSamePrefix(states, states + [state], |states|);
  }

  // The split is the only one into maximal runs.
  lemma {:induction false} MaximalRunsAreUnique(runs: seq<Run>)
    requires Maximal(runs)
    ensures RunsOf(Concat(runs)) == runs
    decreases |Concat(runs)|
  {
    if runs != [] {
      var earlier, run: Run := runs[..|runs| - 1], Last(runs);
      var front, last: State := run.states[..|run.states| - 1], Last(run.states);
      assert runs == earlier + [run] && run.states == front + [last];
      if front == [] {
        MaximalRunsAreUnique(earlier);
        RunsOfExtended(Concat(earlier), last);
        assert Concat(runs) == Concat(earlier) + [last];
        assert Joined(earlier, last) == earlier + [Run(last.section, [last])];
      } else {
        var shorter := earlier + [Run(run.section, front)];
        MaximalRunsAreUnique(shorter);
        RunsOfExtended(Concat(shorter), last);
        JoinsShorter(earlier, run, front, last);
      }
    }
  }

  lemma {:induction false} JoinsShorter(earlier: seq<Run>, run: Run, front: seq<State>, last: State)
    requires run.states == front + [last] && last.section == run.section
    ensures Joined(earlier + [Run(run.section, front)], last) == earlier + [run]
    ensures Concat(earlier + [run]) == Concat(earlier + [Run(run.section, front)]) + [last]
  {}

  // ---------- The route ----------

  ghost predicate Filled(runs: seq<Run>) {
    forall i :: 0 <= i < |runs| ==> runs[i].states != []
  }

  lemma {:induction false} MaximalIsFilled(runs: seq<Run>)
    requires Maximal(runs)
    ensures Filled(runs)
    ensures forall i :: 0 <= i < |runs| ==> Uniform(runs[i])
  {
    if runs != [] {
      MaximalIsFilled(runs[..|runs| - 1]);
      assert forall i :: 0 <= i < |runs| - 1 ==> runs[i] == runs[..|runs| - 1][i];
    }
  }

  // The first n runs joined, each later one without its first state.
  function RouteUpTo(runs: seq<Run>, n: nat): seq<State>
    requires n <= |runs| && Filled(runs)
  {
    if n == 0 then []
    else if n == 1 then runs[0].states
    else RouteUpTo(runs, n - 1) + runs[n - 1].states[1..]
  }

  function Route(runs: seq<Run>): seq<State>
    requires Filled(runs)
  {
    RouteUpTo(runs, |runs|)
  }

  // Where the i-th run starts on the route.
  function Offset(runs: seq<Run>, i: nat): nat
    requires i <= |runs| && Filled(runs)
  {
    if i == 0 then 0 else Offset(runs, i - 1) + |runs[i - 1].states| - 1
  }

  lemma {:induction false} RouteLength(runs: seq<Run>, n: nat)
    requires 0 < n <= |runs| && Filled(runs)
    ensures |RouteUpTo(runs, n)| == Offset(runs, n) + 1
  {
    if n > 1 {
      RouteLength(runs, n - 1);
    } else {
      assert Offset(runs, 0) == 0;
    }
  }

  lemma {:induction false} RouteGrows(runs: seq<Run>, i: nat, n: nat)
    requires i <= n <= |runs| && Filled(runs)
    ensures RouteUpTo(runs, i) <= RouteUpTo(runs, n) && Offset(runs, i) <= Offset(runs, n)
  {
    if i < n {
      RouteGrows(runs, i, n - 1);
    }
  }

  // The slice of the i-th run is within the route.
  lemma {:induction false} SliceInBounds(runs: seq<Run>, i: nat)
    requires i < |runs| && Filled(runs)
    ensures Offset(runs, i) + |runs[i].states| == Offset(runs, i + 1) + 1 <= |Route(runs)|
  {
    RouteLength(runs, |runs|);
    RouteGrows(runs, i + 1, |runs|);
  }

  // On the route each run stands at its offset, but for the first state of a later run.
  lemma {:induction false} RunOnRoute(runs: seq<Run>, i: nat, k: nat)
    requires Filled(runs) && i < |runs| && k < |runs[i].states| && (i == 0 || k > 0)
    ensures Offset(runs, i) + k < |Route(runs)| && Route(runs)[Offset(runs, i) + k] == runs[i].states[k]
  {
    RouteLength(runs, i + 1);
    RunEndsRoute(runs, i, k);
    RouteGrows(runs, i + 1, |runs|);
  }

  lemma {:induction false} RunEndsRoute(runs: seq<Run>, i: nat, k: nat)
    requires Filled(runs) && i < |runs| && k < |runs[i].states| && (i == 0 || k > 0)
    ensures Offset(runs, i) + k < |RouteUpTo(runs, i + 1)|
    ensures RouteUpTo(runs, i + 1)[Offset(runs, i) + k] == runs[i].states[k]
  {
    if i > 0 {
      RouteLength(runs, i);
    }
  }

  // ---------- The segments ----------

  ghost predicate Known(runs: seq<Run>) {
    forall i :: 0 <= i < |runs| ==> KindOf(runs[i].section).Some?
  }

  // The i-th run's slice of the route.
  function SegmentAt(runs: seq<Run>, i: nat): Segment
    requires Known(runs) && Filled(runs) && i < |runs|
  {
    SliceInBounds(runs, i);
    Segment(KindOf(runs[i].section).value,
            Waypoints(Route(runs))[Offset(runs, i)..Offset(runs, i) + |runs[i].states|])
  }

  function AllSegments(runs: seq<Run>): seq<Segment>
    requires Known(runs) && Filled(runs)
  {
    seq(|runs|, i requires 0 <= i < |runs| => SegmentAt(runs, i))
  }

  // A segment by its ends: from the route's state at the run's offset to the one at the next run's.
  lemma {:induction false} SegmentEnds(runs: seq<Run>, i: nat)
    requires Known(runs) && Filled(runs) && i < |runs|
    ensures Offset(runs, i) <= Offset(runs, i + 1) < |Route(runs)|
    ensures var segment := SegmentAt(runs, i);
            && Some(segment.kind) == KindOf(runs[i].section)
            && |segment.waypoints| == |runs[i].states| && segment.waypoints != []
            && segment.waypoints[0] == Route(runs)[Offset(runs, i)].at
            && Last(segment.waypoints) == Route(runs)[Offset(runs, i + 1)].at
  {
    SliceInBounds(runs, i);
  }

  ghost function SplitOf(states: seq<State>): Result<Split, PathError> {
    var runs := RunsOf(states);
    RunsAreMaximal(states, |states|);
    MaximalIsFilled(runs);
    if !Known(runs) then Failure(UnknownSection)
    else if runs == [] then Failure(NoStates)
    else Success(Split(AllSegments(runs), Route(runs)))
  }

  method GroupRuns(states: seq<State>) returns (runs: seq<Run>)
    ensures runs == RunsOf(states) && Maximal(runs) && Filled(runs)
  {
    runs := [];
    for i := 0 to |states|
      invariant runs == RunsUpTo(states, i)
    {
      if runs != [] && Last(runs).section == states[i].section {
        runs := runs[..|runs| - 1] + [Run(states[i].section, Last(runs).states + [states[i]])];
      } else {
        runs := runs + [Run(states[i].section, [states[i]])];
      }
    }
    RunsAreMaximal(states, |states|);
    MaximalIsFilled(runs);
  }

  method JoinRoute(runs: seq<Run>) returns (route: seq<State>)
    requires Filled(runs) && runs != []
    ensures route == Route(runs)
  {
    route := runs[0].states;
    for i := 1 to |runs|
      invariant route == RouteUpTo(runs, i)
    {
      route := route + runs[i].states[1..];
    }
  }

  method Segments(states: seq<State>) returns (split: Result<Split, PathError>)
    ensures split == SplitOf(states)
  {
    var runs := GroupRuns(states);
    for i := 0 to |runs|
      invariant forall k :: 0 <= k < i ==> KindOf(runs[k].section).Some?
    {
      if KindOf(runs[i].section).None? {
        return Failure(UnknownSection);
      }
    }
    if runs == [] {
      return Failure(NoStates);
    }
    var route := JoinRoute(runs);
    var waypoints := Waypoints(route);
    var segments: seq<Segment> := [];
    var offset := 0;
    for i := 0 to |runs|
      invariant offset == Offset(runs, i) && |segments| == i
      invariant forall k :: 0 <= k < i ==> segments[k] == SegmentAt(runs, k)
    {
      SliceInBounds(runs, i);
      segments := segments + [Segment(KindOf(runs[i].section).value, waypoints[offset..offset + |runs[i].states|])];
      offset := offset + |runs[i].states| - 1;
    }
    assert segments == AllSegments(runs);
    split := Success(Split(segments, route));
  }

  // ---------- What the split is ----------

  // A path is split exactly when it has states and the planner tagged each a swath or a turn.
  lemma {:induction false} SplitIff(states: seq<State>)
    ensures SplitOf(states).Success? <==> states != [] && forall s :: s in states ==> s.section in {Swath, Turn}
    ensures SplitOf(states) == Failure(NoStates) <==> states == []
  {
    var runs := RunsOf(states);
    RunsAreMaximal(states, |states|);
    assert states[..|states|] == states;
    MaximalIsFilled(runs);
    if Known(runs) {
      forall s | s in states ensures s.section in {Swath, Turn} {
        InSomeRun(runs, s);
      }
    } else {
      var i :| 0 <= i < |runs| && KindOf(runs[i].section).None?;
      RunsAreStates(runs, i);
      assert Uniform(runs[i]) && runs[i].states[0] in states;
    }
  }

  lemma {:induction false} InSomeRun(runs: seq<Run>, s: State)
    requires Maximal(runs) && s in Concat(runs)
    ensures exists i :: 0 <= i < |runs| && s.section == runs[i].section
  {
    var earlier := runs[..|runs| - 1];
    if s in Last(runs).states {
      assert s.section == runs[|runs| - 1].section;
    } else {
      InSomeRun(earlier, s);
      var i :| 0 <= i < |earlier| && s.section == earlier[i].section;
      assert runs[i] == earlier[i];
    }
  }

  lemma {:induction false} RunsAreStates(runs: seq<Run>, i: nat)
    requires i < |runs|
    ensures forall s :: s in runs[i].states ==> s in Concat(runs)
  {
    if i < |runs| - 1 {
      RunsAreStates(runs[..|runs| - 1], i);
    }
  }

  // Two segments in a row: of different kinds, the second starting at the waypoint the first ended on.
  ghost predicate Continues(before: Segment, after: Segment) {
    && before.waypoints != [] && after.waypoints != []
    && before.kind != after.kind
    && after.waypoints[0] == Last(before.waypoints)
  }

  ghost predicate ContinuesAt(segments: seq<Segment>, i: int) {
    0 < i < |segments| ==> Continues(segments[i - 1], segments[i])
  }

  lemma {:induction false} NeighboursDiffer(runs: seq<Run>, i: nat)
    requires Maximal(runs) && 0 < i < |runs|
    ensures runs[i - 1].section != runs[i].section
  {
    if i < |runs| - 1 {
      NeighboursDiffer(runs[..|runs| - 1], i);
    }
  }

  lemma {:induction false} SegmentsContinue(runs: seq<Run>, i: nat)
    requires Known(runs) && Filled(runs) && Maximal(runs) && 0 < i < |runs|
    ensures Continues(SegmentAt(runs, i - 1), SegmentAt(runs, i))
  {
    SegmentEnds(runs, i - 1);
    SegmentEnds(runs, i);
    NeighboursDiffer(runs, i);
  }

  // One segment per maximal run, of its kind and length, each starting at the very waypoint the one
  // before ended on.
  lemma {:induction false} SegmentsFollowRuns(states: seq<State>)
    requires SplitOf(states).Success?
    ensures var runs, segments := RunsOf(states), SplitOf(states).value.segments;
            && |segments| == |runs|
            && (forall i :: 0 <= i < |runs| ==>
                  Some(segments[i].kind) == KindOf(runs[i].section) && |segments[i].waypoints| == |runs[i].states|)
    ensures var segments := SplitOf(states).value.segments; forall i :: ContinuesAt(segments, i)
  {
    var runs, segments := RunsOf(states), SplitOf(states).value.segments;
    RunsAreMaximal(states, |states|);
    MaximalIsFilled(runs);
    assert segments == AllSegments(runs);
    forall i | 0 <= i < |runs|
      ensures Some(segments[i].kind) == KindOf(runs[i].section) && |segments[i].waypoints| == |runs[i].states|
    {
      SegmentEnds(runs, i);
    }
    forall i ensures ContinuesAt(segments, i) {
      if 0 < i < |segments| {
        SegmentsContinue(runs, i);
      }
    }
  }

  lemma {:induction false} EachUniform(runs: seq<Run>, i: nat)
    requires Maximal(runs) && i < |runs|
    ensures Uniform(runs[i])
  {
    if i < |runs| - 1 {
      EachUniform(runs[..|runs| - 1], i);
    }
  }

  // A segment is a swath exactly if the planner tagged all the states of its run a swath, and a turn exactly
  // if it tagged them all a turn.
  lemma {:induction false} SwathsAreTagged(states: seq<State>, i: nat)
    requires SplitOf(states).Success? && i < |RunsOf(states)|
    ensures var run, segments := RunsOf(states)[i], SplitOf(states).value.segments;
            && i < |segments| && run.states != []
            && (segments[i].kind == SwathSegment <==> forall s :: s in run.states ==> s.section == Swath)
            && (segments[i].kind == TurnSegment <==> forall s :: s in run.states ==> s.section == Turn)
  {
    var runs := RunsOf(states);
    SegmentsFollowRuns(states);
    RunsAreMaximal(states, |states|);
    EachUniform(runs, i);
    assert runs[i].states[0] in runs[i].states;
  }

  ghost predicate NoneEmpty(segments: seq<Segment>) {
    forall i :: 0 <= i < |segments| ==> segments[i].waypoints != []
  }

  // A consumer joining the segments drops each later one's repeat.
  ghost function JoinUpTo(segments: seq<Segment>, n: nat): seq<Waypoint>
    requires n <= |segments| && NoneEmpty(segments)
  {
    if n == 0 then []
    else if n == 1 then segments[0].waypoints
    else JoinUpTo(segments, n - 1) + segments[n - 1].waypoints[1..]
  }

  lemma {:induction false} JoinOfFirst(runs: seq<Run>, segments: seq<Segment>, n: nat)
    requires Known(runs) && Filled(runs) && 0 < n <= |runs| == |segments|
    requires forall i :: 0 <= i < |runs| ==> segments[i] == SegmentAt(runs, i)
    requires NoneEmpty(segments)
    ensures Offset(runs, n) < |Route(runs)|
    ensures JoinUpTo(segments, n) == Waypoints(Route(runs))[..Offset(runs, n) + 1]
  {
    SliceInBounds(runs, n - 1);
    assert segments[n - 1] == SegmentAt(runs, n - 1);
    if n > 1 {
      JoinOfFirst(runs, segments, n - 1);
      SlicesMeet(Waypoints(Route(runs)), Offset(runs, n - 1), Offset(runs, n));
    } else {
      assert Offset(runs, 0) == 0;
    }
  }

  lemma {:induction false} SlicesMeet<T>(s: seq<T>, a: nat, b: nat)
    requires a <= b < |s|
    ensures s[..a + 1] + s[a..b + 1][1..] == s[..b + 1]
  {}

  // Joining the segments with the repeats dropped gives the whole route.
  lemma {:induction false} SegmentsJoinToRoute(states: seq<State>)
    requires SplitOf(states).Success?
    ensures var split := SplitOf(states).value;
            NoneEmpty(split.segments) && JoinUpTo(split.segments, |split.segments|) == Waypoints(split.route)
  {
    var runs, segments := RunsOf(states), SplitOf(states).value.segments;
    RunsAreMaximal(states, |states|);
    MaximalIsFilled(runs);
    assert segments == AllSegments(runs);
    forall i | 0 <= i < |segments| ensures segments[i].waypoints != [] {
      SegmentEnds(runs, i);
    }
    JoinOfFirst(runs, segments, |runs|);
    RouteLength(runs, |runs|);
    var waypoints := Waypoints(Route(runs));
    assert waypoints[..|waypoints|] == waypoints;
  }

  // A segment against its run: only the first waypoint may differ, and never in the first segment.
  lemma {:induction false} SegmentAgainstRun(runs: seq<Run>, i: nat)
    requires Known(runs) && Filled(runs) && i < |runs|
    ensures var waypoints := SegmentAt(runs, i).waypoints;
            && |waypoints| == |runs[i].states|
            && (waypoints == Waypoints(runs[i].states) <==> waypoints[0] == runs[i].states[0].at)
            && (i == 0 ==> waypoints[0] == runs[i].states[0].at)
  {
    SliceInBounds(runs, i);
    var waypoints, own := SegmentAt(runs, i).waypoints, Waypoints(runs[i].states);
    forall k | 0 <= k < |waypoints| && (i == 0 || k > 0) ensures waypoints[k] == own[k] {
      RunOnRoute(runs, i, k);
    }
    assert waypoints[0] == own[0] ==> waypoints == own;
  }

  // The planner repeats the junction before the i-th run: it starts where the run before ended.
  ghost predicate RepeatsAt(runs: seq<Run>, i: int)
    requires Filled(runs)
  {
    0 < i < |runs| ==> runs[i].states[0].at == Last(runs[i - 1].states).at
  }

  ghost predicate SegmentIsRun(runs: seq<Run>, i: int)
    requires Known(runs) && Filled(runs)
  {
    0 <= i < |runs| ==> SegmentAt(runs, i).waypoints == Waypoints(runs[i].states)
  }

  lemma {:induction false} SegmentsUpToAreRuns(runs: seq<Run>, n: nat)
    requires Known(runs) && Filled(runs) && Maximal(runs) && n < |runs|
    requires forall i :: RepeatsAt(runs, i)
    ensures SegmentIsRun(runs, n)
  {
    SegmentAgainstRun(runs, n);
    if n > 0 {
      SegmentsUpToAreRuns(runs, n - 1);
      SegmentsContinue(runs, n);
      assert RepeatsAt(runs, n);
      assert Last(Waypoints(runs[n - 1].states)) == Last(runs[n - 1].states).at;
    }
  }

  // Every segment holds exactly its own run's waypoints if and only if the planner repeated every
  // junction.
  lemma {:induction false} SegmentsAreRunsIff(states: seq<State>)
    requires SplitOf(states).Success?
    ensures Filled(RunsOf(states)) && Known(RunsOf(states))
    ensures (forall i :: SegmentIsRun(RunsOf(states), i)) <==> (forall i :: RepeatsAt(RunsOf(states), i))
  {
    var runs := RunsOf(states);
    RunsAreMaximal(states, |states|);
    MaximalIsFilled(runs);
    if forall i :: RepeatsAt(runs, i) {
      forall i ensures SegmentIsRun(runs, i) {
        if 0 <= i < |runs| {
          SegmentsUpToAreRuns(runs, i);
        }
      }
    }
    if forall i :: SegmentIsRun(runs, i) {
      forall i ensures RepeatsAt(runs, i) {
        if 0 < i < |runs| {
          RunsRepeat(runs, i);
        }
      }
    }
  }

  lemma {:induction false} RunsRepeat(runs: seq<Run>, i: nat)
    requires Known(runs) && Filled(runs) && 0 < i < |runs|
    requires SegmentIsRun(runs, i - 1) && SegmentIsRun(runs, i)
    ensures RepeatsAt(runs, i)
  {
    SegmentEnds(runs, i - 1);
    SegmentEnds(runs, i);
    assert Last(Waypoints(runs[i - 1].states)) == Last(runs[i - 1].states).at;
  }
}
