/**
 Planning an update's coverage stages before the mission is locked, and again under the lock what
 changed meanwhile. Plans are kept by the input's position in the request.
 */
module MissionPlanning {
  import opened Wrappers
  import opened Mission
  import opened MissionAuthoring

  datatype Entry = Entry(path: Path, input: StageInput)

  // What planning is asked: whether a stored stage would be reproduced for the input at a path, and
  // the plan for that input, none when the planner fails.
  datatype Planner = Planner(reproduces: (Path, Stage) -> bool, plan: Path -> Option<CoveragePlan>)

  datatype PlanningError = Refused(reason: AuthoringError) | PlannerFailed

  type Plans = map<Path, CoveragePlan>

  // Every input with its position, cleanup children right after their parent.
  function Walk(inputs: seq<StageInput>, path: Path, index: nat): seq<Entry>
    decreases InputSize(inputs)
  {
    if inputs == [] then []
    else
      [Entry(path + [index], inputs[0])]
      + Walk(InputCleanups(inputs[0]), path + [index], 0)
      + Walk(inputs[1..], path, index + 1)
  }

  predicate IsPlanned(input: StageInput) {
    input.CoverageInput? && !input.carries
  }

  function ToPlan(walked: seq<Entry>): seq<Entry> {
    if walked == [] then []
    else ToPlan(walked[..|walked| - 1]) + if IsPlanned(Last(walked).input) then [Last(walked)] else []
  }

  predicate NamesCoverage(stored: map<Uuid, Stage>, input: StageInput) {
    input.stageId.Some? && input.stageId.value in stored && stored[input.stageId.value].CoverageStage?
  }

  // ---------- The check before any planning ----------

  function CheckUpTo(walked: seq<Entry>, stored: map<Uuid, Stage>, n: nat): Result<set<Uuid>, AuthoringError>
    requires n <= |walked|
  {
    if n == 0 then Success({})
    else
      var seen :- CheckUpTo(walked, stored, n - 1);
      var input := walked[n - 1].input;
      if input.stageId.None? then Success(seen)
      else if input.stageId.value in seen then Failure(DuplicateStageId)
      else if input.CoverageInput? && !NamesCoverage(stored, input) then Failure(StageNotInMission)
      else Success(seen + {input.stageId.value})
  }

  // ---------- Planning ----------

  // None when the stored stage would be reproduced.
  function PlanIfChanged(e: Entry, stored: map<Uuid, Stage>, planner: Planner): Result<Option<CoveragePlan>,
                         PlanningError> {
    if NamesCoverage(stored, e.input) && planner.reproduces(e.path, stored[e.input.stageId.value]) then Success(None)
    else if planner.plan(e.path).None? then Failure(PlannerFailed)
    else Success(planner.plan(e.path))
  }

  function PlanUpTo(todo: seq<Entry>, stored: map<Uuid, Stage>, planner: Planner, n: nat): Result<Plans, PlanningError>
    requires n <= |todo|
  {
    if n == 0 then Success(map[])
    else
      var planned :- PlanUpTo(todo, stored, planner, n - 1);
      var plan :- PlanIfChanged(todo[n - 1], stored, planner);
      Success(if plan.Some? then planned[todo[n - 1].path := plan.value] else planned)
  }

  function PlanInputs(inputs: seq<StageInput>, stored: map<Uuid, Stage>, planner: Planner): Result<Plans,
                      PlanningError> {
    var walked := Walk(inputs, [], 0);
    var checked := CheckUpTo(walked, stored, |walked|);
    if checked.Failure? then Failure(Refused(checked.error))
    else PlanUpTo(ToPlan(walked), stored, planner, |ToPlan(walked)|)
  }

  // The second pass: inputs without a plan are judged again, by the stages as they then are.
  function ReplanUpTo(todo: seq<Entry>, stored: map<Uuid, Stage>, planner: Planner, planned: Plans, n: nat)
    : Result<Plans, PlanningError>
    requires n <= |todo|
  {
    if n == 0 then Success(planned)
    else
      var before :- ReplanUpTo(todo, stored, planner, planned, n - 1);
      var e := todo[n - 1];
      if e.path in before then Success(before)
      else if !NamesCoverage(stored, e.input) then Failure(Refused(StageNotInMission))
      else
        var plan :- PlanIfChanged(e, stored, planner);
        Success(if plan.Some? then before[e.path := plan.value] else before)
  }

  function Replan(inputs: seq<StageInput>, stored: map<Uuid, Stage>, planner: Planner, planned: Plans)
    : Result<Plans, PlanningError>
  {
    var todo := ToPlan(Walk(inputs, [], 0));
    ReplanUpTo(todo, stored, planner, planned, |todo|)
  }

  method ComputePlans(inputs: seq<StageInput>, stored: map<Uuid, Stage>, planner: Planner)
    returns (plans: Result<Plans, PlanningError>)
    ensures plans == PlanInputs(inputs, stored, planner)
  {
    var walked := Walk(inputs, [], 0);
    var seen: set<Uuid> := {};
    for i := 0 to |walked|
      invariant CheckUpTo(walked, stored, i) == Success(seen)
    {
      var input := walked[i].input;
      if input.stageId.None? {
        continue;
      }
      var bad := if input.stageId.value in seen then Some(DuplicateStageId)
                 else if input.CoverageInput? && !NamesCoverage(stored, input) then Some(StageNotInMission) else None;
      if bad.Some? {
        CheckFails(walked, stored, i + 1, |walked|);
        return Failure(Refused(bad.value));
      }
      seen := seen + {input.stageId.value};
    }
    var todo := ToPlan(walked);
    var planned: Plans := map[];
    for i := 0 to |todo|
      invariant PlanUpTo(todo, stored, planner, i) == Success(planned)
    {
      var plan := PlanIfChanged(todo[i], stored, planner);
      if plan.Failure? {
        PlanFails(todo, stored, planner, i + 1, |todo|);
        return Failure(plan.error);
      }
      if plan.value.Some? {
        planned := planned[todo[i].path := plan.value.value];
      }
    }
    plans := Success(planned);
  }

  method ReplanChangedMeanwhile(inputs: seq<StageInput>, stored: map<Uuid, Stage>, planner: Planner, planned: Plans)
    returns (plans: Result<Plans, PlanningError>)
    ensures plans == Replan(inputs, stored, planner, planned)
  {
    var todo := ToPlan(Walk(inputs, [], 0));
    var known := planned;
    for i := 0 to |todo|
      invariant ReplanUpTo(todo, stored, planner, planned, i) == Success(known)
    {
      var e := todo[i];
      if e.path in known {
        continue;
      }
      var plan := if NamesCoverage(stored, e.input) then PlanIfChanged(e, stored, planner)
                  else Failure(Refused(StageNotInMission));
      if plan.Failure? {
        ReplanFails(todo, stored, planner, planned, i + 1, |todo|);
        return Failure(plan.error);
      }
      if plan.value.Some? {
        known := known[e.path := plan.value.value];
      }
    }
    plans := Success(known);
  }

  lemma {:induction false} CheckFails(walked: seq<Entry>, stored: map<Uuid, Stage>, n: nat, m: nat)
    requires n <= m <= |walked| && CheckUpTo(walked, stored, n).Failure?
    ensures CheckUpTo(walked, stored, m) == CheckUpTo(walked, stored, n)
  {
    if n < m {
      CheckFails(walked, stored, n, m - 1);
    }
  }

  lemma {:induction false} PlanFails(todo: seq<Entry>, stored: map<Uuid, Stage>, planner: Planner, n: nat, m: nat)
    requires n <= m <= |todo| && PlanUpTo(todo, stored, planner, n).Failure?
    ensures PlanUpTo(todo, stored, planner, m) == PlanUpTo(todo, stored, planner, n)
  {
    if n < m {
      PlanFails(todo, stored, planner, n, m - 1);
    }
  }

  lemma {:induction false} ReplanFails(todo: seq<Entry>, stored: map<Uuid, Stage>, planner: Planner, planned: Plans,
                                       n: nat, m: nat)
    requires n <= m <= |todo| && ReplanUpTo(todo, stored, planner, planned, n).Failure?
    ensures ReplanUpTo(todo, stored, planner, planned, m) == ReplanUpTo(todo, stored, planner, planned, n)
  {
    if n < m {
      ReplanFails(todo, stored, planner, planned, n, m - 1);
    }
  }

  // ---------- Positions tell inputs apart ----------

  // The path goes through the list at `path`, from its index-th input on.
  predicate Through(p: Path, path: Path, index: nat) {
    |p| > |path| && p[..|path|] == path && p[|path|] >= index
  }

  ghost predicate AllThrough(walked: seq<Entry>, path: Path, index: nat) {
    forall i :: 0 <= i < |walked| ==> Through(walked[i].path, path, index)
  }

  lemma {:induction false} ThroughBelow(p: Path, path: Path, index: nat)
    requires Through(p, path + [index], 0)
    ensures Through(p, path, index) && !Through(p, path, index + 1) && p != path + [index]
  {}

  lemma {:induction false} WalkGoesThrough(inputs: seq<StageInput>, path: Path, index: nat)
    ensures AllThrough(Walk(inputs, path, index), path, index)
    decreases InputSize(inputs)
  {
    if inputs != [] {
      var below := Walk(InputCleanups(inputs[0]), path + [index], 0);
      WalkGoesThrough(InputCleanups(inputs[0]), path + [index], 0);
      WalkGoesThrough(inputs[1..], path, index + 1);
      forall i | 0 <= i < |below| ensures Through(below[i].path, path, index) {
        ThroughBelow(below[i].path, path, index);
      }
      assert (path + [index])[..|path|] == path;
    }
  }

  ghost predicate PathsDiffer(walked: seq<Entry>) {
    forall i, j :: 0 <= i < j < |walked| ==> walked[i].path != walked[j].path
  }

  // No two inputs of a request share a position, so a plan is read back by the input it was made for.
  lemma {:induction false} PositionsAreDistinct(inputs: seq<StageInput>, path: Path, index: nat)
    ensures PathsDiffer(Walk(inputs, path, index))
    decreases InputSize(inputs)
  {
    if inputs != [] {
      PositionsAreDistinct(InputCleanups(inputs[0]), path + [index], 0);
      PositionsAreDistinct(inputs[1..], path, index + 1);
      WalkGoesThrough(InputCleanups(inputs[0]), path + [index], 0);
      WalkGoesThrough(inputs[1..], path, index + 1);
    }
  }

  // ---------- What planning leaves to the builder ----------

  ghost predicate AllResolved(r: Request, walked: seq<Entry>) {
    forall i :: 0 <= i < |walked| && walked[i].input.CoverageInput? ==> Resolved(r, walked[i].input, walked[i].path).Some?
  }

  lemma {:induction false} AllResolvedJoined(r: Request, head: Entry, below: seq<Entry>, rest: seq<Entry>)
    ensures AllResolved(r, [head] + below + rest) <==>
            && (head.input.CoverageInput? ==> Resolved(r, head.input, head.path).Some?)
            && AllResolved(r, below) && AllResolved(r, rest)
  {
    var all := [head] + below + rest;
    assert all[0] == head;
    assert forall i :: 0 <= i < |below| ==> all[i + 1] == below[i];
    assert forall i :: 0 <= i < |rest| ==> all[1 + |below| + i] == rest[i];
    if AllResolved(r, all) {
      forall i | 0 <= i < |below| && below[i].input.CoverageInput? ensures Resolved(r, below[i].input, below[i].path).Some? {
        assert all[i + 1].input.CoverageInput?;
      }
      forall i | 0 <= i < |rest| && rest[i].input.CoverageInput? ensures Resolved(r, rest[i].input, rest[i].path).Some? {
        assert all[1 + |below| + i].input.CoverageInput?;
      }
    }
  }

  // The builder and the walk agree on every input's position.
  lemma {:induction false} ResolvableByPosition(r: Request, inputs: seq<StageInput>, path: Path, index: nat)
    ensures Resolvable(r, inputs, path, index) <==> AllResolved(r, Walk(inputs, path, index))
    decreases InputSize(inputs)
  {
    if inputs != [] {
      var head, kids := Entry(path + [index], inputs[0]), InputCleanups(inputs[0]);
      ResolvableByPosition(r, kids, path + [index], 0);
      ResolvableByPosition(r, inputs[1..], path, index + 1);
      AllResolvedJoined(r, head, Walk(kids, path + [index], 0), Walk(inputs[1..], path, index + 1));
      assert ResolvableOne(r, inputs[0], path + [index]) <==>
        Resolvable(r, kids, path + [index], 0)
        && (inputs[0].CoverageInput? ==> Resolved(r, inputs[0], path + [index]).Some?);
    }
  }

  lemma {:induction false} ToPlanMembers(walked: seq<Entry>)
    ensures forall e :: e in ToPlan(walked) <==> e in walked && IsPlanned(e.input)
  {
    if walked != [] {
      ToPlanMembers(walked[..|walked| - 1]);
      assert walked == walked[..|walked| - 1] + [Last(walked)];
    }
  }

  // An input needing no plan: its stored stage is there, and would be reproduced.
  ghost predicate Reproduced(e: Entry, stored: map<Uuid, Stage>, planner: Planner) {
    NamesCoverage(stored, e.input) && planner.reproduces(e.path, stored[e.input.stageId.value])
  }

  ghost predicate PlannedOrReproduced(todo: seq<Entry>, n: nat, stored: map<Uuid, Stage>, planner: Planner,
                                      plans: Plans)
    requires n <= |todo|
  {
    forall i :: 0 <= i < n ==> todo[i].path in plans || Reproduced(todo[i], stored, planner)
  }

  ghost predicate OnlyFor(plans: Plans, todo: seq<Entry>) {
    forall path :: path in plans ==> exists i :: 0 <= i < |todo| && todo[i].path == path
  }

  lemma {:induction false} PlansCover(todo: seq<Entry>, stored: map<Uuid, Stage>, planner: Planner, n: nat)
    requires n <= |todo| && PlanUpTo(todo, stored, planner, n).Success?
    ensures var plans := PlanUpTo(todo, stored, planner, n).value;
            PlannedOrReproduced(todo, n, stored, planner, plans) && OnlyFor(plans, todo)
  {
    if n > 0 {
      PlansCover(todo, stored, planner, n - 1);
    }
  }

  lemma {:induction false} ReplansCover(todo: seq<Entry>, stored: map<Uuid, Stage>, planner: Planner, planned: Plans,
                                        n: nat)
    requires n <= |todo| && OnlyFor(planned, todo) && ReplanUpTo(todo, stored, planner, planned, n).Success?
    ensures var plans := ReplanUpTo(todo, stored, planner, planned, n).value;
            && PlannedOrReproduced(todo, n, stored, planner, plans) && OnlyFor(plans, todo)
            && planned.Keys <= plans.Keys
            && forall path :: path in planned ==> plans[path] == planned[path]
  {
    if n > 0 {
      ReplansCover(todo, stored, planner, planned, n - 1);
    }
  }

  ghost predicate CarriedAreStored(walked: seq<Entry>, stored: map<Uuid, Stage>) {
    forall i :: 0 <= i < |walked| && walked[i].input.CoverageInput? && walked[i].input.carries ==>
      NamesCoverage(stored, walked[i].input)
  }

  lemma {:induction false} SameEntry(walked: seq<Entry>, e: Entry, todo: seq<Entry>, path: Path)
    requires PathsDiffer(walked) && e in walked && (forall d :: d in todo ==> d in walked)
    requires e.path == path && exists i :: 0 <= i < |todo| && todo[i].path == path
    ensures e in todo
  {
    var i :| 0 <= i < |todo| && todo[i].path == path;
    assert todo[i] in walked;
    var k :| 0 <= k < |walked| && walked[k] == todo[i];
    var l :| 0 <= l < |walked| && walked[l] == e;
    assert !(k < l) && !(l < k);
  }

  // With every skipped input reproduced, what can still be missing is a carried stage.
  lemma {:induction false} ResolvedIffCarried(r: Request, walked: seq<Entry>, planner: Planner)
    requires PathsDiffer(walked) && OnlyFor(r.planned, ToPlan(walked))
    requires PlannedOrReproduced(ToPlan(walked), |ToPlan(walked)|, r.stored, planner, r.planned)
    ensures AllResolved(r, walked) <==> CarriedAreStored(walked, r.stored)
  {
    ToPlanMembers(walked);
    forall i | 0 <= i < |walked| && walked[i].input.CoverageInput?
      ensures Resolved(r, walked[i].input, walked[i].path).Some? <==>
              (walked[i].input.carries ==> NamesCoverage(r.stored, walked[i].input))
    {
      OneResolved(r, walked, planner, walked[i]);
    }
    if AllResolved(r, walked) {
      forall i | 0 <= i < |walked| && walked[i].input.CoverageInput? && walked[i].input.carries
        ensures NamesCoverage(r.stored, walked[i].input)
      {
        assert Resolved(r, walked[i].input, walked[i].path).Some?;
      }
    }
  }

  lemma {:induction false} OneResolved(r: Request, walked: seq<Entry>, planner: Planner, e: Entry)
    requires PathsDiffer(walked) && OnlyFor(r.planned, ToPlan(walked))
    requires PlannedOrReproduced(ToPlan(walked), |ToPlan(walked)|, r.stored, planner, r.planned)
    requires e in walked && e.input.CoverageInput?
    ensures Resolved(r, e.input, e.path).Some? <==> (e.input.carries ==> NamesCoverage(r.stored, e.input))
  {
    var todo := ToPlan(walked);
    ToPlanMembers(walked);
    if e.input.carries {
      if e.path in r.planned {
        SameEntry(walked, e, todo, e.path);
      }
    } else {
      assert e in todo;
      var i :| 0 <= i < |todo| && todo[i] == e;
      assert todo[i].path in r.planned || Reproduced(todo[i], r.stored, planner);
    }
  }

  lemma {:induction false} PlansExactly(todo: seq<Entry>, stored: map<Uuid, Stage>, planner: Planner, n: nat)
    requires n <= |todo| && PlanUpTo(todo, stored, planner, n).Success?
    ensures var plans := PlanUpTo(todo, stored, planner, n).value;
            && (forall path :: path in plans ==> planner.plan(path) == Some(plans[path]))
            && (forall path :: path in plans <==>
                  exists i :: 0 <= i < n && todo[i].path == path && !Reproduced(todo[i], stored, planner))
  {
    if n > 0 {
      PlansExactly(todo, stored, planner, n - 1);
    }
  }

  lemma {:induction false} OneAtPath(walked: seq<Entry>, todo: seq<Entry>, e: Entry, i: nat)
    requires PathsDiffer(walked) && e in walked && i < |todo| && todo[i] in walked && todo[i].path == e.path
    ensures todo[i] == e
  {
    assert [todo[i]][0] == todo[i];
    SameEntry(walked, e, [todo[i]], e.path);
  }

  lemma {:induction false} PlannedAt(todo: seq<Entry>, stored: map<Uuid, Stage>, planner: Planner, e: Entry)
    requires PlanUpTo(todo, stored, planner, |todo|).Success? && e in todo
    requires forall i :: 0 <= i < |todo| && todo[i].path == e.path ==> todo[i] == e
    ensures e.path in PlanUpTo(todo, stored, planner, |todo|).value <==> !Reproduced(e, stored, planner)
  {
    PlansExactly(todo, stored, planner, |todo|);
    var i :| 0 <= i < |todo| && todo[i] == e;
  }

  // Planning calls the planner for exactly the inputs that are to be planned and whose stored stage would not
  // be reproduced, and keeps what it says for each.
  lemma {:induction false} PlannedIffChanged(inputs: seq<StageInput>, stored: map<Uuid, Stage>, planner: Planner)
    requires PlanInputs(inputs, stored, planner).Success?
    ensures var plans, walked := PlanInputs(inputs, stored, planner).value, Walk(inputs, [], 0);
            && (forall path :: path in plans ==> planner.plan(path) == Some(plans[path]))
            && (forall e :: e in walked && IsPlanned(e.input) ==>
                  (e.path in plans <==> !Reproduced(e, stored, planner)))
  {
    var walked := Walk(inputs, [], 0);
    var todo := ToPlan(walked);
    PlansExactly(todo, stored, planner, |todo|);
    PositionsAreDistinct(inputs, [], 0);
    ToPlanMembers(walked);
    forall e | e in walked && IsPlanned(e.input)
      ensures e.path in PlanInputs(inputs, stored, planner).value <==> !Reproduced(e, stored, planner)
    {
      forall i | 0 <= i < |todo| && todo[i].path == e.path ensures todo[i] == e {
        OneAtPath(walked, todo, e, i);
      }
      PlannedAt(todo, stored, planner, e);
    }
  }

  // However the mission, the fields and the robots changed between planning and the lock: once planning
  // and replanning went through, each stage to be planned has a plan made for this request or a stored
  // stage that would be reproduced as things are now, plans made before the lock are kept, and the builder
  // can only still miss a carried stage that is no longer there.
  lemma {:induction false} ReplannedRequest(inputs: seq<StageInput>, before: map<Uuid, Stage>, now: map<Uuid, Stage>,
                                            planner: Planner, later: Planner, mint: Path -> Uuid)
    requires PlanInputs(inputs, before, planner).Success?
    requires Replan(inputs, now, later, PlanInputs(inputs, before, planner).value).Success?
    ensures var early := PlanInputs(inputs, before, planner).value;
            var plans := Replan(inputs, now, later, early).value;
            var walked := Walk(inputs, [], 0);
            && (forall e :: e in walked && IsPlanned(e.input) ==> e.path in plans || Reproduced(e, now, later))
            && (forall path :: path in early ==> path in plans && plans[path] == early[path])
            && (Resolvable(Request(now, plans, mint), inputs, [], 0) <==> CarriedAreStored(walked, now))
  {
    var walked := Walk(inputs, [], 0);
    var todo, early := ToPlan(walked), PlanInputs(inputs, before, planner).value;
    var plans := Replan(inputs, now, later, early).value;
    PlansCover(todo, before, planner, |todo|);
    ReplansCover(todo, now, later, early, |todo|);
    PositionsAreDistinct(inputs, [], 0);
    ToPlanMembers(walked);
    forall e | e in walked && IsPlanned(e.input) ensures e.path in plans || Reproduced(e, now, later) {
      assert e in todo;
      var i :| 0 <= i < |todo| && todo[i] == e;
      assert todo[i].path in plans || Reproduced(todo[i], now, later);
    }
    ResolvableByPosition(Request(now, plans, mint), inputs, [], 0);
    ResolvedIffCarried(Request(now, plans, mint), walked, later);
  }

  // With nothing changed, replanning adds no plan and refuses nothing.
  lemma {:induction false} ReplanKeeps(todo: seq<Entry>, stored: map<Uuid, Stage>, planner: Planner, planned: Plans,
                                       n: nat)
    requires n <= |todo| && PlannedOrReproduced(todo, n, stored, planner, planned)
    ensures ReplanUpTo(todo, stored, planner, planned, n) == Success(planned)
  {
    if n > 0 {
      ReplanKeeps(todo, stored, planner, planned, n - 1);
      assert todo[n - 1].path in planned || Reproduced(todo[n - 1], stored, planner);
    }
  }

  lemma {:induction false} CheckedCoverage(walked: seq<Entry>, stored: map<Uuid, Stage>, n: nat)
    requires n <= |walked| && CheckUpTo(walked, stored, n).Success?
    ensures forall i :: 0 <= i < n && walked[i].input.CoverageInput? && walked[i].input.stageId.Some? ==>
                          NamesCoverage(stored, walked[i].input)
  {
    if n > 0 {
      CheckedCoverage(walked, stored, n - 1);
    }
  }

  // The ids the first n inputs name, in the order of the walk.
  function NamedUpTo(walked: seq<Entry>, n: nat): seq<Uuid>
    requires n <= |walked|
  {
    if n == 0 then []
    else NamedUpTo(walked, n - 1)
         + if walked[n - 1].input.stageId.Some? then [walked[n - 1].input.stageId.value] else []
  }

  ghost predicate NamesStored(walked: seq<Entry>, stored: map<Uuid, Stage>, n: nat)
    requires n <= |walked|
  {
    forall i :: 0 <= i < n && walked[i].input.CoverageInput? && walked[i].input.stageId.Some? ==>
      NamesCoverage(stored, walked[i].input)
  }

  // The check before planning passes exactly if no id is named twice and each one a coverage input names is a
  // coverage stage of the mission; a refusal gives the one of the two that fails.
  lemma {:induction false} CheckedIff(walked: seq<Entry>, stored: map<Uuid, Stage>, n: nat)
    requires n <= |walked|
    ensures var checked, named := CheckUpTo(walked, stored, n), NamedUpTo(walked, n);
            && (checked.Success? <==> NoDuplicates(named) && NamesStored(walked, stored, n))
            && (checked.Success? ==> checked.value == AsIds(named))
            && (checked == Failure(DuplicateStageId) ==> !NoDuplicates(named))
            && (checked == Failure(StageNotInMission) ==> !NamesStored(walked, stored, n))
  {
    if n > 0 {
      CheckedIff(walked, stored, n - 1);
      var input, earlier := walked[n - 1].input, NamedUpTo(walked, n - 1);
      if input.stageId.Some? {
        ConcatNoDuplicates(earlier, [input.stageId.value]);
        assert AsIds(earlier + [input.stageId.value]) == AsIds(earlier) + {input.stageId.value};
      } else {
        assert earlier + [] == earlier;
      }
    }
  }

  // The request's model takes a carried stage only with the id to carry.
  ghost predicate CarriesById(walked: seq<Entry>) {
    forall i :: 0 <= i < |walked| && walked[i].input.CoverageInput? && walked[i].input.carries ==>
      walked[i].input.stageId.Some?
  }

  // When the mission did not change meanwhile, a request that was planned and replanned is refused only
  // for its ids: one named twice, carried children included, or one that is not the mission's. Fields and
  // robots may have changed in between; if they did not either, the plans are those made before the lock.
  lemma {:induction false} PlannedRequestAccepted(inputs: seq<StageInput>, stored: map<Uuid, Stage>, planner: Planner,
                                                  later: Planner, mint: Path -> Uuid)
    requires PlanInputs(inputs, stored, planner).Success? && CarriesById(Walk(inputs, [], 0))
    requires var early := PlanInputs(inputs, stored, planner).value;
             && Replan(inputs, stored, later, early).Success?
             && GoodRequest(Request(stored, Replan(inputs, stored, later, early).value, mint))
    ensures var plans := Replan(inputs, stored, later, PlanInputs(inputs, stored, planner).value).value;
            var r := Request(stored, plans, mint);
            && (WithIds(r, inputs).Success? <==>
                && NoDuplicates(Claims(r, inputs, [], 0))
                && forall id :: id in Claims(r, inputs, [], 0) ==> id in stored)
            && (later == planner ==> plans == PlanInputs(inputs, stored, planner).value)
  {
    var walked, early := Walk(inputs, [], 0), PlanInputs(inputs, stored, planner).value;
    var r := Request(stored, Replan(inputs, stored, later, early).value, mint);
    ReplannedRequest(inputs, stored, stored, planner, later, mint);
    CheckedCoverage(walked, stored, |walked|);
    WithIdsAccepts(r, inputs);
    PlansCover(ToPlan(walked), stored, planner, |ToPlan(walked)|);
    ReplanKeeps(ToPlan(walked), stored, planner, early, |ToPlan(walked)|);
  }
}
