/** Authoring: giving every stage of a request its identity, under one shared set of ids seen. */
module MissionAuthoring {
  import opened Wrappers
  import opened Mission

  // A stage as a caller requests it. A coverage input either carries a stored stage by its id or
  // gives planning inputs; the path it is planned to is not written by the caller.
  datatype StageInput =
    | NavigationInput(stageId: Option<Uuid>, waypoints: seq<Waypoint>, onCancel: InputCleanup)
    | CoverageInput(stageId: Option<Uuid>, carries: bool, onCancel: InputCleanup)

  datatype InputCleanup = Unstated | Stated(inputs: seq<StageInput>)

  // Where an input stands in the request: the index at each depth.
  type Path = seq<nat>

  datatype CoveragePlan = CoveragePlan(segments: seq<Segment>, provenance: CoverageProvenance)

  // What a request is resolved against: the mission's stored stages by id, the plans made for this
  // request by input path, and the fresh id each input would be given.
  datatype Request = Request(stored: map<Uuid, Stage>, planned: map<Path, CoveragePlan>, mint: Path -> Uuid)

  datatype AuthoringError = DuplicateStageId | StageNotInMission

  datatype Placed = Placed(stages: seq<Stage>, seen: set<Uuid>)
  datatype PlacedOne = PlacedOne(stage: Stage, seen: set<Uuid>)

  function InputCleanups(input: StageInput): seq<StageInput> {
    if input.onCancel.Stated? then input.onCancel.inputs else []
  }

  function InputSize(inputs: seq<StageInput>): nat
    decreases inputs, 0
  {
    if inputs == [] then 0 else OneInputSize(inputs[0]) + InputSize(inputs[1..])
  }

  function OneInputSize(input: StageInput): (size: nat)
    ensures size == if input.onCancel.Stated? then 1 + InputSize(input.onCancel.inputs) else 1
    decreases input, 1
  {
    match input.onCancel
    case Unstated => 1
    case Stated(inputs) => 1 + InputSize(inputs)
  }

  // The stages of a list at all depths, looked up by id.
  function ByStageId(stages: seq<Stage>): map<Uuid, Stage>
    decreases Size(stages)
  {
    if stages == [] then map[]
    else map[stages[0].stageId := stages[0]] + ByStageId(Cleanup(stages[0])) + ByStageId(stages[1..])
  }

  // ---------- Placing one request ----------

  function ClaimId(r: Request, id: Option<Uuid>, seen: set<Uuid>): Result<set<Uuid>, AuthoringError> {
    if id.None? then Success(seen)
    else if id.value in seen then Failure(DuplicateStageId)
    else if id.value !in r.stored then Failure(StageNotInMission)
    else Success(seen + {id.value})
  }

  function IdFor(r: Request, id: Option<Uuid>, here: Path): Uuid {
    if id.Some? then id.value else r.mint(here)
  }

  // The planned stage when this input was planned, otherwise the stored one it names.
  function Resolved(r: Request, input: StageInput, here: Path): Option<Stage>
    requires input.CoverageInput?
  {
    if here in r.planned then
      var plan := r.planned[here];
      Some(CoverageStage(IdFor(r, input.stageId, here), plan.segments, plan.provenance, Absent))
    else if input.stageId.Some? && input.stageId.value in r.stored
            && r.stored[input.stageId.value].CoverageStage? then
      Some(r.stored[input.stageId.value])
    else None
  }

  function Place(r: Request, inputs: seq<StageInput>, path: Path, index: nat, seen: set<Uuid>)
    : Result<Placed, AuthoringError>
    decreases InputSize(inputs), 1
  {
    if inputs == [] then Success(Placed([], seen))
    else
      var first :- PlaceOne(r, inputs[0], path + [index], seen);
      var rest :- Place(r, inputs[1..], path, index + 1, first.seen);
      Success(Placed([first.stage] + rest.stages, rest.seen))
  }

  function PlaceOne(r: Request, input: StageInput, here: Path, seen: set<Uuid>)
    : Result<PlacedOne, AuthoringError>
    decreases OneInputSize(input), 0
  {
    var claimed :- ClaimId(r, input.stageId, seen);
    var kids :- Place(r, InputCleanups(input), here, 0, claimed);
    match input
    case NavigationInput(id, waypoints, _) =>
      Success(PlacedOne(NavigationStage(IdFor(r, id, here), waypoints, ListedUnlessEmpty(kids.stages)), kids.seen))
    case CoverageInput(id, carries, onCancel) =>
      var resolved := Resolved(r, input, here);
      if resolved.None? then Failure(StageNotInMission)
      else if carries && onCancel.Unstated? then
        // Its stored cleanup comes along, and its ids count as claimed.
        var carried := StageIds(Cleanup(resolved.value));
        if carried !! kids.seen then Success(PlacedOne(resolved.value, kids.seen + carried))
        else Failure(DuplicateStageId)
      else Success(PlacedOne(resolved.value.(onCancel := ListedUnlessEmpty(kids.stages)), kids.seen))
  }

  function WithIds(r: Request, inputs: seq<StageInput>): Result<seq<Stage>, AuthoringError> {
    var placed :- Place(r, inputs, [], 0, {});
    Success(placed.stages)
  }

  // The builder whose nested calls share one set of seen ids.
  class Authoring {
    const request: Request
    var seen: set<Uuid>

    constructor (request: Request)
      ensures this.request == request && seen == {}
    {
      this.request := request;
      seen := {};
    }

    method Build(inputs: seq<StageInput>, path: Path) returns (staged: Result<seq<Stage>, AuthoringError>)
      modifies this
      ensures var placed := Place(request, inputs, path, 0, old(seen));
              if placed.Success? then staged == Success(placed.value.stages) && seen == placed.value.seen
              else staged == Failure(placed.error)
      decreases InputSize(inputs), 1
    {
      var out: seq<Stage> := [];
      ghost var whole := Place(request, inputs, path, 0, seen);
      PlaceStart(request, inputs, path, seen);
      for index := 0 to |inputs|
        invariant Continues(whole, out, Place(request, inputs[index..], path, index, seen))
      {
        InputSizeOfMember(inputs, index);
        PlaceStep(request, inputs, path, index, seen, whole, out);
        var stage := BuildOne(inputs[index], path + [index]);
        if stage.Failure? {
          return Failure(stage.error);
        }
        out := out + [stage.value];
      }
      assert inputs[|inputs|..] == [] && out + [] == out;
      staged := Success(out);
    }

    method BuildOne(input: StageInput, here: Path) returns (staged: Result<Stage, AuthoringError>)
      modifies this
      ensures var placed := PlaceOne(request, input, here, old(seen));
              if placed.Success? then staged == Success(placed.value.stage) && seen == placed.value.seen
              else staged == Failure(placed.error)
      decreases OneInputSize(input), 0
    {
      var claimed := ClaimId(request, input.stageId, seen);
      if claimed.Failure? {
        return Failure(claimed.error);
      }
      seen := claimed.value;
      var kids: seq<Stage> := [];
      if input.onCancel.Stated? && input.onCancel.inputs != [] {
        var nested := Build(input.onCancel.inputs, here);
        if nested.Failure? {
          return Failure(nested.error);
        }
        kids := nested.value;
      }
      assert Place(request, InputCleanups(input), here, 0, claimed.value) == Success(Placed(kids, seen));
      if input.CoverageInput? {
        var resolved := Resolved(request, input, here);
        if resolved.None? {
          return Failure(StageNotInMission);
        }
        if input.carries && input.onCancel.Unstated? {
          var carried := StageIds(Cleanup(resolved.value));
          if !(carried !! seen) {
            return Failure(DuplicateStageId);
          }
          seen := seen + carried;
          return Success(resolved.value);
        }
        return Success(resolved.value.(onCancel := ListedUnlessEmpty(kids)));
      }
      staged := Success(NavigationStage(IdFor(request, input.stageId, here), input.waypoints, ListedUnlessEmpty(kids)));
    }
  }

  lemma {:induction false} PlaceStart(r: Request, inputs: seq<StageInput>, path: Path, seen: set<Uuid>)
    ensures Continues(Place(r, inputs, path, 0, seen), [], Place(r, inputs[0..], path, 0, seen))
  {
    var whole := Place(r, inputs, path, 0, seen);
    assert inputs[0..] == inputs;
    if whole.Success? {
      assert [] + whole.value.stages == whole.value.stages;
    }
  }

  lemma {:induction false} PlaceStep(r: Request, inputs: seq<StageInput>, path: Path, index: nat, seen: set<Uuid>,
                                     whole: Result<Placed, AuthoringError>, out: seq<Stage>)
    requires index < |inputs|
    requires Continues(whole, out, Place(r, inputs[index..], path, index, seen))
    ensures var one := PlaceOne(r, inputs[index], path + [index], seen);
            if one.Failure? then whole == Failure(one.error)
            else Continues(whole, out + [one.value.stage],
                           Place(r, inputs[index + 1..], path, index + 1, one.value.seen))
  {
    assert inputs[index..][0] == inputs[index] && inputs[index..][1..] == inputs[index + 1..];
    var one := PlaceOne(r, inputs[index], path + [index], seen);
    if one.Success? {
      var rest := Place(r, inputs[index + 1..], path, index + 1, one.value.seen);
      if rest.Success? {
        assert out + ([one.value.stage] + rest.value.stages) == out + [one.value.stage] + rest.value.stages;
      }
    }
  }

  // What is built so far, followed by what is still to be placed, is the whole placement.
  ghost predicate Continues(whole: Result<Placed, AuthoringError>, out: seq<Stage>,
                            rest: Result<Placed, AuthoringError>) {
    if rest.Success? then whole == Success(Placed(out + rest.value.stages, rest.value.seen))
    else whole == rest
  }

  lemma {:induction false} InputSizeOfMember(inputs: seq<StageInput>, i: nat)
    requires i < |inputs|
    ensures InputSize(InputCleanups(inputs[i])) < InputSize(inputs)
  {
    if i > 0 {
      InputSizeOfMember(inputs[1..], i - 1);
    }
  }

  // ---------- Ids stay distinct ----------

  // The stage keeps its id, apart from those under it, and everything under it is stored too.
  ghost predicate GoodStage(stored: set<Uuid>, id: Uuid, stage: Stage) {
    && stage.stageId == id
    && id !in StageIds(Cleanup(stage))
    && DistinctIds(Cleanup(stage))
    && StageIds(Cleanup(stage)) <= stored
  }

  // Stored stages come from one mission with distinct ids, and fresh ids are fresh.
  ghost predicate GoodRequest(r: Request) {
    && (forall id :: id in r.stored ==> GoodStage(r.stored.Keys, id, r.stored[id]))
    && (forall p, q :: r.mint(p) == r.mint(q) ==> p == q)
    && (forall p :: r.mint(p) !in r.stored)
  }

  lemma {:induction false} ByStageIdKeys(stages: seq<Stage>)
    ensures ByStageId(stages).Keys == StageIds(stages)
    decreases Size(stages)
  {
    if stages != [] {
      ByStageIdKeys(Cleanup(stages[0]));
      ByStageIdKeys(stages[1..]);
    }
  }

  lemma {:induction false} ByStageIdGood(stages: seq<Stage>, id: Uuid)
    requires DistinctIds(stages) && id in StageIds(stages)
    ensures id in ByStageId(stages) && GoodStage(StageIds(stages), id, ByStageId(stages)[id])
    decreases Size(stages)
  {
    var kids, rest := Cleanup(stages[0]), stages[1..];
    ByStageIdKeys(kids);
    ByStageIdKeys(rest);
    if id in StageIds(kids) {
      ByStageIdGood(kids, id);
    } else if id in StageIds(rest) {
      ByStageIdGood(rest, id);
    }
  }

  // The id was minted for an input at or below this position.
  ghost predicate MintedAt(r: Request, id: Uuid, here: Path) {
    exists q :: here <= q && id == r.mint(q)
  }

  // The id was minted for an input of this list, at or after this index, or below one.
  ghost predicate MintedFrom(r: Request, id: Uuid, path: Path, index: nat) {
    exists q :: |q| > |path| && path <= q && q[|path|] >= index && id == r.mint(q)
  }

  lemma {:induction false} MintedLaterIsFrom(r: Request, id: Uuid, path: Path, index: nat)
    requires MintedFrom(r, id, path, index + 1)
    ensures MintedFrom(r, id, path, index)
  {}

  lemma {:induction false} MintedFromIsAt(r: Request, id: Uuid, path: Path, index: nat)
    requires MintedFrom(r, id, path, index)
    ensures MintedAt(r, id, path)
  {}

  lemma {:induction false} MintedApart(r: Request, id: Uuid, path: Path, index: nat)
    requires GoodRequest(r) && MintedAt(r, id, path + [index])
    ensures !MintedFrom(r, id, path, index + 1)
  {}

  // The ids a placement produced: the stored ones are exactly those newly seen.
  ghost predicate Accounted(stored: set<Uuid>, ids: set<Uuid>, seen: set<Uuid>, after: set<Uuid>) {
    && seen <= after <= stored
    && ids * stored == after - seen
  }

  lemma {:induction false} AccountedTogether(stored: set<Uuid>, own: set<Uuid>, rest: set<Uuid>,
                                             seen: set<Uuid>, middle: set<Uuid>, after: set<Uuid>)
    requires Accounted(stored, own, seen, middle) && Accounted(stored, rest, middle, after)
    ensures Accounted(stored, own + rest, seen, after)
    ensures own * rest * stored == {}
  {
    assert (own + rest) * stored == own * stored + rest * stored;
    assert own * rest * stored == (own * stored) * (rest * stored);
  }

  function IdsOf(stage: Stage): set<Uuid> {
    {stage.stageId} + StageIds(Cleanup(stage))
  }

  ghost predicate GoodPlacement(r: Request, placed: Placed, path: Path, index: nat, seen: set<Uuid>) {
    && DistinctIds(placed.stages)
    && Accounted(r.stored.Keys, StageIds(placed.stages), seen, placed.seen)
    && (forall id :: id in StageIds(placed.stages) && id !in r.stored ==> MintedFrom(r, id, path, index))
  }

  ghost predicate GoodPlacementOne(r: Request, placed: PlacedOne, here: Path, seen: set<Uuid>) {
    && placed.stage.stageId !in StageIds(Cleanup(placed.stage))
    && DistinctIds(Cleanup(placed.stage))
    && Accounted(r.stored.Keys, IdsOf(placed.stage), seen, placed.seen)
    && (forall id :: id in IdsOf(placed.stage) && id !in r.stored ==> MintedAt(r, id, here))
  }

  lemma {:induction false} PlacementsJoin(r: Request, first: PlacedOne, rest: Placed, path: Path, index: nat,
                                          seen: set<Uuid>)
    requires GoodRequest(r)
    requires GoodPlacementOne(r, first, path + [index], seen)
    requires GoodPlacement(r, rest, path, index + 1, first.seen)
    ensures GoodPlacement(r, Placed([first.stage] + rest.stages, rest.seen), path, index, seen)
  {
    var own, others := IdsOf(first.stage), StageIds(rest.stages);
    AccountedTogether(r.stored.Keys, own, others, seen, first.seen, rest.seen);
    forall id | id in own && id !in r.stored ensures MintedFrom(r, id, path, index) && id !in others {
      MintedApart(r, id, path, index);
    }
    forall id | id in others && id !in r.stored ensures MintedFrom(r, id, path, index) {
      MintedLaterIsFrom(r, id, path, index);
    }
    assert own !! others;
    DistinctCons(first.stage, rest.stages);
  }

  lemma {:induction false} PlacedIds(r: Request, inputs: seq<StageInput>, path: Path, index: nat, seen: set<Uuid>)
    requires GoodRequest(r) && seen <= r.stored.Keys
    requires Place(r, inputs, path, index, seen).Success?
    ensures GoodPlacement(r, Place(r, inputs, path, index, seen).value, path, index, seen)
    decreases InputSize(inputs), 1
  {
    if inputs != [] {
      var here := path + [index];
      PlacedOneIds(r, inputs[0], here, seen);
      var first := PlaceOne(r, inputs[0], here, seen).value;
      PlacedIds(r, inputs[1..], path, index + 1, first.seen);
      PlacementsJoin(r, first, Place(r, inputs[1..], path, index + 1, first.seen).value, path, index, seen);
    }
  }

  // A stage named by the caller, or freshly minted, over cleanup stages placed just below it.
  lemma {:induction false} ParentJoins(r: Request, stage: Stage, id: Option<Uuid>, here: Path, seen: set<Uuid>,
                                       kids: Placed)
    requires GoodRequest(r) && seen <= r.stored.Keys
    requires ClaimId(r, id, seen).Success?
    requires GoodPlacement(r, kids, here, 0, ClaimId(r, id, seen).value)
    requires stage.stageId == IdFor(r, id, here) && Cleanup(stage) == kids.stages
    ensures GoodPlacementOne(r, PlacedOne(stage, kids.seen), here, seen)
  {
    var claimed, own := ClaimId(r, id, seen).value, stage.stageId;
    assert Accounted(r.stored.Keys, {own}, seen, claimed);
    AccountedTogether(r.stored.Keys, {own}, StageIds(kids.stages), seen, claimed, kids.seen);
    forall x | x in StageIds(kids.stages) && x !in r.stored ensures MintedAt(r, x, here) {
      MintedFromIsAt(r, x, here, 0);
    }
  }

  lemma {:induction false} CarriedJoins(r: Request, id: Uuid, here: Path, seen: set<Uuid>)
    requires GoodRequest(r) && seen <= r.stored.Keys
    requires ClaimId(r, Some(id), seen).Success?
    requires StageIds(Cleanup(r.stored[id])) !! seen + {id}
    ensures GoodPlacementOne(r, PlacedOne(r.stored[id], seen + {id} + StageIds(Cleanup(r.stored[id]))), here, seen)
  {}

  lemma {:induction false} PlacedOneIds(r: Request, input: StageInput, here: Path, seen: set<Uuid>)
    requires GoodRequest(r) && seen <= r.stored.Keys
    requires PlaceOne(r, input, here, seen).Success?
    ensures GoodPlacementOne(r, PlaceOne(r, input, here, seen).value, here, seen)
    decreases OneInputSize(input), 0
  {
    var claimed := ClaimId(r, input.stageId, seen).value;
    PlacedIds(r, InputCleanups(input), here, 0, claimed);
    var kids := Place(r, InputCleanups(input), here, 0, claimed).value;
    var placed := PlaceOne(r, input, here, seen).value;
    if input.CoverageInput? && input.carries && input.onCancel.Unstated? && here !in r.planned {
      CarriedJoins(r, input.stageId.value, here, seen);
    } else {
      ParentJoins(r, placed.stage, input.stageId, here, seen, kids);
    }
  }

  // Whatever a request asks for, the tree it is given has distinct ids: each is one of the mission's
  // own or freshly minted.
  lemma {:induction false} WithIdsDistinct(r: Request, inputs: seq<StageInput>)
    requires GoodRequest(r) && WithIds(r, inputs).Success?
    ensures var stages := WithIds(r, inputs).value;
            && DistinctIds(stages)
            && (forall id :: id in StageIds(stages) ==> id in r.stored || exists q :: id == r.mint(q))
  {
    PlacedIds(r, inputs, [], 0, {});
    forall id | id in StageIds(WithIds(r, inputs).value) && id !in r.stored ensures exists q :: id == r.mint(q) {
      assert MintedFrom(r, id, [], 0);
    }
  }

  // ---------- The request's shape is kept ----------

  // The stage is what this input asked for: its id, its kind, its geometry and, stage by stage, its
  // cleanup. A coverage stage carried by id alone is the stored one, cleanup included.
  ghost predicate Answers(r: Request, input: StageInput, here: Path, stage: Stage)
    decreases OneInputSize(input), 0
  {
    && stage.stageId == IdFor(r, input.stageId, here)
    && match input
       case NavigationInput(_, waypoints, _) =>
         && stage.NavigationStage? && stage.waypoints == waypoints
         && AnswersAll(r, InputCleanups(input), here, 0, Cleanup(stage))
       case CoverageInput(id, carries, onCancel) =>
         && stage.CoverageStage?
         && (if here in r.planned then
               && stage.segments == r.planned[here].segments
               && stage.provenance == r.planned[here].provenance
               && AnswersAll(r, InputCleanups(input), here, 0, Cleanup(stage))
             else
               && id.Some? && id.value in r.stored
               && (if carries && onCancel.Unstated? then stage == r.stored[id.value]
                   else
                     && r.stored[id.value].CoverageStage?
                     && stage.segments == r.stored[id.value].segments
                     && stage.provenance == r.stored[id.value].provenance
                     && AnswersAll(r, InputCleanups(input), here, 0, Cleanup(stage))))
  }

  ghost predicate AnswersAll(r: Request, inputs: seq<StageInput>, path: Path, index: nat, stages: seq<Stage>)
    decreases InputSize(inputs), 1
  {
    && |stages| == |inputs|
    && (inputs != [] ==>
          && Answers(r, inputs[0], path + [index], stages[0])
          && AnswersAll(r, inputs[1..], path, index + 1, stages[1..]))
  }

  lemma {:induction false} PlacedAnswers(r: Request, inputs: seq<StageInput>, path: Path, index: nat, seen: set<Uuid>)
    requires GoodRequest(r) && Place(r, inputs, path, index, seen).Success?
    ensures AnswersAll(r, inputs, path, index, Place(r, inputs, path, index, seen).value.stages)
    decreases InputSize(inputs), 1
  {
    if inputs != [] {
      PlacedOneAnswers(r, inputs[0], path + [index], seen);
      var first := PlaceOne(r, inputs[0], path + [index], seen).value;
      PlacedAnswers(r, inputs[1..], path, index + 1, first.seen);
      var stages := Place(r, inputs, path, index, seen).value.stages;
      assert stages[0] == first.stage;
      assert stages[1..] == Place(r, inputs[1..], path, index + 1, first.seen).value.stages;
    }
  }

  lemma {:induction false} PlacedOneAnswers(r: Request, input: StageInput, here: Path, seen: set<Uuid>)
    requires GoodRequest(r) && PlaceOne(r, input, here, seen).Success?
    ensures Answers(r, input, here, PlaceOne(r, input, here, seen).value.stage)
    decreases OneInputSize(input), 0
  {
    var claimed := ClaimId(r, input.stageId, seen).value;
    PlacedAnswers(r, InputCleanups(input), here, 0, claimed);
    var kids := Place(r, InputCleanups(input), here, 0, claimed).value;
    var stage := PlaceOne(r, input, here, seen).value.stage;
    if input.CoverageInput? && input.carries && input.onCancel.Unstated? {
      assert kids.stages == [];
    } else {
      assert Cleanup(stage) == kids.stages;
    }
  }

  // ---------- Exactly which requests are accepted ----------

  // The ids a request names, in the order they are claimed; a stage carried whole names everything
  // under it.
  function Claims(r: Request, inputs: seq<StageInput>, path: Path, index: nat): seq<Uuid>
    decreases InputSize(inputs), 1
  {
    if inputs == [] then []
    else ClaimsOne(r, inputs[0], path + [index]) + Claims(r, inputs[1..], path, index + 1)
  }

  function ClaimsOne(r: Request, input: StageInput, here: Path): seq<Uuid>
    decreases OneInputSize(input), 0
  {
    OwnClaim(input) + (Claims(r, InputCleanups(input), here, 0) + CarriedClaims(r, input, here))
  }

  function OwnClaim(input: StageInput): seq<Uuid> {
    if input.stageId.Some? then [input.stageId.value] else []
  }

  function CarriedClaims(r: Request, input: StageInput, here: Path): seq<Uuid> {
    if input.CoverageInput? && input.carries && input.onCancel.Unstated? && Resolved(r, input, here).Some?
    then IdList(Cleanup(Resolved(r, input, here).value)) else []
  }

  // Every coverage input has a plan of this request or a stored coverage stage to come from.
  predicate Resolvable(r: Request, inputs: seq<StageInput>, path: Path, index: nat)
    decreases InputSize(inputs), 1
  {
    inputs == [] ||
    (ResolvableOne(r, inputs[0], path + [index]) && Resolvable(r, inputs[1..], path, index + 1))
  }

  predicate ResolvableOne(r: Request, input: StageInput, here: Path)
    decreases OneInputSize(input), 0
  {
    && Resolvable(r, InputCleanups(input), here, 0)
    && (input.CoverageInput? ==> Resolved(r, input, here).Some?)
  }

  // Named ids are the mission's own, not yet seen, and named once.
  ghost predicate Admissible(r: Request, claims: seq<Uuid>, seen: set<Uuid>) {
    NoDuplicates(claims) && forall id :: id in claims ==> id in r.stored && id !in seen
  }

  function AsIds(claims: seq<Uuid>): set<Uuid> {
    set id | id in claims
  }

  lemma {:induction false} AdmissibleConcat(r: Request, a: seq<Uuid>, b: seq<Uuid>, seen: set<Uuid>)
    ensures Admissible(r, a + b, seen) <==> Admissible(r, a, seen) && Admissible(r, b, seen + AsIds(a))
    ensures AsIds(a + b) == AsIds(a) + AsIds(b)
  {
    ConcatNoDuplicates(a, b);
    assert forall id :: id in a + b <==> id in a || id in b;
  }

  lemma {:induction false} PlacedIffAdmissible(r: Request, inputs: seq<StageInput>, path: Path, index: nat,
                                               seen: set<Uuid>)
    requires GoodRequest(r)
    ensures var placed, claims := Place(r, inputs, path, index, seen), Claims(r, inputs, path, index);
            && (placed.Success? <==> Admissible(r, claims, seen) && Resolvable(r, inputs, path, index))
            && (placed.Success? ==> placed.value.seen == seen + AsIds(claims))
    decreases InputSize(inputs), 1
  {
    if inputs != [] {
      var own, rest := ClaimsOne(r, inputs[0], path + [index]), Claims(r, inputs[1..], path, index + 1);
      PlacedOneIffAdmissible(r, inputs[0], path + [index], seen);
      PlacedIffAdmissible(r, inputs[1..], path, index + 1, seen + AsIds(own));
      AdmissibleConcat(r, own, rest, seen);
      assert seen + AsIds(own + rest) == seen + AsIds(own) + AsIds(rest);
    }
  }

  lemma {:induction false} CarriedIffApart(r: Request, input: StageInput, here: Path, seen: set<Uuid>)
    requires GoodRequest(r) && input.CoverageInput? && Resolved(r, input, here).Some?
    ensures var ids := IdList(Cleanup(Resolved(r, input, here).value));
            && (Admissible(r, ids, seen) <==> StageIds(Cleanup(Resolved(r, input, here).value)) !! seen)
            && AsIds(ids) == StageIds(Cleanup(Resolved(r, input, here).value))
  {
    var stage := Resolved(r, input, here).value;
    if here !in r.planned {
      assert GoodStage(r.stored.Keys, input.stageId.value, stage);
    }
    DistinctIdsIffListed(Cleanup(stage));
    IdListCoversStageIds(Cleanup(stage));
  }

  // Placing one input succeeds when its claim, its cleanup and its coverage source all do.
  lemma {:induction false} PlaceOneSucceeds(r: Request, input: StageInput, here: Path, seen: set<Uuid>)
    requires GoodRequest(r)
    requires ClaimId(r, input.stageId, seen).Success?
    ensures var kids := Place(r, InputCleanups(input), here, 0, ClaimId(r, input.stageId, seen).value);
            var placed, carried := PlaceOne(r, input, here, seen), CarriedClaims(r, input, here);
            if kids.Failure? then placed.Failure?
            else
              && (placed.Success? <==>
                  && (input.CoverageInput? ==> Resolved(r, input, here).Some?)
                  && Admissible(r, carried, kids.value.seen))
              && (placed.Success? ==> placed.value.seen == kids.value.seen + AsIds(carried))
  {
    var kids := Place(r, InputCleanups(input), here, 0, ClaimId(r, input.stageId, seen).value);
    if kids.Success? && input.CoverageInput? && Resolved(r, input, here).Some? {
      CarriedIffApart(r, input, here, kids.value.seen);
    }
  }

  lemma {:induction false} PlacedOneIffAdmissible(r: Request, input: StageInput, here: Path, seen: set<Uuid>)
    requires GoodRequest(r)
    ensures var placed, claims := PlaceOne(r, input, here, seen), ClaimsOne(r, input, here);
            && (placed.Success? <==> Admissible(r, claims, seen) && ResolvableOne(r, input, here))
            && (placed.Success? ==> placed.value.seen == seen + AsIds(claims))
    decreases OneInputSize(input), 0
  {
    var own, below, carried := OwnClaim(input), Claims(r, InputCleanups(input), here, 0), CarriedClaims(r, input, here);
    assert ClaimsOne(r, input, here) == own + (below + carried);
    AdmissibleConcat(r, own, below + carried, seen);
    AdmissibleConcat(r, below, carried, seen + AsIds(own));
    OwnClaimIff(r, input.stageId, own, seen);
    if ClaimId(r, input.stageId, seen).Success? {
      PlaceOneSucceeds(r, input, here, seen);
      PlacedIffAdmissible(r, InputCleanups(input), here, 0, seen + AsIds(own));
    }
  }

  lemma {:induction false} OwnClaimIff(r: Request, id: Option<Uuid>, own: seq<Uuid>, seen: set<Uuid>)
    requires own == if id.Some? then [id.value] else []
    ensures ClaimId(r, id, seen).Success? <==> Admissible(r, own, seen)
    ensures ClaimId(r, id, seen).Success? ==> ClaimId(r, id, seen).value == seen + AsIds(own)
  {}

  // The reason a refusal gives holds: an id named twice, counting those seen before, or one that is not the
  // mission's or a coverage input with nothing to come from.
  ghost predicate ReasonHolds(r: Request, claims: seq<Uuid>, seen: set<Uuid>, resolvable: bool, error: AuthoringError) {
    match error
    case DuplicateStageId => !NoDuplicates(claims) || exists id :: id in claims && id in seen
    case StageNotInMission => !resolvable || exists id :: id in claims && id !in r.stored
  }

  lemma {:induction false} ReasonOfFirst(r: Request, a: seq<Uuid>, b: seq<Uuid>, seen: set<Uuid>, resolvable: bool,
                                         error: AuthoringError)
    requires ReasonHolds(r, a, seen, resolvable, error)
    ensures ReasonHolds(r, a + b, seen, resolvable, error)
    ensures ReasonHolds(r, b + a, seen, resolvable, error)
  {
    ConcatNoDuplicates(a, b);
    ConcatNoDuplicates(b, a);
    assert forall id :: id in a ==> id in a + b && id in b + a;
  }

  lemma {:induction false} ReasonOfRest(r: Request, a: seq<Uuid>, b: seq<Uuid>, seen: set<Uuid>, resolvable: bool,
                                        error: AuthoringError)
    requires ReasonHolds(r, b, seen + AsIds(a), resolvable, error)
    ensures ReasonHolds(r, a + b, seen, resolvable, error)
  {
    ConcatNoDuplicates(a, b);
    assert forall id :: id in b ==> id in a + b;
    assert forall id :: id in a ==> id in a + b;
  }

  lemma {:induction false} RefusedForReason(r: Request, inputs: seq<StageInput>, path: Path, index: nat, seen: set<Uuid>)
    requires GoodRequest(r) && Place(r, inputs, path, index, seen).Failure?
    ensures ReasonHolds(r, Claims(r, inputs, path, index), seen, Resolvable(r, inputs, path, index),
                        Place(r, inputs, path, index, seen).error)
    decreases InputSize(inputs), 1
  {
    var own, rest := ClaimsOne(r, inputs[0], path + [index]), Claims(r, inputs[1..], path, index + 1);
    var first, error := PlaceOne(r, inputs[0], path + [index], seen), Place(r, inputs, path, index, seen).error;
    var all := Resolvable(r, inputs, path, index);
    if first.Failure? {
      OneRefusedForReason(r, inputs[0], path + [index], seen);
      ReasonOfFirst(r, own, rest, seen, all, error);
    } else {
      PlacedOneIffAdmissible(r, inputs[0], path + [index], seen);
      RefusedForReason(r, inputs[1..], path, index + 1, first.value.seen);
      ReasonOfRest(r, own, rest, seen, all, error);
    }
  }

  lemma {:induction false} OneRefusedForReason(r: Request, input: StageInput, here: Path, seen: set<Uuid>)
    requires GoodRequest(r) && PlaceOne(r, input, here, seen).Failure?
    ensures ReasonHolds(r, ClaimsOne(r, input, here), seen, ResolvableOne(r, input, here),
                        PlaceOne(r, input, here, seen).error)
    decreases OneInputSize(input), 0
  {
    var own, below, carried := OwnClaim(input), Claims(r, InputCleanups(input), here, 0), CarriedClaims(r, input, here);
    var claimed, error, all := ClaimId(r, input.stageId, seen), PlaceOne(r, input, here, seen).error,
                               ResolvableOne(r, input, here);
    OwnClaimIff(r, input.stageId, own, seen);
    if claimed.Failure? {
      ReasonOfFirst(r, own, below + carried, seen, all, error);
    } else {
      var kids := Place(r, InputCleanups(input), here, 0, claimed.value);
      PlacedIffAdmissible(r, InputCleanups(input), here, 0, claimed.value);
      if kids.Failure? {
        RefusedForReason(r, InputCleanups(input), here, 0, claimed.value);
        ReasonOfFirst(r, below, carried, seen + AsIds(own), all, error);
      } else {
        CarriedRefused(r, input, here, seen, kids.value);
        ReasonOfRest(r, below, carried, seen + AsIds(own), all, error);
      }
      ReasonOfRest(r, own, below + carried, seen, all, error);
    }
  }

  // With its cleanup placed, an input fails for want of a source, or for what it carries.
  lemma {:induction false} CarriedRefused(r: Request, input: StageInput, here: Path, seen: set<Uuid>, kids: Placed)
    requires GoodRequest(r) && PlaceOne(r, input, here, seen).Failure? && ClaimId(r, input.stageId, seen).Success?
    requires Place(r, InputCleanups(input), here, 0, ClaimId(r, input.stageId, seen).value) == Success(kids)
    ensures ReasonHolds(r, CarriedClaims(r, input, here), kids.seen, ResolvableOne(r, input, here),
                        PlaceOne(r, input, here, seen).error)
  {
    if input.CoverageInput? && Resolved(r, input, here).Some? {
      var ids := IdList(Cleanup(Resolved(r, input, here).value));
      CarriedIffApart(r, input, here, kids.seen);
      assert AsIds(ids) * kids.seen != {} ==> exists id :: id in ids && id in kids.seen;
    }
  }

  // A request is refused exactly when it names an id twice, names one that is not the mission's, or
  // has a coverage input with nothing to come from; an accepted one comes back in its own shape.
  lemma {:induction false} WithIdsAccepts(r: Request, inputs: seq<StageInput>)
    requires GoodRequest(r)
    ensures WithIds(r, inputs).Success? <==>
            && NoDuplicates(Claims(r, inputs, [], 0))
            && (forall id :: id in Claims(r, inputs, [], 0) ==> id in r.stored)
            && Resolvable(r, inputs, [], 0)
    ensures WithIds(r, inputs).Success? ==> AnswersAll(r, inputs, [], 0, WithIds(r, inputs).value)
    ensures WithIds(r, inputs) == Failure(DuplicateStageId) ==> !NoDuplicates(Claims(r, inputs, [], 0))
    ensures WithIds(r, inputs) == Failure(StageNotInMission) ==>
              !Resolvable(r, inputs, [], 0) || exists id :: id in Claims(r, inputs, [], 0) && id !in r.stored
  {
    PlacedIffAdmissible(r, inputs, [], 0, {});
    if WithIds(r, inputs).Success? {
      PlacedAnswers(r, inputs, [], 0, {});
    } else {
      RefusedForReason(r, inputs, [], 0, {});
    }
  }
}
