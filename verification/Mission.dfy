/** Mission definitions: the stage tree, its ids at every depth, and replacing one stage in it. */
module Mission {
  import opened Wrappers

  datatype Waypoint =
    | Wgs84(lat: real, lon: real, headingDeg: Option<real>)
    | SiteLocal(siteId: Uuid, x: real, y: real, theta: Option<real>)

  datatype SegmentKind = Swath | Turn

  datatype Segment = Segment(kind: SegmentKind, waypoints: seq<Waypoint>)

  datatype CoverageProvenance = CoverageProvenance(fieldId: Uuid, boundaryDigest: string)

  datatype Stage =
    | NavigationStage(stageId: Uuid, waypoints: seq<Waypoint>, onCancel: OnCancel)
    | CoverageStage(stageId: Uuid, segments: seq<Segment>, provenance: CoverageProvenance,
                    onCancel: OnCancel)

  // The cleanup list as given: absent, or present and possibly empty.
  datatype OnCancel = Absent | Listed(stages: seq<Stage>)

  // A stage's cleanup stages; an absent list and an empty one are both "none".
  function Cleanup(stage: Stage): seq<Stage> {
    if stage.onCancel.Listed? then stage.onCancel.stages else []
  }

  function ListedUnlessEmpty(stages: seq<Stage>): OnCancel {
    if stages == [] then Absent else Listed(stages)
  }

  // How many stages a list holds at every depth; what recursion over the tree decreases.
  function Size(stages: seq<Stage>): nat
    decreases stages, 0
  {
    if stages == [] then 0 else StageSize(stages[0]) + Size(stages[1..])
  }

  function StageSize(stage: Stage): (size: nat)
    ensures size == if stage.onCancel.Listed? then 1 + Size(stage.onCancel.stages) else 1
    decreases stage, 1
  {
    match stage.onCancel
    case Absent => 1
    case Listed(stages) => 1 + Size(stages)
  }

  lemma {:induction false} SizeOfMember(stages: seq<Stage>, i: nat)
    requires i < |stages|
    ensures Size(Cleanup(stages[i])) < Size(stages)
  {
    if i > 0 {
      SizeOfMember(stages[1..], i - 1);
    }
  }

  // ---------- Ids ----------

  // Every stage's id in document order, cleanup stages right after the stage they clean up.
  function IdList(stages: seq<Stage>): seq<Uuid>
    decreases Size(stages)
  {
    if stages == [] then []
    else [stages[0].stageId] + IdList(Cleanup(stages[0])) + IdList(stages[1..])
  }

  // The ids in a list of stages, at all depths.
  function StageIds(stages: seq<Stage>): set<Uuid>
    decreases Size(stages)
  {
    if stages == [] then {}
    else {stages[0].stageId} + StageIds(Cleanup(stages[0])) + StageIds(stages[1..])
  }

  // No id occurs twice, at any depth.
  predicate DistinctIds(stages: seq<Stage>)
    decreases Size(stages)
  {
    stages == [] ||
    (var kids, rest := Cleanup(stages[0]), stages[1..];
     && stages[0].stageId !in StageIds(kids)
     && stages[0].stageId !in StageIds(rest)
     && StageIds(kids) !! StageIds(rest)
     && DistinctIds(kids)
     && DistinctIds(rest))
  }

  lemma {:induction false} DistinctCons(head: Stage, rest: seq<Stage>)
    ensures var kids := Cleanup(head);
            && StageIds([head] + rest) == {head.stageId} + StageIds(kids) + StageIds(rest)
            && (DistinctIds([head] + rest) <==>
                && head.stageId !in StageIds(kids)
                && head.stageId !in StageIds(rest)
                && StageIds(kids) !! StageIds(rest)
                && DistinctIds(kids)
                && DistinctIds(rest))
  {}

  lemma {:induction false} IdListCoversStageIds(stages: seq<Stage>)
    ensures forall id :: id in IdList(stages) <==> id in StageIds(stages)
    decreases Size(stages)
  {
    if stages != [] {
      IdListCoversStageIds(Cleanup(stages[0]));
      IdListCoversStageIds(stages[1..]);
    }
  }

  lemma {:induction false} ConcatNoDuplicates<T>(a: seq<T>, b: seq<T>)
    ensures NoDuplicates(a + b) <==>
            NoDuplicates(a) && NoDuplicates(b) && (forall x :: x in a ==> x !in b)
  {
    forall i, j | 0 <= i < j < |a| && a[i] == a[j] ensures !NoDuplicates(a + b) {
      assert (a + b)[i] == (a + b)[j];
    }
    forall i, j | 0 <= i < j < |b| && b[i] == b[j] ensures !NoDuplicates(a + b) {
      assert (a + b)[|a| + i] == (a + b)[|a| + j];
    }
    forall i, j | 0 <= i < |a| && 0 <= j < |b| && a[i] == b[j] ensures !NoDuplicates(a + b) {
      assert (a + b)[i] == (a + b)[|a| + j];
    }
    if NoDuplicates(a) && NoDuplicates(b) && (forall x :: x in a ==> x !in b) {
      forall i, j | 0 <= i < j < |a + b| ensures (a + b)[i] != (a + b)[j] {
        if i < |a| <= j {
          assert a[i] in a && b[j - |a|] in b;
        }
      }
    }
  }

  // The recursive notion is the plain one: the ids listed in document order never repeat.
  lemma {:induction false} DistinctIdsIffListed(stages: seq<Stage>)
    ensures DistinctIds(stages) <==> NoDuplicates(IdList(stages))
    decreases Size(stages)
  {
    if stages != [] {
      var head, kids, rest := [stages[0].stageId], IdList(Cleanup(stages[0])), IdList(stages[1..]);
      DistinctIdsIffListed(Cleanup(stages[0]));
      DistinctIdsIffListed(stages[1..]);
      IdListCoversStageIds(Cleanup(stages[0]));
      IdListCoversStageIds(stages[1..]);
      ConcatNoDuplicates(head, kids);
      ConcatNoDuplicates(head + kids, rest);
    }
  }

  // A top-level stage and everything under it belong to the list.
  lemma {:induction false} IdsOfMember(stages: seq<Stage>, i: nat)
    requires i < |stages|
    ensures stages[i].stageId in StageIds(stages)
    ensures StageIds(Cleanup(stages[i])) <= StageIds(stages)
    ensures DistinctIds(stages) ==>
              && DistinctIds(Cleanup(stages[i]))
              && stages[i].stageId !in StageIds(Cleanup(stages[i]))
  {
    if i > 0 {
      IdsOfMember(stages[1..], i - 1);
    }
  }

  // Distinct ids keep the subtrees of different top-level stages apart.
  lemma {:induction false} SubtreesApart(stages: seq<Stage>, i: nat, j: nat)
    requires i < |stages| && j < |stages| && i != j
    requires DistinctIds(stages)
    ensures stages[i].stageId != stages[j].stageId
    ensures stages[i].stageId !in StageIds(Cleanup(stages[j]))
    ensures StageIds(Cleanup(stages[i])) !! StageIds(Cleanup(stages[j]))
  {
    if i > 0 && j > 0 {
      SubtreesApart(stages[1..], i - 1, j - 1);
    } else if i == 0 {
      IdsOfMember(stages[1..], j - 1);
    } else {
      IdsOfMember(stages[1..], i - 1);
    }
  }

  lemma {:induction false} ConcatStageIds(a: seq<Stage>, b: seq<Stage>)
    ensures StageIds(a + b) == StageIds(a) + StageIds(b)
    ensures DistinctIds(a + b) <==>
            DistinctIds(a) && DistinctIds(b) && StageIds(a) !! StageIds(b)
  {
    if a == [] {
      assert a + b == b;
    } else {
      assert (a + b)[1..] == a[1..] + b;
      ConcatStageIds(a[1..], b);
    }
  }

  // ---------- The stored form ----------

  // An empty cleanup list reads back as an absent one.
  function Normalised(stages: seq<Stage>): (r: seq<Stage>)
    ensures |r| == |stages|
    decreases Size(stages)
  {
    if stages == [] then []
    else
      var kids := Normalised(Cleanup(stages[0]));
      [stages[0].(onCancel := ListedUnlessEmpty(kids))] + Normalised(stages[1..])
  }

  lemma {:induction false} NormalisedKeepsIds(stages: seq<Stage>)
    ensures IdList(Normalised(stages)) == IdList(stages)
    ensures StageIds(Normalised(stages)) == StageIds(stages)
    ensures DistinctIds(Normalised(stages)) == DistinctIds(stages)
    decreases Size(stages)
  {
    if stages != [] {
      NormalisedKeepsIds(Cleanup(stages[0]));
      NormalisedKeepsIds(stages[1..]);
      assert Normalised(stages)[1..] == Normalised(stages[1..]);
      assert Cleanup(Normalised(stages)[0]) == Normalised(Cleanup(stages[0]));
    }
  }

  lemma {:induction false} NormalisedIsStable(stages: seq<Stage>)
    ensures Normalised(Normalised(stages)) == Normalised(stages)
    decreases Size(stages)
  {
    if stages != [] {
      NormalisedIsStable(Cleanup(stages[0]));
      NormalisedIsStable(stages[1..]);
      assert Normalised(stages)[1..] == Normalised(stages[1..]);
      assert Cleanup(Normalised(stages)[0]) == Normalised(Cleanup(stages[0]));
    }
  }

  // ---------- Replacing one stage ----------

  // The list with the replacement standing wherever its id stood, at any depth, and whether it stood
  // anywhere.
  function Replaced(stages: seq<Stage>, replacement: Stage): (r: (seq<Stage>, bool))
    ensures |r.0| == |stages|
    ensures !r.1 ==> r.0 == stages
    decreases Size(stages), 1
  {
    if stages == [] then ([], false)
    else
      var first, rest := ReplacedIn(stages[0], replacement), Replaced(stages[1..], replacement);
      ([first.0] + rest.0, first.1 || rest.1)
  }

  function ReplacedIn(stage: Stage, replacement: Stage): (r: (Stage, bool))
    ensures !r.1 ==> r.0 == stage
    decreases StageSize(stage), 0
  {
    if stage.stageId == replacement.stageId then (replacement, true)
    else
      var nested := Replaced(Cleanup(stage), replacement);
      if nested.1 then (stage.(onCancel := Listed(nested.0)), true) else (stage, false)
  }

  lemma {:induction false} ReplacedStep(stages: seq<Stage>, i: nat, replacement: Stage, out: seq<Stage>)
    requires i < |stages|
    ensures var one := ReplacedIn(stages[i], replacement);
            var later, rest := Replaced(stages[i..], replacement), Replaced(stages[i + 1..], replacement);
            out + later.0 == out + [one.0] + rest.0 && later.1 == (one.1 || rest.1)
  {}

  method ReplaceStage(stages: seq<Stage>, replacement: Stage) returns (out: seq<Stage>, found: bool)
    ensures (out, found) == Replaced(stages, replacement)
    decreases Size(stages)
  {
    found, out := false, [];
    ghost var whole := Replaced(stages, replacement);
    assert stages[0..] == stages && out + whole.0 == whole.0;
    for i := 0 to |stages|
      invariant out + Replaced(stages[i..], replacement).0 == whole.0
      invariant (found || Replaced(stages[i..], replacement).1) == whole.1
    {
      var stage := stages[i];
      ReplacedStep(stages, i, replacement, out);
      SizeOfMember(stages, i);
      if stage.stageId == replacement.stageId {
        out := out + [replacement];
        found := true;
        continue;
      }
      if stage.onCancel.Listed? && stage.onCancel.stages != [] {
        var nested, nestedFound := ReplaceStage(stage.onCancel.stages, replacement);
        if nestedFound {
          stage := stage.(onCancel := Listed(nested));
          found := true;
        }
      }
      out := out + [stage];
    }
    assert stages[|stages|..] == [] && out + [] == out;
  }

  // The stage is found exactly when its id occurs somewhere in the tree.
  lemma {:induction false} FoundIffPresent(stages: seq<Stage>, replacement: Stage)
    ensures Replaced(stages, replacement).1 <==> replacement.stageId in StageIds(stages)
    decreases Size(stages)
  {
    if stages != [] {
      FoundIffPresent(Cleanup(stages[0]), replacement);
      FoundIffPresent(stages[1..], replacement);
    }
  }

  // What hangs under the stage with this id.
  function IdsUnder(stages: seq<Stage>, id: Uuid): set<Uuid>
    decreases Size(stages)
  {
    if stages == [] then {}
    else (if stages[0].stageId == id then StageIds(Cleanup(stages[0]))
          else IdsUnder(Cleanup(stages[0]), id)) + IdsUnder(stages[1..], id)
  }

  lemma {:induction false} IdsUnderBounded(stages: seq<Stage>, id: Uuid)
    ensures IdsUnder(stages, id) <= StageIds(stages)
    ensures id !in StageIds(stages) ==> IdsUnder(stages, id) == {}
    decreases Size(stages)
  {
    if stages != [] {
      IdsUnderBounded(Cleanup(stages[0]), id);
      IdsUnderBounded(stages[1..], id);
    }
  }

  // Where the replaced stage is: the head itself, under the head, or further along.
  lemma {:induction false} ReplacedCases(stages: seq<Stage>, replacement: Stage)
    requires stages != [] && DistinctIds(stages)
    requires replacement.stageId in StageIds(stages)
    ensures var head, rest, out := stages[0], stages[1..], Replaced(stages, replacement).0;
            var id, kids := replacement.stageId, Cleanup(head);
            if head.stageId == id then
              && out == [replacement] + rest
              && IdsUnder(stages, id) == StageIds(kids)
            else if id in StageIds(kids) then
              && out == [head.(onCancel := Listed(Replaced(kids, replacement).0))] + rest
              && IdsUnder(stages, id) == IdsUnder(kids, id)
            else
              && id in StageIds(rest)
              && out == [head] + Replaced(rest, replacement).0
              && IdsUnder(stages, id) == IdsUnder(rest, id)
  {
    var head, rest, id := stages[0], stages[1..], replacement.stageId;
    FoundIffPresent(rest, replacement);
    FoundIffPresent(Cleanup(head), replacement);
    IdsUnderBounded(rest, id);
    IdsUnderBounded(Cleanup(head), id);
    assert Replaced(stages, replacement).0 == [ReplacedIn(head, replacement).0] + Replaced(rest, replacement).0;
  }

  // Swapping some ids of one part for others swaps them in the whole.
  lemma {:induction false} SwappedUnder(head: Uuid, kids: set<Uuid>, rest: set<Uuid>, gone: set<Uuid>, come: set<Uuid>)
    requires gone <= kids && head !in kids && kids !! rest
    ensures {head} + (kids - gone + come) + rest == {head} + kids + rest - gone + come
  {}

  // Replacing a stage drops the ids under it and brings in the replacement's own, and nothing else
  // about the tree's ids changes.
  lemma {:induction false} ReplacedIds(stages: seq<Stage>, replacement: Stage)
    requires DistinctIds(stages)
    requires replacement.stageId in StageIds(stages)
    ensures StageIds(Replaced(stages, replacement).0) ==
            StageIds(stages) - IdsUnder(stages, replacement.stageId) + StageIds(Cleanup(replacement))
    decreases Size(stages)
  {
    var head, kids, rest, id := stages[0], Cleanup(stages[0]), stages[1..], replacement.stageId;
    var come := StageIds(Cleanup(replacement));
    ReplacedCases(stages, replacement);
    PartsApart(stages, id);
    if head.stageId == id {
      StageIdsCons(replacement, rest);
      SwappedUnder(id, StageIds(kids), StageIds(rest), StageIds(kids), come);
      assert StageIds(kids) - StageIds(kids) + come == come;
    } else if id in StageIds(kids) {
      ReplacedIds(kids, replacement);
      StageIdsCons(head.(onCancel := Listed(Replaced(kids, replacement).0)), rest);
      SwappedUnder(head.stageId, StageIds(kids), StageIds(rest), IdsUnder(kids, id), come);
    } else {
      ReplacedIds(rest, replacement);
      StageIdsCons(head, Replaced(rest, replacement).0);
    }
  }

  lemma {:induction false} StageIdsCons(head: Stage, rest: seq<Stage>)
    ensures StageIds([head] + rest) == {head.stageId} + StageIds(Cleanup(head)) + StageIds(rest)
  {
    assert ([head] + rest)[1..] == rest;
  }

  // The head, what is under it, and the rest share no id.
  lemma {:induction false} PartsApart(stages: seq<Stage>, id: Uuid)
    requires stages != [] && DistinctIds(stages)
    ensures var head, kids, rest := stages[0], Cleanup(stages[0]), stages[1..];
            && DistinctIds(kids) && DistinctIds(rest)
            && StageIds(stages) == {head.stageId} + StageIds(kids) + StageIds(rest)
            && head.stageId !in StageIds(kids) && head.stageId !in StageIds(rest)
            && StageIds(kids) !! StageIds(rest)
            && IdsUnder(kids, id) <= StageIds(kids) && IdsUnder(rest, id) <= StageIds(rest)
  {
    IdsUnderBounded(Cleanup(stages[0]), id);
    IdsUnderBounded(stages[1..], id);
  }

  // Replacement keeps ids distinct exactly when the replacement brings no clash of its own.
  lemma {:induction false} ReplacedDistinct(stages: seq<Stage>, replacement: Stage)
    requires DistinctIds(stages)
    requires replacement.stageId in StageIds(stages)
    ensures DistinctIds(Replaced(stages, replacement).0) <==>
            && replacement.stageId !in StageIds(Cleanup(replacement))
            && DistinctIds(Cleanup(replacement))
            && StageIds(Cleanup(replacement)) !!
               StageIds(stages) - IdsUnder(stages, replacement.stageId)
    decreases Size(stages)
  {
    var head, kids, rest, id := stages[0], Cleanup(stages[0]), stages[1..], replacement.stageId;
    ReplacedCases(stages, replacement);
    IdsUnderBounded(kids, id);
    IdsUnderBounded(rest, id);
    if head.stageId == id {
      DistinctCons(replacement, rest);
    } else if id in StageIds(kids) {
      ReplacedDistinct(kids, replacement);
      ReplacedIds(kids, replacement);
      DistinctCons(head.(onCancel := Listed(Replaced(kids, replacement).0)), rest);
    } else {
      ReplacedDistinct(rest, replacement);
      ReplacedIds(rest, replacement);
      DistinctCons(head, Replaced(rest, replacement).0);
    }
  }
}
