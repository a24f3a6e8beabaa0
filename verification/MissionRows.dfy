/**
 Stage trees as database rows: flattening a tree, rebuilding it from parent references, and replacing
 a mission's rows in a table whose foreign key cascades.
 */
module MissionRows {
  import opened Wrappers
  import opened Mission

  // What a row keeps besides identity and position; the kind is the constructor.
  datatype StageSpec =
    | NavigationSpec(waypoints: seq<Waypoint>)
    | CoverageSpec(segments: seq<Segment>, provenance: CoverageProvenance)

  datatype StageRow = StageRow(stageId: Uuid, missionId: Uuid, sequence: nat, siteId: Option<Uuid>,
                               parent: Option<Uuid>, spec: StageSpec)

  function SpecOf(stage: Stage): StageSpec {
    match stage
    case NavigationStage(_, waypoints, _) => NavigationSpec(waypoints)
    case CoverageStage(_, segments, provenance, _) => CoverageSpec(segments, provenance)
  }

  function WaypointsOf(stage: Stage): seq<Waypoint> {
    match stage
    case NavigationStage(_, waypoints, _) => waypoints
    case CoverageStage(_, segments, _, _) => SegmentWaypoints(segments)
  }

  function SegmentWaypoints(segments: seq<Segment>): seq<Waypoint> {
    if segments == [] then [] else segments[0].waypoints + SegmentWaypoints(segments[1..])
  }

  // The site of the first site-local waypoint.
  function SiteOf(waypoints: seq<Waypoint>): Option<Uuid> {
    if waypoints == [] then None
    else if waypoints[0].SiteLocal? then Some(waypoints[0].siteId)
    else SiteOf(waypoints[1..])
  }

  lemma {:induction false} SiteIsFirstLocal(waypoints: seq<Waypoint>, site: Uuid)
    ensures SiteOf(waypoints) == Some(site) <==>
            exists k :: 0 <= k < |waypoints| && waypoints[k].SiteLocal? && waypoints[k].siteId == site
                        && forall j :: 0 <= j < k ==> !waypoints[j].SiteLocal?
    ensures SiteOf(waypoints).None? <==> forall k :: 0 <= k < |waypoints| ==> !waypoints[k].SiteLocal?
  {
    if waypoints != [] && !waypoints[0].SiteLocal? {
      var rest := waypoints[1..];
      SiteIsFirstLocal(rest, site);
      assert forall k :: 0 < k < |waypoints| ==> waypoints[k] == rest[k - 1];
      assert forall k :: 0 <= k < |rest| ==> rest[k] == waypoints[k + 1];
    }
  }

  function RowOf(missionId: Uuid, stage: Stage, sequence: nat, parent: Option<Uuid>): StageRow {
    StageRow(stage.stageId, missionId, sequence, SiteOf(WaypointsOf(stage)), parent, SpecOf(stage))
  }

  // ---------- Flattening ----------

  // The rows of a stage list whose first stage has the given position.
  function FlattenFrom(missionId: Uuid, stages: seq<Stage>, parent: Option<Uuid>, position: nat): seq<StageRow>
    decreases Size(stages)
  {
    if stages == [] then []
    else
      [RowOf(missionId, stages[0], position, parent)]
      + FlattenFrom(missionId, Cleanup(stages[0]), Some(stages[0].stageId), 0)
      + FlattenFrom(missionId, stages[1..], parent, position + 1)
  }

  method Flatten(missionId: Uuid, stages: seq<Stage>, parent: Option<Uuid>) returns (rows: seq<StageRow>)
    ensures rows == FlattenFrom(missionId, stages, parent, 0)
    decreases Size(stages)
  {
    rows := [];
    ghost var whole := FlattenFrom(missionId, stages, parent, 0);
    assert stages[0..] == stages && rows + whole == whole;
    for sequence := 0 to |stages|
      invariant rows + FlattenFrom(missionId, stages[sequence..], parent, sequence) == whole
    {
      var stage := stages[sequence];
      SizeOfMember(stages, sequence);
      assert stages[sequence..][0] == stage && stages[sequence..][1..] == stages[sequence + 1..];
      ghost var before := rows;
      rows := rows + [RowOf(missionId, stage, sequence, parent)];
      if stage.onCancel.Listed? && stage.onCancel.stages != [] {
        var nested := Flatten(missionId, stage.onCancel.stages, Some(stage.stageId));
        rows := rows + nested;
      } else {
        assert FlattenFrom(missionId, Cleanup(stage), Some(stage.stageId), 0) == [];
      }
      FlattenStep(before, RowOf(missionId, stage, sequence, parent),
                  FlattenFrom(missionId, Cleanup(stage), Some(stage.stageId), 0),
                  FlattenFrom(missionId, stages[sequence + 1..], parent, sequence + 1));
    }
    assert stages[|stages|..] == [] && rows + [] == rows;
  }

  lemma {:induction false} FlattenStep(before: seq<StageRow>, row: StageRow, nested: seq<StageRow>,
                                       later: seq<StageRow>)
    ensures before + ([row] + nested + later) == before + [row] + nested + later
    ensures nested == [] ==> before + [row] + nested == before + [row]
  {}

  // ---------- Rebuilding ----------

  ghost predicate PrimaryKey(rows: seq<StageRow>) {
    forall i, j :: 0 <= i < j < |rows| ==> rows[i].stageId != rows[j].stageId
  }

  function ChildrenOf(rows: seq<StageRow>, parent: Option<Uuid>): seq<StageRow> {
    if rows == [] then []
    else
      var earlier, row := ChildrenOf(rows[..|rows| - 1], parent), Last(rows);
      if row.parent == parent then earlier + [row] else earlier
  }

  // The rows grouped by parent, each group in the order the rows came.
  function Grouped(rows: seq<StageRow>): map<Option<Uuid>, seq<StageRow>> {
    map parent | parent in (set row | row in rows :: row.parent) :: ChildrenOf(rows, parent)
  }

  function Group(children: map<Option<Uuid>, seq<StageRow>>, parent: Option<Uuid>): seq<StageRow> {
    if parent in children then children[parent] else []
  }

  // A stable insertion sort by position among siblings.
  function SortedBySequence(rows: seq<StageRow>): (r: seq<StageRow>)
    ensures forall row :: row in r <==> row in rows
    ensures forall i, j :: 0 <= i < j < |r| ==> r[i].sequence <= r[j].sequence
  {
    if rows == [] then [] else InsertBySequence(rows[0], SortedBySequence(rows[1..]))
  }

  function InsertBySequence(row: StageRow, sorted: seq<StageRow>): (r: seq<StageRow>)
    requires forall i, j :: 0 <= i < j < |sorted| ==> sorted[i].sequence <= sorted[j].sequence
    ensures forall x :: x in r <==> x == row || x in sorted
    ensures forall i, j :: 0 <= i < j < |r| ==> r[i].sequence <= r[j].sequence
  {
    if sorted == [] || row.sequence <= sorted[0].sequence then [row] + sorted
    else
      var rest := InsertBySequence(row, sorted[1..]);
      assert forall x :: x in rest ==> sorted[0].sequence <= x.sequence;
      [sorted[0]] + rest
  }

  lemma {:induction false} ChildrenOfMembers(rows: seq<StageRow>, parent: Option<Uuid>)
    ensures forall row :: row in ChildrenOf(rows, parent) <==> row in rows && row.parent == parent
  {
    if rows != [] {
      ChildrenOfMembers(rows[..|rows| - 1], parent);
      assert rows == rows[..|rows| - 1] + [Last(rows)];
    }
  }

  ghost predicate Linked(rows: seq<StageRow>, id: Uuid, parent: Option<Uuid>) {
    exists row :: row in rows && row.stageId == id && row.parent == parent
  }

  function Above(path: seq<Uuid>, i: nat): Option<Uuid>
    requires i <= |path|
  {
    if i == 0 then None else Some(path[i - 1])
  }

  // The chain of ids from a top-level row down to the parent whose children are being built.
  ghost predicate AncestorPath(rows: seq<StageRow>, parent: Option<Uuid>, path: seq<Uuid>) {
    && parent == Above(path, |path|)
    && (forall i :: 0 <= i < |path| ==> Linked(rows, path[i], Above(path, i)))
    && NoDuplicates(path)
  }

  lemma {:induction false} PathExtends(rows: seq<StageRow>, parent: Option<Uuid>, path: seq<Uuid>, child: Uuid)
    requires PrimaryKey(rows) && AncestorPath(rows, parent, path)
    requires Linked(rows, child, parent)
    ensures AncestorPath(rows, Some(child), path + [child])
  {
    forall i | 0 <= i < |path| + 1 ensures Linked(rows, (path + [child])[i], Above(path + [child], i)) {
      LinkExtends(rows, parent, path, child, i);
    }
  }

  lemma {:induction false} LinkExtends(rows: seq<StageRow>, parent: Option<Uuid>, path: seq<Uuid>, child: Uuid, i: nat)
    requires AncestorPath(rows, parent, path) && Linked(rows, child, parent) && i <= |path|
    ensures Linked(rows, (path + [child])[i], Above(path + [child], i))
  {
    assert i < |path| ==> Linked(rows, path[i], Above(path, i));
    assert i > 0 ==> (path + [child])[i - 1] == path[i - 1];
  }

  lemma {:induction false} SubsetIsNoLonger<T>(a: seq<T>, b: seq<T>)
    requires NoDuplicates(a) && forall x :: x in a ==> x in b
    ensures |a| <= |b|
  {
    if a != [] {
      var last, shorter := Last(a), a[..|a| - 1];
      assert last in a && last in b;
      var at :| 0 <= at < |b| && b[at] == last;
      var others := b[..at] + b[at + 1..];
      forall x | x in shorter ensures x in others {
        assert x in a && x in b && x != last;
        var k :| 0 <= k < |b| && b[k] == x;
        if k < at {
          assert others[k] == x;
        } else {
          assert others[k - 1] == x;
        }
      }
      SubsetIsNoLonger(shorter, others);
    }
  }

  lemma {:induction false} PathFits(rows: seq<StageRow>, parent: Option<Uuid>, path: seq<Uuid>)
    requires AncestorPath(rows, parent, path)
    ensures |path| <= |rows|
  {
    var ids := seq(|rows|, i requires 0 <= i < |rows| => rows[i].stageId);
    forall x | x in path ensures x in ids {
      var i :| 0 <= i < |path| && path[i] == x;
      assert Linked(rows, x, Above(path, i));
      var row :| row in rows && row.stageId == x;
      var k :| 0 <= k < |rows| && rows[k] == row;
      assert ids[k] == x;
    }
    SubsetIsNoLonger(path, ids);
  }

  function Rebuilt(row: StageRow, kids: seq<Stage>): Stage {
    match row.spec
    case NavigationSpec(waypoints) => NavigationStage(row.stageId, waypoints, ListedUnlessEmpty(kids))
    case CoverageSpec(segments, provenance) =>
      CoverageStage(row.stageId, segments, provenance, ListedUnlessEmpty(kids))
  }

  // The recursion over parent references. That it ends needs only the primary key: a cycle of parents
  // is never entered, because its rows have no other parent to be entered from.
  function Build(children: map<Option<Uuid>, seq<StageRow>>, parent: Option<Uuid>,
                 ghost rows: seq<StageRow>, ghost path: seq<Uuid>): seq<Stage>
    requires children == Grouped(rows)
    requires PrimaryKey(rows) && AncestorPath(rows, parent, path)
    decreases |rows| - |path|, 1, 0
  {
    GroupMembers(rows, parent);
    BuildEach(children, SortedBySequence(Group(children, parent)), parent, rows, path)
  }

  function BuildEach(children: map<Option<Uuid>, seq<StageRow>>, siblings: seq<StageRow>,
                     parent: Option<Uuid>, ghost rows: seq<StageRow>, ghost path: seq<Uuid>): seq<Stage>
    requires children == Grouped(rows)
    requires PrimaryKey(rows) && AncestorPath(rows, parent, path)
    requires forall row :: row in siblings ==> row in rows && row.parent == parent
    decreases |rows| - |path|, 0, |siblings|
  {
    if siblings == [] then []
    else
      var row := siblings[0];
      assert Linked(rows, row.stageId, parent);
      PathExtends(rows, parent, path, row.stageId);
      PathFits(rows, Some(row.stageId), path + [row.stageId]);
      var kids := Build(children, Some(row.stageId), rows, path + [row.stageId]);
      [Rebuilt(row, kids)] + BuildEach(children, siblings[1..], parent, rows, path)
  }

  lemma {:induction false} GroupMembers(rows: seq<StageRow>, parent: Option<Uuid>)
    ensures forall row :: row in Group(Grouped(rows), parent) <==> row in rows && row.parent == parent
    ensures Group(Grouped(rows), parent) == ChildrenOf(rows, parent)
  {
    ChildrenOfMembers(rows, parent);
    if ChildrenOf(rows, parent) != [] {
      var row := ChildrenOf(rows, parent)[0];
      assert row in ChildrenOf(rows, parent);
      assert row.parent in (set r | r in rows :: r.parent);
    }
  }

  // The tree a set of rows describes; it exists for every set of rows with distinct ids, whatever
  // their parent references say.
  function Nested(rows: seq<StageRow>): seq<Stage>
    requires PrimaryKey(rows)
  {
    Build(Grouped(rows), None, rows, [])
  }

  method Nest(rows: seq<StageRow>) returns (stages: seq<Stage>)
    requires PrimaryKey(rows)
    ensures stages == Nested(rows)
  {
    var children: map<Option<Uuid>, seq<StageRow>> := map[];
    for i := 0 to |rows|
      invariant children == Grouped(rows[..i])
    {
      GroupedStep(rows, i);
      children := children[rows[i].parent := Group(children, rows[i].parent) + [rows[i]]];
    }
    assert rows[..|rows|] == rows;
    stages := Build(children, None, rows, []);
  }

  lemma {:induction false} GroupedStep(rows: seq<StageRow>, i: nat)
    requires i < |rows|
    ensures var before, row := Grouped(rows[..i]), rows[i];
            Grouped(rows[..i + 1]) == before[row.parent := Group(before, row.parent) + [row]]
  {
    var before, after, row := Grouped(rows[..i]), Grouped(rows[..i + 1]), rows[i];
    assert rows[..i + 1][..i] == rows[..i] && rows[..i + 1] == rows[..i] + [row];
    assert after.Keys == before.Keys + {row.parent};
    GroupMembers(rows[..i], row.parent);
  }

  // ---------- The round trip ----------

  function HeadRows(missionId: Uuid, stages: seq<Stage>, parent: Option<Uuid>, position: nat): seq<StageRow> {
    seq(|stages|, i requires 0 <= i < |stages| => RowOf(missionId, stages[i], position + i, parent))
  }

  // Every flattened row hangs under the list's parent or under a stage of the list.
  lemma {:induction false} FlattenedParents(m: Uuid, stages: seq<Stage>, parent: Option<Uuid>, position: nat,
                                            row: StageRow)
    requires row in FlattenFrom(m, stages, parent, position)
    ensures row.parent == parent || (row.parent.Some? && row.parent.value in StageIds(stages))
    ensures row.missionId == m
    ensures row.stageId in StageIds(stages)
    decreases Size(stages)
  {
    var head, rest := stages[0], stages[1..];
    if row in FlattenFrom(m, Cleanup(head), Some(head.stageId), 0) {
      FlattenedParents(m, Cleanup(head), Some(head.stageId), 0, row);
    } else if row in FlattenFrom(m, rest, parent, position + 1) {
      FlattenedParents(m, rest, parent, position + 1, row);
    }
  }

  // The rows under the list's own parent are the top-level ones, in order.
  lemma {:induction false} FlattenedHeads(m: Uuid, stages: seq<Stage>, parent: Option<Uuid>, position: nat,
                                          row: StageRow)
    requires DistinctIds(stages)
    requires parent.Some? ==> parent.value !in StageIds(stages)
    ensures row in HeadRows(m, stages, parent, position) <==>
            row in FlattenFrom(m, stages, parent, position) && row.parent == parent
    decreases Size(stages)
  {
    if stages != [] {
      var head, rest := stages[0], stages[1..];
      FlattenedHeads(m, rest, parent, position + 1, row);
      assert HeadRows(m, stages, parent, position) ==
             [RowOf(m, head, position, parent)] + HeadRows(m, rest, parent, position + 1);
      if row in FlattenFrom(m, Cleanup(head), Some(head.stageId), 0) {
        FlattenedParents(m, Cleanup(head), Some(head.stageId), 0, row);
      }
    }
  }

  // The rows hanging under one top-level stage, at any depth, are the flattened rows of its cleanup.
  lemma {:induction false} FlattenedUnder(m: Uuid, stages: seq<Stage>, parent: Option<Uuid>, position: nat,
                                          i: nat, row: StageRow)
    requires DistinctIds(stages) && i < |stages|
    requires parent.Some? ==> parent.value !in StageIds(stages)
    requires row.parent.Some?
    requires row.parent.value in {stages[i].stageId} + StageIds(Cleanup(stages[i]))
    ensures row in FlattenFrom(m, stages, parent, position) <==>
            row in FlattenFrom(m, Cleanup(stages[i]), Some(stages[i].stageId), 0)
    decreases Size(stages)
  {
    var head, rest := stages[0], stages[1..];
    IdsOfMember(stages, i);
    if i > 0 {
      SubtreesApart(stages, 0, i);
      SubtreesApart(stages, i, 0);
      FlattenedUnder(m, rest, parent, position + 1, i - 1, row);
      if row in FlattenFrom(m, Cleanup(head), Some(head.stageId), 0) {
        FlattenedParents(m, Cleanup(head), Some(head.stageId), 0, row);
      }
    } else if row in FlattenFrom(m, rest, parent, position + 1) {
      FlattenedParents(m, rest, parent, position + 1, row);
    }
  }

  lemma {:induction false} InsertKeepsKey(row: StageRow, sorted: seq<StageRow>)
    requires forall i, j :: 0 <= i < j < |sorted| ==> sorted[i].sequence <= sorted[j].sequence
    requires PrimaryKey(sorted) && forall x :: x in sorted ==> x.stageId != row.stageId
    ensures PrimaryKey(InsertBySequence(row, sorted))
  {
    if sorted != [] && row.sequence > sorted[0].sequence {
      InsertKeepsKey(row, sorted[1..]);
      var rest := InsertBySequence(row, sorted[1..]);
      assert forall x :: x in rest ==> x.stageId != sorted[0].stageId;
    }
  }

  lemma {:induction false} SortKeepsKey(rows: seq<StageRow>)
    requires PrimaryKey(rows)
    ensures PrimaryKey(SortedBySequence(rows))
  {
    if rows != [] {
      SortKeepsKey(rows[1..]);
      InsertKeepsKey(rows[0], SortedBySequence(rows[1..]));
    }
  }

  lemma {:induction false} ChildrenKeepKey(rows: seq<StageRow>, parent: Option<Uuid>)
    requires PrimaryKey(rows)
    ensures PrimaryKey(ChildrenOf(rows, parent))
  {
    if rows != [] {
      var shorter := rows[..|rows| - 1];
      ChildrenKeepKey(shorter, parent);
      ChildrenOfMembers(shorter, parent);
    }
  }

  ghost predicate StrictlySequenced(rows: seq<StageRow>) {
    forall i, j :: 0 <= i < j < |rows| ==> rows[i].sequence < rows[j].sequence
  }

  lemma {:induction false} OneStrictOrder(a: seq<StageRow>, b: seq<StageRow>)
    requires StrictlySequenced(a) && StrictlySequenced(b)
    requires forall row :: row in a <==> row in b
    ensures a == b
  {
    assert a != [] ==> a[0] in b;
    assert b != [] ==> b[0] in b;
    if a != [] {
      assert a[0] in a && b[0] in a;
      assert a[0] == b[0];
      forall row | row in a[1..] ensures row in b[1..] {
        assert row in a && row != a[0];
      }
      forall row | row in b[1..] ensures row in a[1..] {
        assert row in b && row != b[0];
      }
      OneStrictOrder(a[1..], b[1..]);
    }
  }

  // The rows that hang under a list's parent, at any depth, are exactly the list's flattened rows.
  ghost predicate Describes(rows: seq<StageRow>, m: Uuid, stages: seq<Stage>, parent: Option<Uuid>) {
    && DistinctIds(stages)
    && (parent.Some? ==> parent.value !in StageIds(stages))
    && (forall row :: row in FlattenFrom(m, stages, parent, 0) ==> row in rows)
    && (forall row :: && row in rows
                      && (row.parent == parent || (row.parent.Some? && row.parent.value in StageIds(stages)))
                      ==> row in FlattenFrom(m, stages, parent, 0))
  }

  lemma {:induction false} DescribesCleanup(rows: seq<StageRow>, m: Uuid, stages: seq<Stage>, parent: Option<Uuid>,
                                            i: nat)
    requires Describes(rows, m, stages, parent) && i < |stages|
    ensures Describes(rows, m, Cleanup(stages[i]), Some(stages[i].stageId))
  {
    var stage := stages[i];
    IdsOfMember(stages, i);
    forall row | row in FlattenFrom(m, Cleanup(stage), Some(stage.stageId), 0) ensures row in rows {
      FlattenedParents(m, Cleanup(stage), Some(stage.stageId), 0, row);
      FlattenedUnder(m, stages, parent, 0, i, row);
    }
    forall row | && row in rows && row.parent.Some?
                 && row.parent.value in {stage.stageId} + StageIds(Cleanup(stage))
      ensures row in FlattenFrom(m, Cleanup(stage), Some(stage.stageId), 0)
    {
      FlattenedUnder(m, stages, parent, 0, i, row);
    }
  }

  lemma {:induction false} SiblingsAreHeads(rows: seq<StageRow>, m: Uuid, stages: seq<Stage>, parent: Option<Uuid>)
    requires PrimaryKey(rows) && Describes(rows, m, stages, parent)
    ensures SortedBySequence(Group(Grouped(rows), parent)) == HeadRows(m, stages, parent, 0)
  {
    var siblings, heads := SortedBySequence(ChildrenOf(rows, parent)), HeadRows(m, stages, parent, 0);
    GroupMembers(rows, parent);
    forall row ensures row in siblings <==> row in heads {
      ChildrenOfMembers(rows, parent);
      FlattenedHeads(m, stages, parent, 0, row);
    }
    SameHeads(rows, parent, heads);
  }

  lemma {:induction false} SameHeads(rows: seq<StageRow>, parent: Option<Uuid>, heads: seq<StageRow>)
    requires PrimaryKey(rows) && StrictlySequenced(heads)
    requires forall row :: row in SortedBySequence(ChildrenOf(rows, parent)) <==> row in heads
    ensures SortedBySequence(ChildrenOf(rows, parent)) == heads
  {
    var siblings := SortedBySequence(ChildrenOf(rows, parent));
    ChildrenKeepKey(rows, parent);
    SortKeepsKey(ChildrenOf(rows, parent));
    forall i, j | 0 <= i < j < |siblings| ensures siblings[i].sequence < siblings[j].sequence {
      assert siblings[i] in heads && siblings[j] in heads;
      assert siblings[i].stageId != siblings[j].stageId;
    }
    OneStrictOrder(siblings, heads);
  }

  lemma {:induction false} BuildRestores(rows: seq<StageRow>, m: Uuid, stages: seq<Stage>,
                                         parent: Option<Uuid>, path: seq<Uuid>)
    requires PrimaryKey(rows) && AncestorPath(rows, parent, path)
    requires Describes(rows, m, stages, parent)
    ensures Build(Grouped(rows), parent, rows, path) == Normalised(stages)
    decreases Size(stages), |stages| + 1
  {
    SiblingsAreHeads(rows, m, stages, parent);
    GroupMembers(rows, parent);
    BuildEachRestores(rows, m, stages, 0, parent, path);
    assert HeadRows(m, stages, parent, 0)[0..] == HeadRows(m, stages, parent, 0) && stages[0..] == stages;
  }

  lemma {:induction false} BuildEachRestores(rows: seq<StageRow>, m: Uuid, stages: seq<Stage>, i: nat,
                                             parent: Option<Uuid>, path: seq<Uuid>)
    requires PrimaryKey(rows) && AncestorPath(rows, parent, path)
    requires Describes(rows, m, stages, parent) && i <= |stages|
    requires forall row :: row in HeadRows(m, stages, parent, 0) ==> row in rows && row.parent == parent
    ensures BuildEach(Grouped(rows), HeadRows(m, stages, parent, 0)[i..], parent, rows, path) ==
            Normalised(stages[i..])
    decreases Size(stages), |stages| - i
  {
    if i < |stages| {
      var heads := HeadRows(m, stages, parent, 0);
      var stage, row := stages[i], heads[i];
      assert heads[i..][0] == row && heads[i..][1..] == heads[i + 1..];
      assert stages[i..][0] == stage && stages[i..][1..] == stages[i + 1..];
      assert row in heads;
      assert Linked(rows, row.stageId, parent);
      PathExtends(rows, parent, path, row.stageId);
      DescribesCleanup(rows, m, stages, parent, i);
      SizeOfMember(stages, i);
      BuildRestores(rows, m, Cleanup(stage), Some(stage.stageId), path + [row.stageId]);
      BuildEachRestores(rows, m, stages, i + 1, parent, path);
    }
  }

  // Rebuilding the flattened rows, in whatever order they are read, gives the tree back.
  lemma {:induction false} NestedOfFlattened(rows: seq<StageRow>, m: Uuid, stages: seq<Stage>)
    requires DistinctIds(stages) && PrimaryKey(rows)
    requires forall row :: row in rows <==> row in FlattenFrom(m, stages, None, 0)
    ensures Nested(rows) == Normalised(stages)
  {
    BuildRestores(rows, m, stages, None, []);
  }
}
