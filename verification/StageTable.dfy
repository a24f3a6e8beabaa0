/** The stage table: one row per stage of every mission, a cascading foreign key, and saving a tree. */
module StageTable {
  import opened Wrappers
  import opened Mission
  import opened MissionRows

  type Table = map<Uuid, StageRow>

  predicate WellKeyed(table: Table) {
    forall id :: id in table ==> table[id].stageId == id
  }

  function RowsOf(table: Table, m: Uuid): set<StageRow> {
    set id | id in table && table[id].missionId == m :: table[id]
  }

  function AsSet(rows: seq<StageRow>): set<StageRow> {
    set row | row in rows
  }

  // ---------- What the database does ----------

  function ChildIds(table: Table, parents: set<Uuid>): set<Uuid> {
    set id | id in table && table[id].parent.Some? && table[id].parent.value in parents
  }

  // Deleting rows takes the rows under them along, level by level.
  function CascadeDelete(table: Table, dead: set<Uuid>): Table
    decreases |table|
  {
    var gone := dead * table.Keys;
    if gone == {} then table
    else
      var left := table - gone;
      CascadeDelete(left, ChildIds(left, gone))
  }

  function Upserted(table: Table, rows: seq<StageRow>): Table
    decreases |rows|
  {
    if rows == [] then table else Upserted(table[rows[0].stageId := rows[0]], rows[1..])
  }

  function Dropped(table: Table, m: Uuid, keep: set<Uuid>): set<Uuid> {
    set id | id in table && table[id].missionId == m && id !in keep
  }

  // The table after saving a mission's stages: stale rows deleted, then every stage upserted.
  function AfterReplace(table: Table, m: Uuid, stages: seq<Stage>): Table {
    Upserted(CascadeDelete(table, Dropped(table, m, StageIds(stages))), FlattenFrom(m, stages, None, 0))
  }

  class StageStore {
    var rows: Table

    constructor ()
      ensures rows == map[]
    {
      rows := map[];
    }

    // The delete statement with the foreign key's ON DELETE CASCADE.
    method Delete(dead: set<Uuid>)
      modifies this
      ensures rows == CascadeDelete(old(rows), dead)
    {
      var frontier := dead * rows.Keys;
      while frontier != {}
        invariant frontier <= rows.Keys
        invariant CascadeDelete(rows, frontier) == CascadeDelete(old(rows), dead)
        decreases |rows|
      {
        assert frontier * rows.Keys == frontier;
        var left := rows - frontier;
        frontier := ChildIds(left, frontier);
        rows := left;
        assert frontier * rows.Keys == frontier;
      }
    }

    method Upsert(values: seq<StageRow>)
      modifies this
      ensures rows == Upserted(old(rows), values)
    {
      assert values[0..] == values;
      for i := 0 to |values|
        invariant Upserted(rows, values[i..]) == Upserted(old(rows), values)
      {
        assert values[i..][0] == values[i] && values[i..][1..] == values[i + 1..];
        rows := rows[values[i].stageId := values[i]];
      }
    }

    // Saves a mission's stages. A tree that repeats an id is refused by the database, which cannot
    // update one row twice in a statement, and nothing is written.
    method ReplaceStages(m: Uuid, stages: seq<Stage>) returns (ok: bool)
      modifies this
      ensures ok <==> DistinctIds(stages)
      ensures rows == if ok then AfterReplace(old(rows), m, stages) else old(rows)
    {
      ok := DistinctIds(stages);
      if !ok {
        return;
      }
      var values := Flatten(m, stages, None);
      Delete(Dropped(rows, m, StageIds(stages)));
      if values == [] {
        return;
      }
      Upsert(values);
    }

    // Reads a mission's stages back. The rows are fetched in no particular order.
    method GetStages(m: Uuid) returns (stages: seq<Stage>)
      requires WellKeyed(rows)
      ensures forall tree :: && DistinctIds(tree)
                             && RowsOf(rows, m) == AsSet(FlattenFrom(m, tree, None, 0))
                             ==> stages == Normalised(tree)
    {
      var listing := ListRows(m);
      stages := Nest(listing);
      forall tree | DistinctIds(tree) && RowsOf(rows, m) == AsSet(FlattenFrom(m, tree, None, 0))
        ensures stages == Normalised(tree)
      {
        forall row ensures row in listing <==> row in FlattenFrom(m, tree, None, 0) {
          assert row in RowsOf(rows, m) <==> row in AsSet(FlattenFrom(m, tree, None, 0));
        }
        NestedOfFlattened(listing, m, tree);
      }
    }

    method ListRows(m: Uuid) returns (listing: seq<StageRow>)
      requires WellKeyed(rows)
      ensures PrimaryKey(listing)
      ensures forall row :: row in listing <==> row in RowsOf(rows, m)
    {
      var left := RowsOf(rows, m);
      listing := [];
      while left != {}
        invariant left <= RowsOf(rows, m)
        invariant forall row :: row in listing <==> row in RowsOf(rows, m) && row !in left
        invariant PrimaryKey(listing)
        decreases left
      {
        var row :| row in left;
        KeyedRows(rows, m, row);
        forall x | x in listing ensures x.stageId != row.stageId {
          KeyedRows(rows, m, x);
        }
        listing := listing + [row];
        left := left - {row};
      }
    }
  }

  lemma {:induction false} KeyedRows(table: Table, m: Uuid, row: StageRow)
    requires WellKeyed(table) && row in RowsOf(table, m)
    ensures row.stageId in table && table[row.stageId] == row && row.missionId == m
  {}

  // ---------- Facts about the statements ----------

  lemma {:induction false} CascadeOnlyDeletes(table: Table, dead: set<Uuid>)
    ensures var left := CascadeDelete(table, dead);
            && (forall id :: id in left ==> id in table && left[id] == table[id])
            && left.Keys !! dead
    decreases |table|
  {
    var gone := dead * table.Keys;
    if gone != {} {
      CascadeOnlyDeletes(table - gone, ChildIds(table - gone, gone));
      assert forall id :: id in CascadeDelete(table, dead) ==> id in table && id !in gone;
    } else {
      assert forall id :: id in table ==> id !in gone;
    }
  }

  lemma {:induction false} UpsertedWrites(table: Table, rows: seq<StageRow>)
    requires PrimaryKey(rows)
    ensures var t := Upserted(table, rows);
            && (forall row :: row in rows ==> row.stageId in t && t[row.stageId] == row)
            && (forall id :: (forall row :: row in rows ==> row.stageId != id) ==>
                  (id in t <==> id in table) && (id in t ==> t[id] == table[id]))
            && (forall id :: id in t ==> id in table || exists row :: row in rows && row.stageId == id)
    decreases |rows|
  {
    if rows != [] {
      var row, rest := rows[0], rows[1..];
      UpsertedWrites(table[row.stageId := row], rest);
      assert forall x :: x in rest ==> x.stageId != row.stageId;
      assert forall x :: x in rows ==> x == row || x in rest;
    }
  }

  lemma {:induction false} FlattenedIds(m: Uuid, stages: seq<Stage>, parent: Option<Uuid>, position: nat)
    ensures var rows := FlattenFrom(m, stages, parent, position);
            |rows| == |IdList(stages)| && forall i :: 0 <= i < |rows| ==> rows[i].stageId == IdList(stages)[i]
    decreases Size(stages)
  {
    if stages != [] {
      FlattenedIds(m, Cleanup(stages[0]), Some(stages[0].stageId), 0);
      FlattenedIds(m, stages[1..], parent, position + 1);
    }
  }

  lemma {:induction false} FlattenedKey(m: Uuid, stages: seq<Stage>)
    ensures DistinctIds(stages) <==> PrimaryKey(FlattenFrom(m, stages, None, 0))
    ensures forall id :: id in StageIds(stages) <==>
                         exists row :: row in FlattenFrom(m, stages, None, 0) && row.stageId == id
  {
    var rows, ids := FlattenFrom(m, stages, None, 0), IdList(stages);
    FlattenedIds(m, stages, None, 0);
    DistinctIdsIffListed(stages);
    IdListCoversStageIds(stages);
    forall id | id in ids ensures exists row :: row in rows && row.stageId == id {
      var i :| 0 <= i < |ids| && ids[i] == id;
      assert rows[i] in rows;
    }
  }

  // ---------- What saving guarantees ----------

  // Each id of the saved tree holds its flattened row; every other row is one the delete left.
  lemma {:induction false} AfterReplaceAt(table: Table, m: Uuid, stages: seq<Stage>, id: Uuid)
    requires DistinctIds(stages)
    ensures var after, left := AfterReplace(table, m, stages),
                               CascadeDelete(table, Dropped(table, m, StageIds(stages)));
            if id in StageIds(stages)
            then id in after && after[id] in FlattenFrom(m, stages, None, 0) && after[id].stageId == id
            else (id in after <==> id in left) && (id in after ==> after[id] == left[id])
  {
    FlattenedKey(m, stages);
    var rows := FlattenFrom(m, stages, None, 0);
    UpsertedWrites(CascadeDelete(table, Dropped(table, m, StageIds(stages))), rows);
    if id in StageIds(stages) {
      var row :| row in rows && row.stageId == id;
    }
  }

  // After a save the mission's rows are exactly the tree's, whatever was stored before and whatever
  // the cascade took with it.
  lemma {:induction false} SaveIsExact(table: Table, m: Uuid, stages: seq<Stage>)
    requires WellKeyed(table) && DistinctIds(stages)
    ensures WellKeyed(AfterReplace(table, m, stages))
    ensures RowsOf(AfterReplace(table, m, stages), m) == AsSet(FlattenFrom(m, stages, None, 0))
  {
    var after, dead := AfterReplace(table, m, stages), Dropped(table, m, StageIds(stages));
    CascadeOnlyDeletes(table, dead);
    forall id | id in after
      ensures after[id].stageId == id
      ensures after[id].missionId == m ==> after[id] in FlattenFrom(m, stages, None, 0)
    {
      AfterReplaceAt(table, m, stages, id);
    }
    FlattenedKey(m, stages);
    forall row | row in FlattenFrom(m, stages, None, 0) ensures row in RowsOf(after, m) {
      FlattenedParents(m, stages, None, 0, row);
      AfterReplaceAt(table, m, stages, row.stageId);
    }
  }

  // Reading a mission back after saving it returns the saved tree, however the rows are ordered.
  lemma {:induction false} SaveThenGet(table: Table, m: Uuid, stages: seq<Stage>, listing: seq<StageRow>)
    requires WellKeyed(table) && DistinctIds(stages)
    requires PrimaryKey(listing)
    requires forall row :: row in listing <==> row in RowsOf(AfterReplace(table, m, stages), m)
    ensures Nested(listing) == Normalised(stages)
  {
    SaveIsExact(table, m, stages);
    forall row ensures row in listing <==> row in FlattenFrom(m, stages, None, 0) {
      assert row in listing <==> row in AsSet(FlattenFrom(m, stages, None, 0));
    }
    NestedOfFlattened(listing, m, stages);
  }

  // Parents are rows of the same mission: what the foreign key and the flattening keep true.
  ghost predicate ParentsLocal(table: Table) {
    forall id :: id in table && table[id].parent.Some? && table[id].parent.value in table ==>
      table[table[id].parent.value].missionId == table[id].missionId
  }

  lemma {:induction false} CascadeStaysInMission(table: Table, dead: set<Uuid>, m: Uuid)
    requires ParentsLocal(table)
    requires forall id :: id in dead && id in table ==> table[id].missionId == m
    ensures forall id :: id in table && table[id].missionId != m ==> id in CascadeDelete(table, dead)
    decreases |table|
  {
    var gone := dead * table.Keys;
    if gone != {} {
      CascadeStaysInMission(table - gone, ChildIds(table - gone, gone), m);
    }
  }

  // Saving one mission leaves every other mission's rows alone, unless the saved tree names ids that
  // are another mission's.
  lemma {:induction false} SaveIsLocal(table: Table, m: Uuid, stages: seq<Stage>, other: Uuid)
    requires WellKeyed(table) && ParentsLocal(table) && DistinctIds(stages)
    requires other != m
    requires forall id :: id in StageIds(stages) && id in table ==> table[id].missionId == m
    ensures RowsOf(AfterReplace(table, m, stages), other) == RowsOf(table, other)
  {
    var after, dead := AfterReplace(table, m, stages), Dropped(table, m, StageIds(stages));
    CascadeOnlyDeletes(table, dead);
    CascadeStaysInMission(table, dead, m);
    forall id
      ensures id in after && after[id].missionId == other <==> id in table && table[id].missionId == other
      ensures id in after && after[id].missionId == other ==> after[id] == table[id]
    {
      AfterReplaceAt(table, m, stages, id);
      if id in StageIds(stages) {
        FlattenedParents(m, stages, None, 0, after[id]);
      }
    }
  }

  // Every parent reference leads to a row.
  ghost predicate NoDangling(table: Table, except: set<Uuid>) {
    forall id :: id in table && id !in except && table[id].parent.Some? ==> table[id].parent.value in table
  }

  lemma {:induction false} CascadeLeavesNoDangling(table: Table, dead: set<Uuid>)
    requires NoDangling(table, dead)
    ensures NoDangling(CascadeDelete(table, dead), {})
    decreases |table|
  {
    var gone := dead * table.Keys;
    if gone != {} {
      CascadeLeavesNoDangling(table - gone, ChildIds(table - gone, gone));
    }
  }

  lemma {:induction false} FlattenedSequences(m: Uuid, stages: seq<Stage>, parent: Option<Uuid>, position: nat,
                                              a: StageRow, b: StageRow)
    requires DistinctIds(stages) && (parent.Some? ==> parent.value !in StageIds(stages))
    requires a in FlattenFrom(m, stages, parent, position) && b in FlattenFrom(m, stages, parent, position)
    requires a.parent == b.parent && a.sequence == b.sequence
    ensures a == b
    decreases Size(stages)
  {
    if a.parent == parent {
      HeadSequences(m, stages, parent, position, a, b);
    } else {
      FlattenedParents(m, stages, parent, position, a);
      var i := OwnerOf(stages, a.parent.value);
      SameOwner(m, stages, parent, position, i, a);
      SameOwner(m, stages, parent, position, i, b);
      SizeOfMember(stages, i);
      FlattenedSequences(m, Cleanup(stages[i]), Some(stages[i].stageId), 0, a, b);
    }
  }

  lemma {:induction false} HeadSequences(m: Uuid, stages: seq<Stage>, parent: Option<Uuid>, position: nat,
                                         a: StageRow, b: StageRow)
    requires DistinctIds(stages) && (parent.Some? ==> parent.value !in StageIds(stages))
    requires a in FlattenFrom(m, stages, parent, position) && b in FlattenFrom(m, stages, parent, position)
    requires a.parent == b.parent == parent && a.sequence == b.sequence
    ensures a == b
  {
    FlattenedHeads(m, stages, parent, position, a);
    FlattenedHeads(m, stages, parent, position, b);
    HeadsDifferInSequence(m, stages, parent, position, a, b);
  }

  lemma {:induction false} HeadsDifferInSequence(m: Uuid, stages: seq<Stage>, parent: Option<Uuid>, position: nat,
                                                 a: StageRow, b: StageRow)
    requires a in HeadRows(m, stages, parent, position) && b in HeadRows(m, stages, parent, position)
    requires a.sequence == b.sequence
    ensures a == b
  {}

  lemma {:induction false} SameOwner(m: Uuid, stages: seq<Stage>, parent: Option<Uuid>, position: nat, i: nat,
                                     row: StageRow)
    requires DistinctIds(stages) && (parent.Some? ==> parent.value !in StageIds(stages)) && i < |stages|
    requires row in FlattenFrom(m, stages, parent, position)
    requires row.parent.Some? && row.parent.value in {stages[i].stageId} + StageIds(Cleanup(stages[i]))
    ensures row in FlattenFrom(m, Cleanup(stages[i]), Some(stages[i].stageId), 0)
    ensures DistinctIds(Cleanup(stages[i])) && stages[i].stageId !in StageIds(Cleanup(stages[i]))
  {
    FlattenedUnder(m, stages, parent, position, i, row);
    IdsOfMember(stages, i);
  }

  lemma {:induction false} OwnerOf(stages: seq<Stage>, id: Uuid) returns (i: nat)
    requires id in StageIds(stages)
    ensures i < |stages| && id in {stages[i].stageId} + StageIds(Cleanup(stages[i]))
  {
    if id in {stages[0].stageId} + StageIds(Cleanup(stages[0])) {
      i := 0;
    } else {
      i := OwnerOf(stages[1..], id);
      i := i + 1;
    }
  }

  // ---------- The table as a store of trees ----------

  // Two rows of one mission never share a parent and a position.
  ghost predicate OrderUnique(table: Table) {
    forall a, b :: (&& a in table && b in table
                    && table[a].missionId == table[b].missionId
                    && table[a].parent == table[b].parent
                    && table[a].sequence == table[b].sequence) ==> a == b
  }

  // The table holds exactly these missions' trees.
  ghost predicate Stores(table: Table, missions: map<Uuid, seq<Stage>>) {
    && WellKeyed(table)
    && (forall id :: id in table ==> table[id].missionId in missions)
    && (forall m :: m in missions ==> RowsOf(table, m) == AsSet(FlattenFrom(m, missions[m], None, 0)))
  }

  // Ids are distinct within each mission and across missions.
  ghost predicate IdsPartitioned(missions: map<Uuid, seq<Stage>>) {
    && (forall m :: m in missions ==> DistinctIds(missions[m]))
    && (forall m, n :: m in missions && n in missions && m != n ==>
          StageIds(missions[m]) !! StageIds(missions[n]))
  }

  lemma {:induction false} StoredRow(table: Table, missions: map<Uuid, seq<Stage>>, id: Uuid)
    requires Stores(table, missions) && id in table
    ensures var m := table[id].missionId;
            table[id] in FlattenFrom(m, missions[m], None, 0) && id in StageIds(missions[m])
  {
    var m := table[id].missionId;
    assert table[id] in RowsOf(table, m);
    FlattenedParents(m, missions[m], None, 0, table[id]);
  }

  lemma {:induction false} StoredId(table: Table, missions: map<Uuid, seq<Stage>>, m: Uuid, id: Uuid)
    requires Stores(table, missions) && m in missions && id in StageIds(missions[m])
    ensures id in table && table[id].missionId == m
  {
    FlattenedKey(m, missions[m]);
    var row :| row in FlattenFrom(m, missions[m], None, 0) && row.stageId == id;
    assert row in AsSet(FlattenFrom(m, missions[m], None, 0));
    KeyedRows(table, m, row);
  }

  // What the schema declares holds of every table that stores trees with partitioned ids.
  lemma {:induction false} StoresMeansConsistent(table: Table, missions: map<Uuid, seq<Stage>>)
    requires Stores(table, missions) && IdsPartitioned(missions)
    ensures ParentsLocal(table) && NoDangling(table, {}) && OrderUnique(table)
  {
    forall id | id in table && table[id].parent.Some?
      ensures table[id].parent.value in table
      ensures table[table[id].parent.value].missionId == table[id].missionId
    {
      var m := table[id].missionId;
      StoredRow(table, missions, id);
      FlattenedParents(m, missions[m], None, 0, table[id]);
      StoredId(table, missions, m, table[id].parent.value);
    }
    forall a, b | && a in table && b in table && table[a].missionId == table[b].missionId
                  && table[a].parent == table[b].parent && table[a].sequence == table[b].sequence
      ensures a == b
    {
      StoredRow(table, missions, a);
      StoredRow(table, missions, b);
      FlattenedSequences(table[a].missionId, missions[table[a].missionId], None, 0, table[a], table[b]);
    }
  }

  lemma {:induction false} OneOwner(missions: map<Uuid, seq<Stage>>, m: Uuid, n: Uuid, id: Uuid)
    requires IdsPartitioned(missions) && m in missions && n in missions
    requires id in StageIds(missions[m]) && id in StageIds(missions[n])
    ensures m == n
  {}

  lemma {:induction false} SavedRowsHaveMission(table: Table, missions: map<Uuid, seq<Stage>>, m: Uuid,
                                                stages: seq<Stage>)
    requires Stores(table, missions) && DistinctIds(stages)
    ensures forall id :: id in AfterReplace(table, m, stages) ==>
              AfterReplace(table, m, stages)[id].missionId in missions[m := stages]
  {
    var after := AfterReplace(table, m, stages);
    CascadeOnlyDeletes(table, Dropped(table, m, StageIds(stages)));
    forall id | id in after ensures after[id].missionId in missions[m := stages] {
      AfterReplaceAt(table, m, stages, id);
      if id in StageIds(stages) {
        FlattenedParents(m, stages, None, 0, after[id]);
      }
    }
  }

  // A save refines an update of the mission's tree: the table then stores the new tree for that
  // mission and the old one for every other, and the schema's constraints hold.
  lemma {:induction false} SaveRefinesUpdate(table: Table, missions: map<Uuid, seq<Stage>>, m: Uuid, stages: seq<Stage>)
    requires Stores(table, missions) && IdsPartitioned(missions)
    requires IdsPartitioned(missions[m := stages])
    ensures Stores(AfterReplace(table, m, stages), missions[m := stages])
  {
    var after, updated := AfterReplace(table, m, stages), missions[m := stages];
    assert updated[m] == stages;
    StoresMeansConsistent(table, missions);
    SaveIsExact(table, m, stages);
    SavedRowsHaveMission(table, missions, m, stages);
    forall id | id in StageIds(stages) && id in table ensures table[id].missionId == m {
      var n := table[id].missionId;
      StoredRow(table, missions, id);
      if n != m {
        OneOwner(updated, n, m, id);
      }
    }
    forall other | other in updated
      ensures RowsOf(after, other) == AsSet(FlattenFrom(other, updated[other], None, 0))
    {
      if other != m {
        SaveIsLocal(table, m, stages, other);
      }
    }
  }
}
