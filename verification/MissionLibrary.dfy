/** Runs of mission edits: creating, updating, re-planning and deleting missions over the stage table. */
module MissionLibrary {
  import opened Wrappers
  import opened Mission
  import opened MissionRows
  import opened StageTable
  import opened MissionAuthoring

  // Every mission's tree as saved, and every stage id ever handed out.
  datatype Library = Library(missions: map<Uuid, seq<Stage>>, minted: set<Uuid>)

  datatype Edit =
    | Create(m: Uuid, inputs: seq<StageInput>, planned: map<Path, CoveragePlan>, mint: Path -> Uuid)
    | Update(m: Uuid, inputs: seq<StageInput>, planned: map<Path, CoveragePlan>, mint: Path -> Uuid)
    | CreateGenerated(m: Uuid, stages: seq<Stage>)
    | ReplaceGenerated(m: Uuid, stage: Stage)
    | DeleteMission(m: Uuid)

  // The mission's stages as they read back.
  function Stored(lib: Library, m: Uuid): seq<Stage>
    requires m in lib.missions
  {
    Normalised(lib.missions[m])
  }

  // The tree the edit saves, when it is not refused.
  function Saved(lib: Library, e: Edit): Option<seq<Stage>> {
    match e
    case Create(m, inputs, planned, mint) =>
      var stages := WithIds(Request(map[], planned, mint), inputs);
      if m !in lib.missions && stages.Success? then Some(stages.value) else None
    case Update(m, inputs, planned, mint) =>
      if m !in lib.missions then None
      else
        var stages := WithIds(Request(ByStageId(Stored(lib, m)), planned, mint), inputs);
        if stages.Success? then Some(stages.value) else None
    case CreateGenerated(m, stages) => if m !in lib.missions then Some(stages) else None
    case ReplaceGenerated(m, stage) =>
      if m !in lib.missions then None
      else
        var replaced := Replaced(Stored(lib, m), stage);
        if replaced.1 then Some(replaced.0) else None
    case DeleteMission(_) => None
  }

  function Apply(lib: Library, e: Edit): Library {
    var saved := Saved(lib, e);
    if e.DeleteMission? then lib.(missions := lib.missions - {e.m})
    else if saved.Some? then
      Library(lib.missions[e.m := saved.value], lib.minted + StageIds(saved.value))
    else lib
  }

  // The rows after the edit: a save replaces the mission's rows, a delete takes them along.
  function ApplyToTable(table: Table, lib: Library, e: Edit): Table {
    var saved := Saved(lib, e);
    if e.DeleteMission? then map id | id in table && table[id].missionId != e.m :: table[id]
    else if saved.Some? then AfterReplace(table, e.m, saved.value)
    else table
  }

  // What an edit draws from outside is fresh: minted ids never handed out before, and a planner that
  // returns distinct fresh ids when it starts a mission and no cleanup when it re-plans a stage.
  ghost predicate Fresh(lib: Library, e: Edit) {
    match e
    case Create(_, _, _, mint) => FreshMint(lib, mint)
    case Update(_, _, _, mint) => FreshMint(lib, mint)
    case CreateGenerated(_, stages) => DistinctIds(stages) && StageIds(stages) !! lib.minted
    case ReplaceGenerated(_, stage) => Cleanup(stage) == []
    case DeleteMission(_) => true
  }

  // A mission is only created once, and edited only while it is there: any other edit changes nothing.
  lemma {:induction false} EditsNeedTheirMission(lib: Library, e: Edit)
    requires (e.Create? || e.CreateGenerated?) <==> e.m in lib.missions
    ensures Apply(lib, e) == lib
  {
    assert e.m !in lib.missions ==> lib.missions - {e.m} == lib.missions;
  }

  ghost predicate FreshMint(lib: Library, mint: Path -> Uuid) {
    && (forall p, q :: mint(p) == mint(q) ==> p == q)
    && (forall p :: mint(p) !in lib.minted)
  }

  ghost predicate Consistent(lib: Library) {
    && IdsPartitioned(lib.missions)
    && (forall m :: m in lib.missions ==> StageIds(lib.missions[m]) <= lib.minted)
  }

  lemma {:induction false} StoredIds(lib: Library, m: Uuid)
    requires Consistent(lib) && m in lib.missions
    ensures DistinctIds(Stored(lib, m)) && StageIds(Stored(lib, m)) == StageIds(lib.missions[m])
  {
    NormalisedKeepsIds(lib.missions[m]);
  }

  lemma {:induction false} UpdateIsGood(lib: Library, m: Uuid, planned: map<Path, CoveragePlan>, mint: Path -> Uuid)
    requires Consistent(lib) && FreshMint(lib, mint) && m in lib.missions
    ensures GoodRequest(Request(ByStageId(Stored(lib, m)), planned, mint))
  {
    StoredIds(lib, m);
    ByStageIdKeys(Stored(lib, m));
    forall id | id in ByStageId(Stored(lib, m))
      ensures GoodStage(ByStageId(Stored(lib, m)).Keys, id, ByStageId(Stored(lib, m))[id])
    {
      ByStageIdGood(Stored(lib, m), id);
    }
  }

  // Whatever an edit saves has distinct ids, each either the mission's own or never used before.
  lemma {:induction false} SavedIds(lib: Library, e: Edit)
    requires Consistent(lib) && Fresh(lib, e) && Saved(lib, e).Some?
    ensures DistinctIds(Saved(lib, e).value)
    ensures forall id :: id in StageIds(Saved(lib, e).value) ==>
              id !in lib.minted || (e.m in lib.missions && id in StageIds(lib.missions[e.m]))
  {
    match e
    case Create(m, inputs, planned, mint) =>
      WithIdsDistinct(Request(map[], planned, mint), inputs);
    case Update(m, inputs, planned, mint) =>
      UpdateIsGood(lib, m, planned, mint);
      StoredIds(lib, m);
      ByStageIdKeys(Stored(lib, m));
      WithIdsDistinct(Request(ByStageId(Stored(lib, m)), planned, mint), inputs);
    case CreateGenerated(m, stages) =>
    case ReplaceGenerated(m, stage) =>
      StoredIds(lib, m);
      FoundIffPresent(Stored(lib, m), stage);
      ReplacedDistinct(Stored(lib, m), stage);
      ReplacedIds(Stored(lib, m), stage);
  }

  lemma {:induction false} ApplyKeepsConsistent(lib: Library, e: Edit)
    requires Consistent(lib) && Fresh(lib, e)
    ensures Consistent(Apply(lib, e))
  {
    if Saved(lib, e).Some? {
      SavedIds(lib, e);
    }
  }

  lemma {:induction false} ApplyRefines(table: Table, lib: Library, e: Edit)
    requires Consistent(lib) && Fresh(lib, e) && Stores(table, lib.missions)
    ensures Stores(ApplyToTable(table, lib, e), Apply(lib, e).missions)
  {
    ApplyKeepsConsistent(lib, e);
    if e.DeleteMission? {
      var left := ApplyToTable(table, lib, e);
      forall m | m in lib.missions && m != e.m ensures RowsOf(left, m) == RowsOf(table, m) {
        forall row ensures row in RowsOf(left, m) <==> row in RowsOf(table, m) {
          if row in RowsOf(table, m) {
            KeyedRows(table, m, row);
            assert row.stageId in left && left[row.stageId] == row;
          }
        }
      }
    } else if Saved(lib, e).Some? {
      SaveRefinesUpdate(table, lib.missions, e.m, Saved(lib, e).value);
    }
  }

  function Run(lib: Library, edits: seq<Edit>): Library
    decreases |edits|
  {
    if edits == [] then lib else Run(Apply(lib, edits[0]), edits[1..])
  }

  function RunOnTable(table: Table, lib: Library, edits: seq<Edit>): Table
    decreases |edits|
  {
    if edits == [] then table
    else RunOnTable(ApplyToTable(table, lib, edits[0]), Apply(lib, edits[0]), edits[1..])
  }

  ghost predicate FreshRun(lib: Library, edits: seq<Edit>)
    decreases |edits|
  {
    edits != [] ==> Fresh(lib, edits[0]) && FreshRun(Apply(lib, edits[0]), edits[1..])
  }

  // Over any run of edits, stage ids stay distinct within every mission, at every depth, and disjoint
  // across missions; and the rows store exactly those trees.
  lemma {:induction false} RunKeepsIdsApart(table: Table, lib: Library, edits: seq<Edit>)
    requires Consistent(lib) && Stores(table, lib.missions) && FreshRun(lib, edits)
    ensures Consistent(Run(lib, edits))
    ensures Stores(RunOnTable(table, lib, edits), Run(lib, edits).missions)
    decreases |edits|
  {
    if edits != [] {
      ApplyKeepsConsistent(lib, edits[0]);
      ApplyRefines(table, lib, edits[0]);
      RunKeepsIdsApart(ApplyToTable(table, lib, edits[0]), Apply(lib, edits[0]), edits[1..]);
    }
  }

  // From an empty database, after any run of edits: every mission reads back as the tree it was last
  // saved with, and the schema's constraints hold of the rows.
  lemma {:induction false} EveryMissionReadsBack(edits: seq<Edit>, m: Uuid, listing: seq<StageRow>)
    requires FreshRun(Library(map[], {}), edits)
    requires var lib, table := Run(Library(map[], {}), edits), RunOnTable(map[], Library(map[], {}), edits);
             && m in lib.missions
             && PrimaryKey(listing) && (forall row :: row in listing <==> row in RowsOf(table, m))
    ensures var lib, table := Run(Library(map[], {}), edits), RunOnTable(map[], Library(map[], {}), edits);
            && Nested(listing) == Normalised(lib.missions[m])
            && ParentsLocal(table) && NoDangling(table, {}) && OrderUnique(table)
  {
    var lib, table := Run(Library(map[], {}), edits), RunOnTable(map[], Library(map[], {}), edits);
    RunKeepsIdsApart(map[], Library(map[], {}), edits);
    StoresMeansConsistent(table, lib.missions);
    forall row ensures row in listing <==> row in FlattenFrom(m, lib.missions[m], None, 0) {
      assert row in listing <==> row in AsSet(FlattenFrom(m, lib.missions[m], None, 0));
    }
    NestedOfFlattened(listing, m, lib.missions[m]);
  }
}
