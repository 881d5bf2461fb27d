/**
 * Jobs of one table that come between a field-edit job's failure partway and
 * its next run: which columns are in doubt, and exactly when the others, and
 * in the end all of them, agree with the metadata.
 */
module SchemaHistories {
  import opened Wrappers
  import opened PhysicalTable
  import opened FieldEdits
  import opened RetryConvergence
  import opened SchemaMetadata

  /** A column of a table, by table id. */
  type Place = (string, string)

  datatype Action =
    | Creates(create: CreateTableJob)
    /** A run of a field-edit job that commits its last step and its metadata. */
    | Completes(tableId: string, edits: seq<FieldEdit>)
    /** A run that dies or fails, with this many steps tried and no metadata. */
    | Breaks(tableId: string, edits: seq<FieldEdit>, tried: nat)

  function Broken(cast: Caster, s: TenantSchema, tableName: string, steps: seq<FieldEditStep>): TenantSchema
    requires tableName in s.physical
  {
    s.(physical := s.physical[tableName := Run(Server(cast, s.physical.Keys), s.physical[tableName], steps).table])
  }

  predicate Stands(s: TenantSchema, id: string) {
    id in s.metaTables && s.metaTables[id] in s.physical
  }

  /** `None` when the action is not possible. */
  function Act(cast: Caster, s: TenantSchema, a: Action): Option<TenantSchema> {
    match a
    case Creates(create) => CreateTable(s, create)
    case Completes(id, edits) =>
      if Stands(s, id) then EditTable(cast, s, JobOf(id, s.metaTables[id], edits)) else None
    case Breaks(id, edits, tried) =>
      if Stands(s, id) && tried <= |CompileAll(edits)|
      then Some(Broken(cast, s, s.metaTables[id], CompileAll(edits)[..tried])) else None
  }

  // ----- doubt ---------------------------------------------------------

  function Places(id: string, cols: set<string>): set<Place> {
    set c | c in cols :: (id, c)
  }

  /** A broken run leaves its columns in doubt; a run that completes settles the columns it names. */
  function DoubtsAfter(doubts: set<Place>, a: Action): set<Place> {
    match a
    case Creates(create) => doubts - Places(create.tableId, FieldNames(create.fields))
    case Completes(id, edits) => doubts - Places(id, Footprints(edits))
    case Breaks(id, edits, _) => doubts + Places(id, Footprints(edits))
  }

  function ColumnAt(s: TenantSchema, id: string, c: string): Option<Column>
    requires Stands(s, id)
  {
    Look(s.physical[s.metaTables[id]], c)
  }

  /** Metadata and tables agree at every column that is not in doubt. */
  ghost predicate AgreesBut(s: TenantSchema, doubts: set<Place>) {
    && (forall id | id in s.metaTables :: Stands(s, id))
    && (forall id, c | id in s.metaTables && (id, c) !in doubts ::
          ColumnAgrees(ColumnAt(s, id, c), RowOf(s.metaFields, id, c), c))
    && (forall id, id' | id in s.metaTables && id' in s.metaTables :: s.metaTables[id] == s.metaTables[id'] ==> id == id')
    && (forall key | key in s.metaFields :: key.0 in s.metaTables)
    && (forall d | d in doubts :: d.0 in s.metaTables)
  }

  /** Without doubts that is agreement. */
  lemma NoDoubtIsAgreement(s: TenantSchema)
    ensures AgreesBut(s, {}) <==> Agrees(s)
  {
    forall id | Stands(s, id)
      ensures TableAgrees(s.physical[s.metaTables[id]], s.metaFields, id) <==>
              forall c :: ColumnAgrees(ColumnAt(s, id, c), RowOf(s.metaFields, id, c), c)
    {
      TableAgreesByColumn(s.physical[s.metaTables[id]], s.metaFields, id);
      hide TableAgrees, ColumnAgrees;
      assert forall c :: ColumnAt(s, id, c) == Look(s.physical[s.metaTables[id]], c);
    }
    hide TableAgrees, ColumnAgrees;
  }

  // ----- what steps do to columns --------------------------------------

  /** The type of the column a completed run leaves for `e`, whatever it found. */
  function TypeLeft(t: Table, e: FieldEdit): PgType
    requires !e.Remove?
  {
    match e
    case Add(c, dataType, _) => if c in t.cols then t.cols[c].ty else ColumnTypeOf(dataType)
    case AddRelation(c, _, _, _) => if c in t.cols then t.cols[c].ty else Integer
    case Modify(c, dataType, _) => if Shadow(c) in t.cols then t.cols[Shadow(c)].ty else ColumnTypeOf(dataType)
  }

  /** The columns of `e` after a run that completed. */
  predicate Left(t: Table, u: Table, e: FieldEdit) {
    && (if e.Remove? then Look(u, e.name) == None
        else Look(u, e.name).Some? && Look(u, e.name).value.ty == TypeLeft(t, e))
    && (e.Modify? ==> Look(u, Shadow(e.name)) == None)
  }

  lemma OneEditRuns(server: Server, t: Table, e: FieldEdit, k: nat)
    requires k <= |Compile(e)|
    ensures var p := Run(server, t, Compile(e)[..k]);
            && AgreeOutside(t, p.table, Footprint(e))
            && (p.committed == |Compile(e)| ==> Left(t, p.table, e))
  {
    var steps := Compile(e);
    if e.Modify? {
      RunThree(server, t, steps[0], steps[1], steps[2], k);
      ShadowDiffers(e.name);
      assert steps[..k] == [steps[0], steps[1], steps[2]][..k];
    } else {
      Unroll(server, t, steps, k);
    }
  }

  /** Any part of a job touches its footprint only. */
  lemma {:induction false} PrefixTouchesFootprint(server: Server, t: Table, edits: seq<FieldEdit>, k: nat)
    requires k <= |CompileAll(edits)|
    ensures AgreeOutside(t, Run(server, t, CompileAll(edits)[..k]).table, Footprints(edits))
    decreases |edits|
  {
    if edits != [] {
      var e, rest, n := edits[0], edits[1..], |Compile(edits[0])|;
      var all := CompileAll(edits);
      assert Compile(e)[..n] == Compile(e);
      if k <= n {
        assert all[..k] == Compile(e)[..k];
        OneEditRuns(server, t, e, k);
      } else {
        var more := CompileAll(rest)[..k - n];
        assert all[..k] == Compile(e) + more;
        OneEditRuns(server, t, e, n);
        RunConcat(server, t, Compile(e), more);
        PrefixTouchesFootprint(server, Run(server, t, Compile(e)).table, rest, k - n);
      }
    }
  }

  /** A job that completes leaves each of its columns as `Left` says, from any table. */
  lemma {:induction false} CompletedLeaves(server: Server, t: Table, edits: seq<FieldEdit>)
    requires Independent(edits) && Run(server, t, CompileAll(edits)).committed == |CompileAll(edits)|
    ensures forall e | e in edits :: Left(t, Run(server, t, CompileAll(edits)).table, e)
    decreases |edits|
  {
    if edits != [] {
      var e0, rest, n := edits[0], edits[1..], |Compile(edits[0])|;
      var u := Run(server, t, CompileAll(edits)).table;
      assert Compile(e0)[..n] == Compile(e0);
      OneEditRuns(server, t, e0, n);
      RunConcat(server, t, Compile(e0), CompileAll(rest));
      var t1 := Run(server, t, Compile(e0)).table;
      assert CompileAll(rest)[..|CompileAll(rest)|] == CompileAll(rest);
      PrefixTouchesFootprint(server, t1, rest, |CompileAll(rest)|);
      CompletedLeaves(server, t1, rest);
      forall e | e in edits
        ensures Left(t, u, e)
      {
        if e == e0 {
          LeftFrame(t, t, t1, u, e0);
        } else {
          FootprintIn(rest, e);
          LeftFrame(t1, t, u, u, e);
        }
      }
    }
  }

  /** `Left` depends on the columns of the edit only. */
  lemma LeftFrame(t: Table, t': Table, u: Table, u': Table, e: FieldEdit)
    requires Left(t, u, e) && Agree(t, t', Footprint(e)) && Agree(u, u', Footprint(e))
    ensures Left(t', u', e)
  {
    assert Look(t, e.name) == Look(t', e.name) && Look(u, e.name) == Look(u', e.name);
    if e.Modify? {
      assert Shadow(e.name) in Footprint(e);
    }
  }

  // ----- one action ----------------------------------------------------

  /** What decides whether a completed edit settles its columns: read off the table and metadata it starts from. */
  predicate Settles(s: TenantSchema, id: string, e: FieldEdit)
    requires Stands(s, id)
  {
    && (e.name in SYSTEM_COLUMNS ==> e.Remove?)
    && (!e.Remove? ==> TypeLeft(s.physical[s.metaTables[id]], e) == ColumnTypeOf(EffectOf(e).row.dataType))
    && (e.Modify? ==> RowOf(s.metaFields, id, Shadow(e.name)) == None)
  }

  lemma {:induction false} IndependentNames(edits: seq<FieldEdit>)
    requires Independent(edits)
    ensures DistinctNames(edits)
    ensures forall e, e' | e in edits && e' in edits && e.Modify? :: Shadow(e.name) != e'.name
  {
    if edits != [] {
      var rest := edits[1..];
      IndependentNames(rest);
      forall e | e in rest
        ensures Footprint(e) !! Footprint(edits[0])
      {
        FootprintIn(rest, e);
      }
      ShadowDiffers(edits[0].name);
      forall i, j | 0 <= i < j < |edits|
        ensures edits[i].name != edits[j].name
      {
        if i == 0 {
          assert edits[j] == rest[j - 1] && edits[j] in rest;
          assert edits[j].name in Footprint(edits[j]);
        } else {
          assert edits[i] == rest[i - 1] && edits[j] == rest[j - 1];
        }
      }
      forall e, e' | e in edits && e' in edits && e.Modify?
        ensures Shadow(e.name) != e'.name
      {
        assert e == edits[0] || e in rest;
        assert e' == edits[0] || e' in rest;
        assert e'.name in Footprint(e') && Shadow(e.name) in Footprint(e);
      }
    }
  }

  /** An action that changes some columns of one table leaves only those to check. */
  lemma OnlyTheseColumns(s: TenantSchema, s': TenantSchema, id: string, cols: set<string>,
                         doubts: set<Place>, doubts': set<Place>)
    requires AgreesBut(s, doubts) && Stands(s, id) && s'.metaTables == s.metaTables
    requires s.metaTables[id] in s'.physical
    requires s'.physical == s.physical[s.metaTables[id] := s'.physical[s.metaTables[id]]]
    requires forall i, c | i != id || c !in cols :: RowOf(s'.metaFields, i, c) == RowOf(s.metaFields, i, c)
    requires forall c | c !in cols :: Look(s'.physical[s.metaTables[id]], c) == Look(s.physical[s.metaTables[id]], c)
    requires forall d: Place | d.0 != id || d.1 !in cols :: d in doubts' <==> d in doubts
    ensures AgreesBut(s', doubts') <==>
            forall c | c in cols && (id, c) !in doubts' ::
              ColumnAgrees(Look(s'.physical[s.metaTables[id]], c), RowOf(s'.metaFields, id, c), c)
  {
    forall i, c | i in s.metaTables && (i != id || c !in cols)
      ensures Stands(s', i) && ColumnAt(s', i, c) == ColumnAt(s, i, c)
      ensures (i, c) in doubts' <==> (i, c) in doubts
    {
      assert (i, c).0 == i;
    }
    forall i | i in s.metaTables
      ensures Stands(s', i)
    {
      assert Stands(s, i);
    }
    forall key | key in s'.metaFields
      ensures key.0 in s'.metaTables
    {
      if key.0 != id {
        assert RowOf(s'.metaFields, key.0, key.1) == RowOf(s.metaFields, key.0, key.1) && key == (key.0, key.1);
        assert key in s.metaFields;
      }
    }
    forall d | d in doubts'
      ensures d.0 in s'.metaTables
    {
      if d.0 != id {
        assert d in doubts;
      }
    }
    hide ColumnAgrees;
    if AgreesBut(s', doubts') {
      forall c | c in cols && (id, c) !in doubts'
        ensures ColumnAgrees(Look(s'.physical[s.metaTables[id]], c), RowOf(s'.metaFields, id, c), c)
      {
        assert ColumnAgrees(ColumnAt(s', id, c), RowOf(s'.metaFields, id, c), c);
      }
    }
  }

  lemma PlacesAre(id: string, cols: set<string>)
    ensures forall d: Place :: d in Places(id, cols) <==> d.0 == id && d.1 in cols
  {
    forall d: Place | d.0 == id && d.1 in cols
      ensures d in Places(id, cols)
    {
      assert d == (id, d.1);
    }
  }

  /** A broken run keeps agreement everywhere but where it is put in doubt. */
  lemma BrokenKeeps(cast: Caster, s: TenantSchema, doubts: set<Place>, a: Action)
    requires AgreesBut(s, doubts) && a.Breaks? && Act(cast, s, a).Some?
    ensures AgreesBut(Act(cast, s, a).value, DoubtsAfter(doubts, a))
  {
    var cols := Footprints(a.edits);
    PrefixTouchesFootprint(Server(cast, s.physical.Keys), s.physical[s.metaTables[a.tableId]], a.edits, a.tried);
    PlacesAre(a.tableId, cols);
    hide AgreesBut, Run, CompileAll, Footprints, Places;
    OnlyTheseColumns(s, Act(cast, s, a).value, a.tableId, cols, doubts, DoubtsAfter(doubts, a));
  }

  /** A completed run settles the columns it names if and only if each of its edits settles, from whatever broken runs have left. */
  lemma CompletedSettlesIff(cast: Caster, s: TenantSchema, doubts: set<Place>, id: string, edits: seq<FieldEdit>)
    requires AgreesBut(s, doubts) && Independent(edits) && Act(cast, s, Completes(id, edits)).Some?
    ensures AgreesBut(Act(cast, s, Completes(id, edits)).value, DoubtsAfter(doubts, Completes(id, edits))) <==>
            forall e | e in edits :: Settles(s, id, e)
  {
    var server, name, steps := Server(cast, s.physical.Keys), s.metaTables[id], CompileAll(edits);
    var s' := Act(cast, s, Completes(id, edits)).value;
    var t, u := s.physical[name], s'.physical[name];
    var doubts' := DoubtsAfter(doubts, Completes(id, edits));
    assert steps[..|steps|] == steps;
    PrefixTouchesFootprint(server, t, edits, |steps|);
    CompletedLeaves(server, t, edits);
    IndependentNames(edits);
    RowsAfter(s.metaFields, id, edits);
    PlacesAre(id, Footprints(edits));
    forall c | c !in Footprints(edits)
      ensures forall e | e in edits :: e.name != c
    {
      NamesInFootprints(edits, c);
    }
    hide AgreesBut, Run, CompileAll, Places;
    OnlyTheseColumns(s, s', id, Footprints(edits), doubts, doubts');
    SettledColumns(s, id, edits, t, u, s'.metaFields);
  }

  lemma NamesInFootprints(edits: seq<FieldEdit>, c: string)
    requires c !in Footprints(edits)
    ensures forall e | e in edits :: e.name != c && (e.Modify? ==> Shadow(e.name) != c)
  {
    forall e | e in edits
      ensures Footprint(e) <= Footprints(edits)
    {
      FootprintIn(edits, e);
    }
  }

  lemma SettledColumns(s: TenantSchema, id: string, edits: seq<FieldEdit>, t: Table, u: Table, rows: FieldRows)
    requires Stands(s, id) && t == s.physical[s.metaTables[id]]
    requires forall e | e in edits :: Left(t, u, e)
    requires forall e | e in edits :: RowOf(rows, id, e.name) == if e.Remove? then None else Some(EffectOf(e).row)
    requires forall c | (forall e | e in edits :: e.name != c) :: RowOf(rows, id, c) == RowOf(s.metaFields, id, c)
    requires forall e, e' | e in edits && e' in edits && e.Modify? :: Shadow(e.name) != e'.name
    ensures (forall c | c in Footprints(edits) :: ColumnAgrees(Look(u, c), RowOf(rows, id, c), c)) <==>
            forall e | e in edits :: Settles(s, id, e)
  {
    forall e | e in edits
      ensures Settles(s, id, e) <==> forall c | c in Footprint(e) :: ColumnAgrees(Look(u, c), RowOf(rows, id, c), c)
    {
      assert Left(t, u, e);
      if e.Modify? {
        assert RowOf(rows, id, Shadow(e.name)) == RowOf(s.metaFields, id, Shadow(e.name));
        assert Shadow(e.name) in Footprint(e);
      }
      assert e.name in Footprint(e);
    }
    hide Settles, ColumnAgrees, Left, EffectOf;
    forall c
      ensures c in Footprints(edits) <==> exists e :: e in edits && c in Footprint(e)
    {
      if c in Footprints(edits) {
        FootprintsFrom(edits, c);
      }
      forall e | e in edits {
        FootprintIn(edits, e);
      }
    }
  }

  // ----- create-table --------------------------------------------------

  /** The table has every field of the job, with its type. */
  ghost predicate HasFields(t: Table, fields: seq<FieldDefinition>) {
    forall c :: Definition(fields, c).Some? ==>
      c in t.cols && c !in SYSTEM_COLUMNS && t.cols[c].ty == ColumnTypeOf(Definition(fields, c).value.dataType)
  }

  /** What decides about a create-table job, first or repeated. */
  ghost predicate Shapes(s: TenantSchema, create: CreateTableJob) {
    if Stands(s, create.tableId) then HasFields(s.physical[s.metaTables[create.tableId]], create.fields)
    else create.tableName in s.physical ==> AlreadyShaped(s.physical[create.tableName], create.fields)
  }

  lemma {:induction false} NamesAreDefined(fields: seq<FieldDefinition>, c: string)
    ensures c in FieldNames(fields) <==> Definition(fields, c).Some?
  {
    if fields != [] {
      var n := |fields| - 1;
      NamesAreDefined(fields[..n], c);
      assert fields == fields[..n] + [fields[n]];
      assert FieldNames(fields) == FieldNames(fields[..n]) + {fields[n].name};
    }
  }

  lemma RerunSettlesIff(cast: Caster, s: TenantSchema, doubts: set<Place>, create: CreateTableJob)
    requires AgreesBut(s, doubts) && create.tableId in s.metaTables && s.metaTables[create.tableId] == create.tableName
    requires CreateTable(s, create).Some?
    ensures AgreesBut(CreateTable(s, create).value, DoubtsAfter(doubts, Creates(create))) <==> Shapes(s, create)
  {
    var s', id, fields := CreateTable(s, create).value, create.tableId, create.fields;
    var t := s.physical[create.tableName];
    assert Stands(s, id);
    assert s.metaTables[id := create.tableName] == s.metaTables && s.physical[create.tableName := t] == s.physical;
    forall i, c {
      DefinedRows(s.metaFields, id, fields, i, c);
    }
    forall c
      ensures c in FieldNames(fields) <==> Definition(fields, c).Some?
    {
      NamesAreDefined(fields, c);
    }
    PlacesAre(id, FieldNames(fields));
    hide AgreesBut, Places, FieldNames, CreateTable;
    OnlyTheseColumns(s, s', id, FieldNames(fields), doubts, DoubtsAfter(doubts, Creates(create)));
    forall c | Definition(fields, c).Some?
      ensures ColumnAgrees(Look(t, c), RowOf(s'.metaFields, id, c), c) <==>
              c in t.cols && c !in SYSTEM_COLUMNS && t.cols[c].ty == ColumnTypeOf(Definition(fields, c).value.dataType)
    {
    }
    hide ColumnAgrees;
  }

  lemma FirstCreateSettlesIff(cast: Caster, s: TenantSchema, doubts: set<Place>, create: CreateTableJob)
    requires AgreesBut(s, doubts) && create.tableId !in s.metaTables && CreateTable(s, create).Some?
    ensures AgreesBut(CreateTable(s, create).value, DoubtsAfter(doubts, Creates(create))) <==> Shapes(s, create)
  {
    var s', id := CreateTable(s, create).value, create.tableId;
    var u := s'.physical[create.tableName];
    if create.tableName !in s.physical {
      NewTableShaped(create.fields);
    }
    forall i, c {
      DefinedRows(s.metaFields, id, create.fields, i, c);
    }
    forall c
      ensures RowOf(s.metaFields, id, c) == None
    {
      assert (id, c) !in s.metaFields;
    }
    CreatedTableAgreesIff(u, s'.metaFields, create);
    TableAgreesByColumn(u, s'.metaFields, id);
    PlacesAre(id, FieldNames(create.fields));
    assert DoubtsAfter(doubts, Creates(create)) == doubts;
    hide AlreadyShaped, TableAgrees;
    OneMoreTable(s, s', id, doubts);
  }

  /** Registering one more table leaves only its own columns to check. */
  lemma OneMoreTable(s: TenantSchema, s': TenantSchema, id: string, doubts: set<Place>)
    requires AgreesBut(s, doubts) && id !in s.metaTables && Stands(s', id)
    requires s'.metaTables == s.metaTables[id := s'.metaTables[id]]
    requires forall i | i in s.metaTables :: s.metaTables[i] != s'.metaTables[id]
    requires forall name | name in s.physical :: name in s'.physical && s'.physical[name] == s.physical[name]
    requires forall i, c | i != id :: RowOf(s'.metaFields, i, c) == RowOf(s.metaFields, i, c)
    ensures AgreesBut(s', doubts) <==>
            forall c :: ColumnAgrees(Look(s'.physical[s'.metaTables[id]], c), RowOf(s'.metaFields, id, c), c)
  {
    forall i, c | i in s.metaTables
      ensures Stands(s', i) && ColumnAt(s', i, c) == ColumnAt(s, i, c)
    {
      assert Stands(s, i);
    }
    forall i | i in s.metaTables
      ensures Stands(s', i)
    {
      assert Stands(s, i);
    }
    forall key | key in s'.metaFields
      ensures key.0 in s'.metaTables
    {
      if key.0 != id {
        assert RowOf(s'.metaFields, key.0, key.1) == RowOf(s.metaFields, key.0, key.1) && key == (key.0, key.1);
        assert key in s.metaFields;
      }
    }
    hide ColumnAgrees;
    if AgreesBut(s', doubts) {
      forall c
        ensures ColumnAgrees(Look(s'.physical[s'.metaTables[id]], c), RowOf(s'.metaFields, id, c), c)
      {
        assert (id, c).0 == id && (id, c) !in doubts;
        assert ColumnAgrees(ColumnAt(s', id, c), RowOf(s'.metaFields, id, c), c);
      }
    }
  }

  // ----- histories -----------------------------------------------------

  /** What the code that enqueues a job guarantees of it. */
  predicate Admissible(s: TenantSchema, a: Action) {
    match a
    case Creates(create) => create.tableId in s.metaTables ==> s.metaTables[create.tableId] == create.tableName
    case Completes(_, edits) => Independent(edits)
    case Breaks(_, _, _) => true
  }

  /** What a caller can check about an action before it. */
  ghost predicate Harmless(s: TenantSchema, a: Action) {
    match a
    case Creates(create) => Shapes(s, create)
    case Completes(id, edits) => Stands(s, id) && forall e | e in edits :: Settles(s, id, e)
    case Breaks(_, _, _) => true
  }

  lemma ActionSettlesIff(cast: Caster, s: TenantSchema, doubts: set<Place>, a: Action)
    requires AgreesBut(s, doubts) && Admissible(s, a) && Act(cast, s, a).Some?
    ensures AgreesBut(Act(cast, s, a).value, DoubtsAfter(doubts, a)) <==> Harmless(s, a)
  {
    match a
    case Creates(create) =>
      if create.tableId in s.metaTables {
        RerunSettlesIff(cast, s, doubts, create);
      } else {
        FirstCreateSettlesIff(cast, s, doubts, create);
      }
      hide AgreesBut, Shapes;
    case Completes(id, edits) =>
      CompletedSettlesIff(cast, s, doubts, id, edits);
      hide AgreesBut, Settles;
    case Breaks(_, _, _) =>
      BrokenKeeps(cast, s, doubts, a);
      hide AgreesBut;
  }

  ghost predicate CanHappen(cast: Caster, s: TenantSchema, acts: seq<Action>)
    decreases |acts|
  {
    acts == [] ||
    (Admissible(s, acts[0]) && Act(cast, s, acts[0]).Some? && CanHappen(cast, Act(cast, s, acts[0]).value, acts[1..]))
  }

  ghost predicate AllHarmless(cast: Caster, s: TenantSchema, acts: seq<Action>)
    requires CanHappen(cast, s, acts)
    decreases |acts|
  {
    acts == [] || (Harmless(s, acts[0]) && AllHarmless(cast, Act(cast, s, acts[0]).value, acts[1..]))
  }

  ghost predicate AgreesButThroughout(cast: Caster, s: TenantSchema, acts: seq<Action>, doubts: set<Place>)
    requires CanHappen(cast, s, acts)
    decreases |acts|
  {
    AgreesBut(s, doubts) &&
    (acts == [] || AgreesButThroughout(cast, Act(cast, s, acts[0]).value, acts[1..], DoubtsAfter(doubts, acts[0])))
  }

  /**
   * Over every history of create-table jobs, first or repeated, field-edit runs
   * that complete and field-edit runs that break anywhere, of any tables and in
   * any order: at every moment metadata and tables agree everywhere but at
   * columns that a broken run left and no completed one has settled since, if
   * and only if each action was harmless where it ran.
   */
  lemma {:induction false} BrokenHistoryAgreesIff(cast: Caster, s: TenantSchema, acts: seq<Action>, doubts: set<Place>)
    requires AgreesBut(s, doubts) && CanHappen(cast, s, acts)
    ensures AgreesButThroughout(cast, s, acts, doubts) <==> AllHarmless(cast, s, acts)
    decreases |acts|
  {
    hide AgreesBut, Act, Harmless, Admissible, DoubtsAfter;
    if acts != [] {
      var s', doubts' := Act(cast, s, acts[0]).value, DoubtsAfter(doubts, acts[0]);
      ActionSettlesIff(cast, s, doubts, acts[0]);
      if AgreesBut(s', doubts') {
        BrokenHistoryAgreesIff(cast, s', acts[1..], doubts');
      }
    }
  }

  ghost function ActAll(cast: Caster, s: TenantSchema, acts: seq<Action>): TenantSchema
    requires CanHappen(cast, s, acts)
    decreases |acts|
  {
    if acts == [] then s else ActAll(cast, Act(cast, s, acts[0]).value, acts[1..])
  }

  function DoubtsAfterAll(doubts: set<Place>, acts: seq<Action>): set<Place>
    decreases |acts|
  {
    if acts == [] then doubts else DoubtsAfterAll(DoubtsAfter(doubts, acts[0]), acts[1..])
  }

  /** Once every broken run's columns have been settled by a run that completed, agreement is whole again. */
  lemma {:induction false} SettledHistoryAgrees(cast: Caster, s: TenantSchema, acts: seq<Action>, doubts: set<Place>)
    requires AgreesBut(s, doubts) && CanHappen(cast, s, acts) && AllHarmless(cast, s, acts)
    ensures AgreesBut(ActAll(cast, s, acts), DoubtsAfterAll(doubts, acts))
    ensures DoubtsAfterAll(doubts, acts) == {} ==> Agrees(ActAll(cast, s, acts))
    decreases |acts|
  {
    hide AgreesBut, Act, Harmless, Admissible, DoubtsAfter, Agrees;
    if acts == [] {
      NoDoubtIsAgreement(s);
    } else {
      ActionSettlesIff(cast, s, doubts, acts[0]);
      SettledHistoryAgrees(cast, Act(cast, s, acts[0]).value, acts[1..], DoubtsAfter(doubts, acts[0]));
    }
  }
}
