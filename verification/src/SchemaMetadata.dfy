/**
 * The tenant schema as a whole: physical tables next to the `_meta_tables` and
 * `_meta_fields` rows that describe them, and when the two keep agreeing.
 */
module SchemaMetadata {
  import opened Wrappers
  import opened PhysicalTable
  import opened FieldEdits
  import opened RetryConvergence

  const SYSTEM_COLUMNS := {"id", "owner_user_id", "created_at", "updated_at"}

  datatype FieldRow = FieldRow(dataType: FieldDataType, required: bool, relationTargetTableId: Option<string>)

  /** `_meta_fields`, keyed by table id and slug as its unique constraint requires. */
  type FieldRows = map<(string, string), FieldRow>

  datatype TenantSchema = TenantSchema(
    physical: map<string, Table>,
    metaTables: map<string, string>,
    metaFields: FieldRows)

  datatype FieldMetadataEffect = UpsertField(slug: string, row: FieldRow) | RemoveField(slug: string)

  datatype FieldDefinition = FieldDefinition(name: string, dataType: FieldDataType, required: bool)

  function FieldNames(fields: seq<FieldDefinition>): set<string> {
    set f | f in fields :: f.name
  }

  datatype CreateTableJob = CreateTableJob(tableId: string, tableName: string, fields: seq<FieldDefinition>)

  datatype FieldEditJob = FieldEditJob(
    tableId: string, tableName: string, steps: seq<FieldEditStep>, effects: seq<FieldMetadataEffect>)

  function EffectOf(e: FieldEdit): FieldMetadataEffect {
    match e
    case Add(c, dataType, required) => UpsertField(c, FieldRow(dataType, required, None))
    case AddRelation(c, _, targetId, required) => UpsertField(c, FieldRow(RELATION, required, Some(targetId)))
    case Remove(c) => RemoveField(c)
    case Modify(c, dataType, required) => UpsertField(c, FieldRow(dataType, required, None))
  }

  function EffectsOf(edits: seq<FieldEdit>): seq<FieldMetadataEffect> {
    seq(|edits|, i requires 0 <= i < |edits| => EffectOf(edits[i]))
  }

  function JobOf(tableId: string, tableName: string, edits: seq<FieldEdit>): FieldEditJob {
    FieldEditJob(tableId, tableName, CompileAll(edits), EffectsOf(edits))
  }

  function ApplyEffect(rows: FieldRows, tableId: string, effect: FieldMetadataEffect): FieldRows {
    match effect
    case UpsertField(slug, row) => rows[(tableId, slug) := row]
    case RemoveField(slug) => rows - {(tableId, slug)}
  }

  function ApplyEffects(rows: FieldRows, tableId: string, effects: seq<FieldMetadataEffect>): FieldRows
    decreases |effects|
  {
    if effects == [] then rows
    else ApplyEffects(ApplyEffect(rows, tableId, effects[0]), tableId, effects[1..])
  }

  // ----- create-table ---------------------------------------------------

  function SystemColumns(): map<string, Column> {
    map["id" := Column(Integer, true, []),
        "owner_user_id" := Column(Varchar, true, []),
        "created_at" := Column(Timestamp, true, []),
        "updated_at" := Column(Timestamp, true, [])]
  }

  function FieldColumns(fields: seq<FieldDefinition>): map<string, Column> {
    if fields == [] then map[]
    else
      var last := fields[|fields| - 1];
      FieldColumns(fields[..|fields| - 1])[last.name := Column(ColumnTypeOf(last.dataType), last.required, [])]
  }

  /** CREATE TABLE is rejected for a repeated or system column name, and for a relation field. */
  predicate Creatable(fields: seq<FieldDefinition>) {
    && (forall i | 0 <= i < |fields| :: fields[i].name !in SYSTEM_COLUMNS && fields[i].dataType != RELATION)
    && (forall i, j | 0 <= i < j < |fields| :: fields[i].name != fields[j].name)
  }

  function UpsertFields(rows: FieldRows, tableId: string, fields: seq<FieldDefinition>): FieldRows {
    if fields == [] then rows
    else
      var last := fields[|fields| - 1];
      UpsertFields(rows, tableId, fields[..|fields| - 1])[(tableId, last.name) := RowFrom(last)]
  }

  /** The single transaction of a create-table job; `None` is a rollback. */
  function CreateTable(s: TenantSchema, job: CreateTableJob): Option<TenantSchema> {
    if job.tableName !in s.physical && !Creatable(job.fields) then None
    else if exists id | id in s.metaTables :: id != job.tableId && s.metaTables[id] == job.tableName then None
    else
      var physical :=
        if job.tableName in s.physical then s.physical
        else s.physical[job.tableName := Table(0, FieldColumns(job.fields) + SystemColumns())];
      Some(TenantSchema(physical, s.metaTables[job.tableId := job.tableName],
                        UpsertFields(s.metaFields, job.tableId, job.fields)))
  }

  // ----- field-edit -----------------------------------------------------

  /** The run of a field-edit job that reaches the metadata transaction; `None` if a step fails. */
  function EditTable(cast: Caster, s: TenantSchema, job: FieldEditJob): Option<TenantSchema>
    requires job.tableName in s.physical
  {
    var p := Run(Server(cast, s.physical.Keys), s.physical[job.tableName], job.steps);
    if p.committed < |job.steps| then None
    else Some(TenantSchema(s.physical[job.tableName := p.table], s.metaTables,
                           ApplyEffects(s.metaFields, job.tableId, job.effects)))
  }

  /** The tenant schema after attempts of a job that died before its metadata transaction. */
  function EditAttempts(cast: Caster, s: TenantSchema, job: FieldEditJob, prefixes: seq<nat>): TenantSchema
    requires job.tableName in s.physical
  {
    s.(physical := s.physical[job.tableName :=
      AfterAttempts(Server(cast, s.physical.Keys), s.physical[job.tableName], job.steps, prefixes)])
  }

  // ----- agreement ------------------------------------------------------

  /** Recorded slugs are exactly the user columns, and each column has the type its data type compiles to. */
  ghost predicate TableAgrees(t: Table, rows: FieldRows, tableId: string) {
    && (forall c :: (tableId, c) in rows <==> c in t.cols && c !in SYSTEM_COLUMNS)
    && (forall c :: (tableId, c) in rows && c in t.cols ==> t.cols[c].ty == ColumnTypeOf(rows[(tableId, c)].dataType))
  }

  ghost predicate Agrees(s: TenantSchema) {
    && (forall id | id in s.metaTables ::
          s.metaTables[id] in s.physical && TableAgrees(s.physical[s.metaTables[id]], s.metaFields, id))
    && (forall id, id' | id in s.metaTables && id' in s.metaTables ::
          s.metaTables[id] == s.metaTables[id'] ==> id == id')
    && (forall key | key in s.metaFields :: key.0 in s.metaTables)
  }

  /** An edit that keeps agreement: an added name is new or has the right type, a system column is at most removed. */
  predicate SafeEdit(t: Table, e: FieldEdit) {
    && (e.name in SYSTEM_COLUMNS ==> e.Remove?)
    && (e.Add? && e.name in t.cols ==> t.cols[e.name].ty == ColumnTypeOf(e.dataType))
    && (e.AddRelation? && e.name in t.cols ==> t.cols[e.name].ty == Integer)
  }

  predicate DistinctNames(edits: seq<FieldEdit>) {
    forall i, j | 0 <= i < j < |edits| :: edits[i].name != edits[j].name
  }

  lemma {:induction false} ColumnsAfter(server: Server, t: Table, edits: seq<FieldEdit>)
    requires DistinctNames(edits) && ApplyAll(server, t, edits).Some?
    ensures var u := ApplyAll(server, t, edits).value;
            && u.rows == t.rows
            && (forall e | e in edits :: Possible(server, t, e) && Look(u, e.name) == Settled(FinalColumn(server, t, e)))
            && (forall c | (forall e | e in edits :: e.name != c) :: Look(u, c) == Look(t, c))
    decreases |edits|
  {
    if edits != [] {
      var e0, rest := edits[0], edits[1..];
      var t1 := WithColumn(t, e0.name, Settled(FinalColumn(server, t, e0)));
      ColumnsAfter(server, t1, rest);
      var u := ApplyAll(server, t, edits).value;
      forall e | e in rest
        ensures e.name != e0.name && FinalColumn(server, t1, e) == FinalColumn(server, t, e)
      {
        assert Look(t1, e.name) == Look(t, e.name);
      }
      assert forall e | e in edits :: e == e0 || e in rest;
      assert Look(u, e0.name) == Look(t1, e0.name);
      forall c | forall e | e in edits :: e.name != c
        ensures Look(u, c) == Look(t, c)
      {
        assert e0 in edits;
        assert forall e | e in rest :: e in edits;
        assert Look(t1, c) == Look(t, c);
      }
    }
  }

  function RowOf(rows: FieldRows, tableId: string, slug: string): Option<FieldRow> {
    if (tableId, slug) in rows then Some(rows[(tableId, slug)]) else None
  }

  lemma {:induction false} RowKept(rows: FieldRows, tableId: string, edits: seq<FieldEdit>, id: string, c: string)
    requires id != tableId || forall e | e in edits :: e.name != c
    ensures RowOf(ApplyEffects(rows, tableId, EffectsOf(edits)), id, c) == RowOf(rows, id, c)
    decreases |edits|
  {
    if edits != [] {
      assert EffectsOf(edits)[1..] == EffectsOf(edits[1..]);
      assert edits[0] in edits && EffectOf(edits[0]).slug == edits[0].name;
      RowKept(ApplyEffect(rows, tableId, EffectOf(edits[0])), tableId, edits[1..], id, c);
    }
  }

  lemma {:induction false} RowSet(rows: FieldRows, tableId: string, edits: seq<FieldEdit>, i: nat)
    requires DistinctNames(edits) && i < |edits|
    ensures RowOf(ApplyEffects(rows, tableId, EffectsOf(edits)), tableId, edits[i].name) ==
            if edits[i].Remove? then None else Some(EffectOf(edits[i]).row)
    decreases |edits|
  {
    var rest := edits[1..];
    assert EffectsOf(edits)[1..] == EffectsOf(rest);
    var rows1 := ApplyEffect(rows, tableId, EffectOf(edits[0]));
    if i == 0 {
      forall e | e in rest
        ensures e.name != edits[0].name
      {
        var k :| 0 <= k < |rest| && rest[k] == e;
        assert edits[k + 1] == e;
      }
      RowKept(rows1, tableId, rest, tableId, edits[0].name);
    } else {
      RowSet(rows1, tableId, rest, i - 1);
    }
  }

  lemma RowsAfter(rows: FieldRows, tableId: string, edits: seq<FieldEdit>)
    requires DistinctNames(edits)
    ensures var after := ApplyEffects(rows, tableId, EffectsOf(edits));
            && (forall e | e in edits ::
                  RowOf(after, tableId, e.name) == if e.Remove? then None else Some(EffectOf(e).row))
            && (forall c | (forall e | e in edits :: e.name != c) ::
                  RowOf(after, tableId, c) == RowOf(rows, tableId, c))
            && (forall id, c | id != tableId :: RowOf(after, id, c) == RowOf(rows, id, c))
  {
    var after := ApplyEffects(rows, tableId, EffectsOf(edits));
    forall e | e in edits
      ensures RowOf(after, tableId, e.name) == if e.Remove? then None else Some(EffectOf(e).row)
    {
      var i :| 0 <= i < |edits| && edits[i] == e;
      RowSet(rows, tableId, edits, i);
    }
    forall id, c | id != tableId || forall e | e in edits :: e.name != c {
      RowKept(rows, tableId, edits, id, c);
    }
  }

  /**
   * A completed field-edit job keeps metadata and table in agreement exactly
   * when each of its edits was safe for the table it was admitted against.
   */
  lemma EditKeepsAgreementIff(cast: Caster, s: TenantSchema, tableId: string, edits: seq<FieldEdit>)
    requires CastsToSelf(cast) && Agrees(s) && tableId in s.metaTables
    requires WellFormedJob(s.physical[s.metaTables[tableId]], edits)
    requires EditTable(cast, s, JobOf(tableId, s.metaTables[tableId], edits)).Some?
    ensures Agrees(EditTable(cast, s, JobOf(tableId, s.metaTables[tableId], edits)).value) <==>
            forall e | e in edits :: SafeEdit(s.physical[s.metaTables[tableId]], e)
  {
    var server, name := Server(cast, s.physical.Keys), s.metaTables[tableId];
    var t := s.physical[name];
    var s' := EditTable(cast, s, JobOf(tableId, name, edits)).value;
    WellFormedIsIndependent(t, edits);
    CompiledJobMeansInPlaceEdits(server, t, edits);
    ColumnsAfter(server, t, edits);
    RowsAfter(s.metaFields, tableId, edits);
    OneTableChanged(s, s', tableId);
    EditedTableAgreesIff(server, s, tableId, edits, s'.physical[name], s'.metaFields);
  }

  /** Changing one table and its own rows leaves only that table's agreement to check. */
  lemma OneTableChanged(s: TenantSchema, s': TenantSchema, tableId: string)
    requires Agrees(s) && tableId in s.metaTables
    requires s'.metaTables == s.metaTables
    requires s.metaTables[tableId] in s'.physical
    requires s'.physical == s.physical[s.metaTables[tableId] := s'.physical[s.metaTables[tableId]]]
    requires forall id, c | id != tableId :: RowOf(s'.metaFields, id, c) == RowOf(s.metaFields, id, c)
    ensures Agrees(s') <==> TableAgrees(s'.physical[s.metaTables[tableId]], s'.metaFields, tableId)
  {
    forall id | id in s.metaTables && id != tableId
      ensures s.metaTables[id] in s'.physical
      ensures TableAgrees(s'.physical[s.metaTables[id]], s'.metaFields, id)
    {
      OtherTableAgrees(s.physical[s.metaTables[id]], s.metaFields, s'.metaFields, id);
    }
    forall key | key in s'.metaFields
      ensures key.0 in s'.metaTables
    {
      if key.0 != tableId {
        assert RowOf(s.metaFields, key.0, key.1) == RowOf(s'.metaFields, key.0, key.1);
        assert key == (key.0, key.1);
        assert key in s.metaFields;
      }
    }
  }

  lemma OtherTableAgrees(t: Table, rows: FieldRows, rows': FieldRows, id: string)
    requires TableAgrees(t, rows, id)
    requires forall c :: RowOf(rows', id, c) == RowOf(rows, id, c)
    ensures TableAgrees(t, rows', id)
  {
    forall c
      ensures (id, c) in rows' <==> (id, c) in rows
      ensures (id, c) in rows' ==> rows'[(id, c)] == rows[(id, c)]
    {
      assert RowOf(rows', id, c) == RowOf(rows, id, c);
    }
  }

  /** One column of an edited table and its row. */
  predicate ColumnAgrees(col: Option<Column>, row: Option<FieldRow>, c: string) {
    && (row.Some? <==> col.Some? && c !in SYSTEM_COLUMNS)
    && (row.Some? && col.Some? ==> col.value.ty == ColumnTypeOf(row.value.dataType))
  }

  lemma TableAgreesByColumn(t: Table, rows: FieldRows, id: string)
    ensures TableAgrees(t, rows, id) <==> forall c :: ColumnAgrees(Look(t, c), RowOf(rows, id, c), c)
  {
    if TableAgrees(t, rows, id) {
      forall c
        ensures ColumnAgrees(Look(t, c), RowOf(rows, id, c), c)
      {
        assert (id, c) in rows <==> c in t.cols && c !in SYSTEM_COLUMNS;
      }
    }
    if forall c :: ColumnAgrees(Look(t, c), RowOf(rows, id, c), c) {
      forall c
        ensures (id, c) in rows <==> c in t.cols && c !in SYSTEM_COLUMNS
        ensures (id, c) in rows && c in t.cols ==> t.cols[c].ty == ColumnTypeOf(rows[(id, c)].dataType)
      {
        assert ColumnAgrees(Look(t, c), RowOf(rows, id, c), c);
      }
    }
  }

  lemma EditedTableAgreesIff(server: Server, s: TenantSchema, tableId: string, edits: seq<FieldEdit>, u: Table, rows: FieldRows)
    requires Agrees(s) && tableId in s.metaTables
    requires DistinctNames(edits)
    requires var t := s.physical[s.metaTables[tableId]];
             && (forall e | e in edits :: Possible(server, t, e) && Look(u, e.name) == Settled(FinalColumn(server, t, e)))
             && (forall c | (forall e | e in edits :: e.name != c) :: Look(u, c) == Look(t, c))
    requires forall e | e in edits ::
               RowOf(rows, tableId, e.name) == if e.Remove? then None else Some(EffectOf(e).row)
    requires forall c | (forall e | e in edits :: e.name != c) ::
               RowOf(rows, tableId, c) == RowOf(s.metaFields, tableId, c)
    ensures TableAgrees(u, rows, tableId) <==>
            forall e | e in edits :: SafeEdit(s.physical[s.metaTables[tableId]], e)
  {
    var t := s.physical[s.metaTables[tableId]];
    TableAgreesByColumn(u, rows, tableId);
    TableAgreesByColumn(t, s.metaFields, tableId);
    forall e | e in edits
      ensures ColumnAgrees(Look(u, e.name), RowOf(rows, tableId, e.name), e.name) <==> SafeEdit(t, e)
    {
      EditedColumnAgreesIff(server, t, e);
    }
    hide SafeEdit, FinalColumn, EffectOf, TableAgrees, Agrees;
    forall c | forall e | e in edits :: e.name != c
      ensures ColumnAgrees(Look(u, c), RowOf(rows, tableId, c), c)
    {
      assert ColumnAgrees(Look(t, c), RowOf(s.metaFields, tableId, c), c);
    }
  }

  /** The column an edit leaves and the row it records agree exactly when the edit is safe. */
  lemma EditedColumnAgreesIff(server: Server, t: Table, e: FieldEdit)
    requires Possible(server, t, e)
    ensures ColumnAgrees(Settled(FinalColumn(server, t, e)), if e.Remove? then None else Some(EffectOf(e).row), e.name) <==>
            SafeEdit(t, e)
  {
  }

  // ----- create-table agreement -----------------------------------------

  /** The last definition of a field name, which is the one its metadata row keeps. */
  function Definition(fields: seq<FieldDefinition>, c: string): Option<FieldDefinition> {
    if fields == [] then None
    else if fields[|fields| - 1].name == c then Some(fields[|fields| - 1])
    else Definition(fields[..|fields| - 1], c)
  }

  function RowFrom(f: FieldDefinition): FieldRow {
    FieldRow(f.dataType, f.required, None)
  }

  /** A table that already has the user columns a create-table request describes. */
  ghost predicate AlreadyShaped(t: Table, fields: seq<FieldDefinition>) {
    forall c ::
      && (Definition(fields, c).Some? <==> c in t.cols && c !in SYSTEM_COLUMNS)
      && (Definition(fields, c).Some? && c in t.cols ==>
            t.cols[c].ty == ColumnTypeOf(Definition(fields, c).value.dataType))
  }

  lemma {:induction false} DefinedColumns(fields: seq<FieldDefinition>, c: string)
    ensures c in FieldColumns(fields) <==> Definition(fields, c).Some?
    ensures c in FieldColumns(fields) ==> FieldColumns(fields)[c].ty == ColumnTypeOf(Definition(fields, c).value.dataType)
    ensures c in FieldColumns(fields) ==> exists f :: f in fields && f.name == c
  {
    if fields != [] {
      DefinedColumns(fields[..|fields| - 1], c);
      assert fields[|fields| - 1] in fields;
    }
  }

  lemma {:induction false} DefinedRows(rows: FieldRows, tableId: string, fields: seq<FieldDefinition>, id: string, c: string)
    ensures var row := RowOf(UpsertFields(rows, tableId, fields), id, c);
            if id == tableId && Definition(fields, c).Some?
            then row == Some(RowFrom(Definition(fields, c).value))
            else row == RowOf(rows, id, c)
  {
    if fields != [] {
      DefinedRows(rows, tableId, fields[..|fields| - 1], id, c);
    }
  }

  lemma NewTableShaped(fields: seq<FieldDefinition>)
    requires Creatable(fields)
    ensures AlreadyShaped(Table(0, FieldColumns(fields) + SystemColumns()), fields)
  {
    forall c
      ensures Definition(fields, c).Some? ==> c !in SYSTEM_COLUMNS
    {
      DefinedColumns(fields, c);
    }
    forall c {
      DefinedColumns(fields, c);
    }
  }

  /**
   * A create-table job under a fresh table id agrees afterwards exactly when
   * the physical name was free or already had the requested shape; the worker
   * skips CREATE TABLE for an existing name but writes the metadata anyway.
   */
  lemma CreateKeepsAgreementIff(s: TenantSchema, job: CreateTableJob)
    requires Agrees(s) && job.tableId !in s.metaTables && CreateTable(s, job).Some?
    ensures Agrees(CreateTable(s, job).value) <==>
            (job.tableName in s.physical ==> AlreadyShaped(s.physical[job.tableName], job.fields))
  {
    var s' := CreateTable(s, job).value;
    if job.tableName !in s.physical {
      NewTableShaped(job.fields);
    }
    forall id, c {
      DefinedRows(s.metaFields, job.tableId, job.fields, id, c);
    }
    forall c
      ensures RowOf(s.metaFields, job.tableId, c) == None
    {
      assert (job.tableId, c) !in s.metaFields;
    }
    OneTableAdded(s, s', job.tableId);
    CreatedTableAgreesIff(s'.physical[job.tableName], s'.metaFields, job);
  }

  /** Registering one more table leaves only its own agreement to check. */
  lemma OneTableAdded(s: TenantSchema, s': TenantSchema, tableId: string)
    requires Agrees(s) && tableId !in s.metaTables && tableId in s'.metaTables
    requires s'.metaTables == s.metaTables[tableId := s'.metaTables[tableId]]
    requires forall id | id in s.metaTables :: s.metaTables[id] != s'.metaTables[tableId]
    requires s'.metaTables[tableId] in s'.physical
    requires forall name | name in s.physical :: name in s'.physical && s'.physical[name] == s.physical[name]
    requires forall id, c | id != tableId :: RowOf(s'.metaFields, id, c) == RowOf(s.metaFields, id, c)
    ensures Agrees(s') <==> TableAgrees(s'.physical[s'.metaTables[tableId]], s'.metaFields, tableId)
  {
    forall id | id in s.metaTables
      ensures s.metaTables[id] in s'.physical
      ensures TableAgrees(s'.physical[s.metaTables[id]], s'.metaFields, id)
    {
      OtherTableAgrees(s.physical[s.metaTables[id]], s.metaFields, s'.metaFields, id);
    }
    forall key | key in s'.metaFields
      ensures key.0 in s'.metaTables
    {
      if key.0 != tableId {
        assert RowOf(s'.metaFields, key.0, key.1) == RowOf(s.metaFields, key.0, key.1);
        assert key == (key.0, key.1);
        assert key in s.metaFields;
      }
    }
  }

  lemma CreatedTableAgreesIff(t: Table, rows: FieldRows, job: CreateTableJob)
    requires forall c :: RowOf(rows, job.tableId, c) ==
               match Definition(job.fields, c) case Some(f) => Some(RowFrom(f)) case None => None
    ensures TableAgrees(t, rows, job.tableId) <==> AlreadyShaped(t, job.fields)
  {
    TableAgreesByColumn(t, rows, job.tableId);
    if forall c :: ColumnAgrees(Look(t, c), RowOf(rows, job.tableId, c), c) {
      forall c
        ensures Definition(job.fields, c).Some? <==> c in t.cols && c !in SYSTEM_COLUMNS
        ensures Definition(job.fields, c).Some? && c in t.cols ==>
                  t.cols[c].ty == ColumnTypeOf(Definition(job.fields, c).value.dataType)
      {
        assert ColumnAgrees(Look(t, c), RowOf(rows, job.tableId, c), c);
      }
    }
  }

  /** Every field of the job is still recorded, with a type that compiles to the same column. */
  ghost predicate StillRecorded(rows: FieldRows, job: CreateTableJob) {
    forall c :: Definition(job.fields, c).Some? ==>
      var row := RowOf(rows, job.tableId, c);
      row.Some? && ColumnTypeOf(row.value.dataType) == ColumnTypeOf(Definition(job.fields, c).value.dataType)
  }

  /**
   * A create-table job that runs again, however many jobs of its table came
   * between, keeps agreement exactly when its fields are still recorded with
   * the same column types: it skips CREATE TABLE and writes all its field rows.
   */
  lemma RerunKeepsAgreementIff(s: TenantSchema, job: CreateTableJob)
    requires Agrees(s) && job.tableId in s.metaTables && s.metaTables[job.tableId] == job.tableName
    ensures CreateTable(s, job).Some?
    ensures Agrees(CreateTable(s, job).value) <==> StillRecorded(s.metaFields, job)
  {
    var s' := CreateTable(s, job).value;
    var t := s.physical[job.tableName];
    assert s.metaTables[job.tableId := job.tableName] == s.metaTables;
    assert s.physical[job.tableName := t] == s.physical;
    forall id, c {
      DefinedRows(s.metaFields, job.tableId, job.fields, id, c);
    }
    OneTableChanged(s, s', job.tableId);
    hide CreateTable, Agrees, TableAgrees;
    TableAgreesByColumn(t, s'.metaFields, job.tableId);
    assert TableAgrees(t, s.metaFields, job.tableId) by {
      AgreesFor(s, job.tableId);
    }
    TableAgreesByColumn(t, s.metaFields, job.tableId);
    forall c
      ensures ColumnAgrees(Look(t, c), RowOf(s'.metaFields, job.tableId, c), c) <==>
              (Definition(job.fields, c).Some? ==>
                 var row := RowOf(s.metaFields, job.tableId, c);
                 row.Some? && ColumnTypeOf(row.value.dataType) == ColumnTypeOf(Definition(job.fields, c).value.dataType))
    {
      assert ColumnAgrees(Look(t, c), RowOf(s.metaFields, job.tableId, c), c);
    }
  }

  lemma AgreesFor(s: TenantSchema, tableId: string)
    requires Agrees(s) && tableId in s.metaTables
    ensures s.metaTables[tableId] in s.physical && TableAgrees(s.physical[s.metaTables[tableId]], s.metaFields, tableId)
  {
  }

  /** A create-table job retried at once after it committed changes nothing. */
  lemma CreateIsIdempotent(s: TenantSchema, job: CreateTableJob)
    requires CreateTable(s, job).Some?
    ensures CreateTable(CreateTable(s, job).value, job) == CreateTable(s, job)
  {
    var s1 := CreateTable(s, job).value;
    UpsertTwice(s.metaFields, job.tableId, job.fields);
    assert s1.metaTables[job.tableId := job.tableName] == s1.metaTables;
  }

  lemma UpsertTwice(rows: FieldRows, tableId: string, fields: seq<FieldDefinition>)
    ensures UpsertFields(UpsertFields(rows, tableId, fields), tableId, fields) == UpsertFields(rows, tableId, fields)
  {
    var once := UpsertFields(rows, tableId, fields);
    var twice := UpsertFields(once, tableId, fields);
    forall key: (string, string)
      ensures key in twice <==> key in once
      ensures key in twice ==> twice[key] == once[key]
    {
      DefinedRows(rows, tableId, fields, key.0, key.1);
      DefinedRows(once, tableId, fields, key.0, key.1);
      assert key == (key.0, key.1);
      assert RowOf(twice, key.0, key.1) == RowOf(once, key.0, key.1);
    }
    assert twice == once;
  }

  // ----- histories ------------------------------------------------------

  /** A completed job, with the crashes it survived on the way. */
  datatype CompletedJob =
    | Created(create: CreateTableJob)
    | Edited(tableId: string, edits: seq<FieldEdit>, prefixes: seq<nat>)

  /** The effect of a job from admission to completion; `None` if it does not complete. */
  function Perform(cast: Caster, s: TenantSchema, job: CompletedJob): Option<TenantSchema> {
    match job
    case Created(create) => CreateTable(s, create)
    case Edited(id, edits, prefixes) =>
      if id !in s.metaTables || s.metaTables[id] !in s.physical then None
      else
        var j := JobOf(id, s.metaTables[id], edits);
        EditTable(cast, EditAttempts(cast, s, j, prefixes), j)
  }

  /** A create-table job is fresh or runs again for its own table; a field-edit job is well formed. */
  ghost predicate AdmissibleJob(s: TenantSchema, job: CompletedJob) {
    match job
    case Created(create) => create.tableId in s.metaTables ==> s.metaTables[create.tableId] == create.tableName
    case Edited(id, edits, _) =>
      id in s.metaTables && s.metaTables[id] in s.physical && WellFormedJob(s.physical[s.metaTables[id]], edits)
  }

  /** What a caller can check about a job before it commits. */
  ghost predicate HarmlessJob(s: TenantSchema, job: CompletedJob)
    requires AdmissibleJob(s, job)
  {
    match job
    case Created(create) =>
      if create.tableId in s.metaTables then StillRecorded(s.metaFields, create)
      else create.tableName in s.physical ==> AlreadyShaped(s.physical[create.tableName], create.fields)
    case Edited(id, edits, _) => forall e | e in edits :: SafeEdit(s.physical[s.metaTables[id]], e)
  }

  ghost predicate SafeJob(s: TenantSchema, job: CompletedJob) {
    AdmissibleJob(s, job) && HarmlessJob(s, job)
  }

  /** Crashes on the way do not change what a completed field-edit job does. */
  lemma AttemptsDoNotMatter(cast: Caster, s: TenantSchema, job: CompletedJob)
    requires CastsToSelf(cast) && job.Edited? && AdmissibleJob(s, job)
    ensures Perform(cast, s, job) == EditTable(cast, s, JobOf(job.tableId, s.metaTables[job.tableId], job.edits))
  {
    var name := s.metaTables[job.tableId];
    var j := JobOf(job.tableId, name, job.edits);
    var t := s.physical[name];
    RetryConverges(Server(cast, s.physical.Keys), t, job.edits, job.prefixes);
    var s1 := EditAttempts(cast, s, j, job.prefixes);
    assert s1.physical.Keys == s.physical.Keys;
    var p := Run(Server(cast, s.physical.Keys), t, j.steps);
    assert s1.physical[name := p.table] == s.physical[name := p.table];
  }

  lemma JobKeepsAgreementIff(cast: Caster, s: TenantSchema, job: CompletedJob)
    requires CastsToSelf(cast) && Agrees(s) && AdmissibleJob(s, job) && Perform(cast, s, job).Some?
    ensures Agrees(Perform(cast, s, job).value) <==> HarmlessJob(s, job)
  {
    match job
    case Created(create) =>
      if create.tableId in s.metaTables {
        RerunKeepsAgreementIff(s, create);
      } else {
        CreateKeepsAgreementIff(s, create);
      }
    case Edited(id, edits, _) =>
      AttemptsDoNotMatter(cast, s, job);
      EditKeepsAgreementIff(cast, s, id, edits);
  }

  /** Every job of the history is admissible where it runs, and completes. */
  ghost predicate CompletedHistory(cast: Caster, s: TenantSchema, jobs: seq<CompletedJob>)
    decreases |jobs|
  {
    jobs == [] ||
    (AdmissibleJob(s, jobs[0]) && Perform(cast, s, jobs[0]).Some? &&
     CompletedHistory(cast, Perform(cast, s, jobs[0]).value, jobs[1..]))
  }

  ghost predicate HarmlessHistory(cast: Caster, s: TenantSchema, jobs: seq<CompletedJob>)
    requires CompletedHistory(cast, s, jobs)
    decreases |jobs|
  {
    jobs == [] || (HarmlessJob(s, jobs[0]) && HarmlessHistory(cast, Perform(cast, s, jobs[0]).value, jobs[1..]))
  }

  ghost predicate AgreesThroughout(cast: Caster, s: TenantSchema, jobs: seq<CompletedJob>)
    requires CompletedHistory(cast, s, jobs)
    decreases |jobs|
  {
    Agrees(s) && (jobs == [] || AgreesThroughout(cast, Perform(cast, s, jobs[0]).value, jobs[1..]))
  }

  /**
   * Over every history of completed jobs, first runs, re-runs of create-table
   * jobs and field edits with any crashes: metadata and tables agree after each
   * job if and only if each job was harmless where it ran.
   */
  lemma {:induction false} HistoryAgreesIff(cast: Caster, s: TenantSchema, jobs: seq<CompletedJob>)
    requires CastsToSelf(cast) && Agrees(s) && CompletedHistory(cast, s, jobs)
    ensures AgreesThroughout(cast, s, jobs) <==> HarmlessHistory(cast, s, jobs)
    decreases |jobs|
  {
    hide Agrees, HarmlessJob, AdmissibleJob, Perform;
    if jobs != [] {
      var s' := Perform(cast, s, jobs[0]).value;
      JobKeepsAgreementIff(cast, s, jobs[0]);
      if Agrees(s') {
        HistoryAgreesIff(cast, s', jobs[1..]);
      }
    }
  }

  ghost function After(cast: Caster, s: TenantSchema, jobs: seq<CompletedJob>): TenantSchema
    requires CompletedHistory(cast, s, jobs)
    decreases |jobs|
  {
    if jobs == [] then s else After(cast, Perform(cast, s, jobs[0]).value, jobs[1..])
  }

  /** Metadata and tables agree after every history of harmless jobs, whatever crashed and was retried in between. */
  lemma {:induction false} HistoryKeepsAgreement(cast: Caster, s: TenantSchema, jobs: seq<CompletedJob>)
    requires CastsToSelf(cast) && Agrees(s) && CompletedHistory(cast, s, jobs) && HarmlessHistory(cast, s, jobs)
    ensures Agrees(After(cast, s, jobs))
    decreases |jobs|
  {
    hide Agrees, HarmlessJob, AdmissibleJob, Perform;
    if jobs != [] {
      JobKeepsAgreementIff(cast, s, jobs[0]);
      HistoryKeepsAgreement(cast, Perform(cast, s, jobs[0]).value, jobs[1..]);
    }
  }

  /**
   * The failing input: create a table, remove a field, and let the create-table
   * job, which had committed but was not recorded as done, run again. All three
   * complete, and the dropped column is back in the metadata.
   */
  lemma RerunAfterRemoveDisagrees(cast: Caster, s: TenantSchema, create: CreateTableJob, f: FieldDefinition)
    requires Agrees(s) && create.tableId !in s.metaTables && create.tableName !in s.physical
    requires create.fields == [f] && Creatable(create.fields)
    requires forall id | id in s.metaTables :: s.metaTables[id] != create.tableName
    ensures var jobs := [Created(create), Edited(create.tableId, [Remove(f.name)], []), Created(create)];
            && CompletedHistory(cast, s, jobs)
            && (create.tableId, f.name) in After(cast, s, jobs).metaFields
            && create.tableName in After(cast, s, jobs).physical
            && f.name !in After(cast, s, jobs).physical[create.tableName].cols
            && !Agrees(After(cast, s, jobs))
  {
    var job := Edited(create.tableId, [Remove(f.name)], []);
    var s1 := CreateTable(s, create).value;
    RemoveAlone(cast, s1, create.tableId, f.name);
    var s2 := Perform(cast, s1, job).value;
    RerunRevives(s2, create, f);
    ThreeJobs(cast, s, Created(create), job, Created(create));
    hide RowOf, FieldColumns, UpsertFields, Agrees;
  }

  lemma RerunRevives(s: TenantSchema, create: CreateTableJob, f: FieldDefinition)
    requires create.fields == [f] && create.tableId in s.metaTables && s.metaTables[create.tableId] == create.tableName
    requires create.tableName in s.physical && f.name !in s.physical[create.tableName].cols
    requires forall id | id in s.metaTables && id != create.tableId :: s.metaTables[id] != create.tableName
    ensures CreateTable(s, create).Some?
    ensures var s' := CreateTable(s, create).value;
            && (create.tableId, f.name) in s'.metaFields && s'.physical == s.physical && s'.metaTables == s.metaTables
            && !Agrees(s')
  {
    var s' := CreateTable(s, create).value;
    assert create.fields[..|create.fields| - 1] == [];
    assert s.metaTables[create.tableId := create.tableName] == s.metaTables;
    assert !TableAgrees(s.physical[create.tableName], s'.metaFields, create.tableId);
  }

  lemma RemoveAlone(cast: Caster, s: TenantSchema, id: string, c: string)
    requires id in s.metaTables && s.metaTables[id] in s.physical
    ensures var t := s.physical[s.metaTables[id]];
            Perform(cast, s, Edited(id, [Remove(c)], [])) ==
            Some(TenantSchema(s.physical[s.metaTables[id] := WithColumn(t, c, None)], s.metaTables, s.metaFields - {(id, c)}))
    ensures AdmissibleJob(s, Edited(id, [Remove(c)], []))
    ensures c !in WithColumn(s.physical[s.metaTables[id]], c, None).cols
  {
    var name := s.metaTables[id];
    var j := JobOf(id, name, [Remove(c)]);
    var e := Remove(c);
    assert [e][1..] == [] && CompileAll([e]) == Compile(e) + CompileAll([]);
    assert j.steps == [DropColumn(c)];
    assert EffectsOf([e])[0] == RemoveField(c);
    assert j.effects == [RemoveField(c)];
    var t := s.physical[name];
    var t' := WithColumn(t, c, None);
    assert Look(t', c) == None;
    var server := Server(cast, s.physical.Keys);
    assert [DropColumn(c)][1..] == [] && [RemoveField(c)][1..] == [];
    assert Run(server, t', []) == Progress(t', 0);
    assert Run(server, t, [DropColumn(c)]) == Progress(t', 1);
    var s1 := EditAttempts(cast, s, j, []);
    assert s1.physical == s.physical;
    assert s1 == s;
    assert ApplyEffects(s.metaFields, id, [RemoveField(c)]) == s.metaFields - {(id, c)};
  }

  lemma ThreeJobs(cast: Caster, s: TenantSchema, a: CompletedJob, b: CompletedJob, c: CompletedJob)
    requires AdmissibleJob(s, a) && Perform(cast, s, a).Some?
    requires var s1 := Perform(cast, s, a).value; AdmissibleJob(s1, b) && Perform(cast, s1, b).Some?
    requires var s2 := Perform(cast, Perform(cast, s, a).value, b).value; AdmissibleJob(s2, c) && Perform(cast, s2, c).Some?
    ensures CompletedHistory(cast, s, [a, b, c])
    ensures After(cast, s, [a, b, c]) == Perform(cast, Perform(cast, Perform(cast, s, a).value, b).value, c).value
  {
    hide Perform, AdmissibleJob;
    assert [a, b, c][1..] == [b, c] && [b, c][1..] == [c] && [c][1..] == [];
    var s1 := Perform(cast, s, a).value;
    var s2 := Perform(cast, s1, b).value;
    assert CompletedHistory(cast, s2, [c]) && After(cast, s2, [c]) == Perform(cast, s2, c).value;
    assert CompletedHistory(cast, s1, [b, c]) && After(cast, s1, [b, c]) == After(cast, s2, [c]);
  }

  predicate Names(job: CompletedJob, c: string)
    requires job.Edited?
  {
    exists e | e in job.edits :: e.name == c
  }

  /** A completed job keeps the type and the cells of every column it does not name, in every table. */
  lemma UnnamedColumnsKept(cast: Caster, s: TenantSchema, job: CompletedJob)
    requires CastsToSelf(cast) && SafeJob(s, job) && Perform(cast, s, job).Some?
    ensures var s' := Perform(cast, s, job).value;
            forall name, c | name in s.physical ::
              && name in s'.physical
              && s'.physical[name].rows == s.physical[name].rows
              && (job.Created? || name != s.metaTables[job.tableId] || !Names(job, c) ==>
                    Look(s'.physical[name], c) == Look(s.physical[name], c))
  {
    if job.Edited? {
      AttemptsDoNotMatter(cast, s, job);
      var server, t := Server(cast, s.physical.Keys), s.physical[s.metaTables[job.tableId]];
      WellFormedIsIndependent(t, job.edits);
      CompiledJobMeansInPlaceEdits(server, t, job.edits);
      ColumnsAfter(server, t, job.edits);
    }
  }
}
