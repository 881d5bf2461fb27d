/**
 * A field-edit request from its arrival to the end of its job: which requests
 * are accepted, when their job completes, and what it then leaves, stated on
 * what was asked for.
 */
module FieldRequests {
  import opened Wrappers
  import opened PhysicalTable
  import opened FieldEdits
  import opened RetryConvergence
  import opened SchemaMetadata

  /** The recorded data type of the field an edit names, if there is such a field. */
  function CurrentType(s: TenantSchema, tableId: string, slug: string): Option<FieldDataType> {
    if (tableId, slug) in s.metaFields then Some(s.metaFields[(tableId, slug)].dataType) else None
  }

  /** The edits of a request, or the error of the first that is refused. */
  function ValidateAll(s: TenantSchema, tableId: string, dtos: seq<FieldEditDto>): Result<seq<FieldEdit>, ApiError> {
    if dtos == [] then Success([])
    else
      match Validate(dtos[0], s.metaTables, CurrentType(s, tableId, dtos[0].name))
      case Failure(e) => Failure(e)
      case Success(edit) =>
        match ValidateAll(s, tableId, dtos[1..])
        case Failure(e) => Failure(e)
        case Success(edits) => Success([edit] + edits)
  }

  lemma {:induction false} ValidateLast(s: TenantSchema, tableId: string, dtos: seq<FieldEditDto>, dto: FieldEditDto)
    ensures ValidateAll(s, tableId, dtos + [dto]) ==
            match ValidateAll(s, tableId, dtos)
            case Failure(e) => Failure(e)
            case Success(edits) =>
              match Validate(dto, s.metaTables, CurrentType(s, tableId, dto.name))
              case Failure(e) => Failure(e)
              case Success(edit) => Success(edits + [edit])
  {
    hide Validate;
    if dtos == [] {
      assert dtos + [dto] == [dto] && [dto][1..] == [];
      assert ValidateAll(s, tableId, [dto][1..]) == Success([]);
      assert forall e: FieldEdit :: [e] + [] == [] + [e];
    } else {
      assert (dtos + [dto])[1..] == dtos[1..] + [dto] && (dtos + [dto])[0] == dtos[0];
      ValidateLast(s, tableId, dtos[1..], dto);
      assert forall e: FieldEdit, es: seq<FieldEdit>, last: FieldEdit :: [e] + (es + [last]) == [e] + es + [last];
    }
  }

  lemma {:induction false} FailureIsFirst(s: TenantSchema, tableId: string, a: seq<FieldEditDto>, b: seq<FieldEditDto>)
    requires ValidateAll(s, tableId, a).Failure?
    ensures ValidateAll(s, tableId, a + b) == ValidateAll(s, tableId, a)
  {
    hide Validate;
    assert (a + b)[1..] == a[1..] + b;
    if Validate(a[0], s.metaTables, CurrentType(s, tableId, a[0].name)).Success? {
      FailureIsFirst(s, tableId, a[1..], b);
    }
  }

  lemma {:induction false} CompileLast(edits: seq<FieldEdit>, e: FieldEdit)
    ensures CompileAll(edits + [e]) == CompileAll(edits) + Compile(e)
    ensures EffectsOf(edits + [e]) == EffectsOf(edits) + [EffectOf(e)]
  {
    hide Compile;
    if edits == [] {
      assert [] + [e] == [e] && [e][1..] == [];
    } else {
      assert (edits + [e])[1..] == edits[1..] + [e];
      CompileLast(edits[1..], e);
    }
  }

  /** `enqueueFieldEdit` up to the job it enqueues: each edit adds its steps and its effect, the first refused one ends it. */
  method BuildJob(s: TenantSchema, tableId: string, dtos: seq<FieldEditDto>) returns (r: Result<FieldEditJob, ApiError>)
    ensures tableId !in s.metaTables ==> r == Failure(NotFound)
    ensures tableId in s.metaTables ==>
              r == match ValidateAll(s, tableId, dtos)
                   case Failure(e) => Failure(e)
                   case Success(edits) => Success(JobOf(tableId, s.metaTables[tableId], edits))
  {
    if tableId !in s.metaTables {
      return Failure(NotFound);
    }
    var steps: seq<FieldEditStep> := [];
    var effects: seq<FieldMetadataEffect> := [];
    ghost var edits: seq<FieldEdit> := [];
    for i := 0 to |dtos|
      invariant ValidateAll(s, tableId, dtos[..i]) == Success(edits)
      invariant steps == CompileAll(edits) && effects == EffectsOf(edits)
    {
      var dto := dtos[i];
      assert dtos[..i + 1] == dtos[..i] + [dto] && dtos[..i + 1] + dtos[i + 1..] == dtos;
      ValidateLast(s, tableId, dtos[..i], dto);
      var edit := Validate(dto, s.metaTables, CurrentType(s, tableId, dto.name));
      if edit.Failure? {
        FailureIsFirst(s, tableId, dtos[..i + 1], dtos[i + 1..]);
        return Failure(edit.error);
      }
      steps := steps + Compile(edit.value);
      effects := effects + [EffectOf(edit.value)];
      CompileLast(edits, edit.value);
      edits := edits + [edit.value];
    }
    assert dtos[..|dtos|] == dtos;
    r := Success(FieldEditJob(tableId, s.metaTables[tableId], steps, effects));
  }

  // ----- acceptance -----------------------------------------------------

  /**
   * A name the database takes without quotes and does not cut: 1 to 63
   * characters, ASCII letters (codes 65 to 90 and 97 to 122), digits (48 to 57),
   * underscores (95) and, like digits not in front, dollar signs (36).
   */
  predicate PlainName(name: string) {
    && 1 <= |name| <= 63
    && (forall i | 0 <= i < |name| ::
          var n := name[i] as int; 65 <= n <= 90 || 97 <= n <= 122 || 48 <= n <= 57 || n == 95 || n == 36)
    && !(48 <= name[0] as int <= 57) && name[0] as int != 36
  }

  lemma PlainNamesAreSafe(name: string)
    ensures PlainName(name) <==> IsSafeIdentifier(name)
  {
    assert 'A' as int == 65 && 'Z' as int == 90 && 'a' as int == 97 && 'z' as int == 122;
    assert '0' as int == 48 && '9' as int == 57 && '_' as int == 95 && '$' as int == 36;
    if PlainName(name) {
      forall i | 0 <= i < |name|
        ensures IsWordChar(name[i])
      {
      }
    }
    if IsSafeIdentifier(name) {
      forall i | 0 <= i < |name|
        ensures var n := name[i] as int; 65 <= n <= 90 || 97 <= n <= 122 || 48 <= n <= 57 || n == 95 || n == 36
      {
        assert IsWordChar(name[i]);
      }
    }
  }

  /** What a caller can see of an edit before sending it. */
  predicate Acceptable(s: TenantSchema, tableId: string, dto: FieldEditDto) {
    && PlainName(dto.name)
    && match dto.operation
       case RemoveOp => true
       case AddOp =>
         && dto.dataType.Some?
         && (dto.dataType == Some(RELATION) ==>
               dto.relatedTableId.Some? && dto.relatedTableId.value != "" && dto.relatedTableId.value in s.metaTables)
       case ModifyOp =>
         && dto.dataType.Some? && dto.dataType != Some(RELATION) && PlainName(dto.name + "__shadow")
         && ((tableId, dto.name) in s.metaFields ==> s.metaFields[(tableId, dto.name)].dataType != RELATION)
  }

  lemma AcceptedOneIff(s: TenantSchema, tableId: string, dto: FieldEditDto)
    ensures Validate(dto, s.metaTables, CurrentType(s, tableId, dto.name)).Success? <==> Acceptable(s, tableId, dto)
  {
    PlainNamesAreSafe(dto.name);
    PlainNamesAreSafe(dto.name + "__shadow");
    assert Shadow(dto.name) == dto.name + "__shadow";
    hide PlainName, IsSafeIdentifier, Shadow;
  }

  /** A request is accepted if and only if each of its edits is acceptable, and then has one edit for each. */
  lemma {:induction false} AcceptedIff(s: TenantSchema, tableId: string, dtos: seq<FieldEditDto>)
    ensures ValidateAll(s, tableId, dtos).Success? <==> forall d | d in dtos :: Acceptable(s, tableId, d)
    ensures ValidateAll(s, tableId, dtos).Success? ==>
              var edits := ValidateAll(s, tableId, dtos).value;
              && |edits| == |dtos|
              && forall i | 0 <= i < |dtos| ::
                   Validate(dtos[i], s.metaTables, CurrentType(s, tableId, dtos[i].name)) == Success(edits[i])
  {
    hide Validate, Acceptable;
    if dtos != [] {
      AcceptedIff(s, tableId, dtos[1..]);
      AcceptedOneIff(s, tableId, dtos[0]);
      assert forall d | d in dtos :: d == dtos[0] || d in dtos[1..];
    }
  }

  // ----- completion -----------------------------------------------------

  /** The edits name distinct fields, and no field and no column has the shadow name of a modified one. */
  predicate WellFormedRequest(t: Table, dtos: seq<FieldEditDto>) {
    && (forall i, j | 0 <= i < j < |dtos| :: dtos[i].name != dtos[j].name)
    && (forall d, d' | d in dtos && d' in dtos && d.operation == ModifyOp :: d.name + "__shadow" != d'.name)
    && (forall d | d in dtos && d.operation == ModifyOp :: d.name + "__shadow" !in t.cols)
  }

  /** The table allows the edit: nothing required is added to rows, the relation's table is there, every value converts. */
  predicate Feasible(cast: Caster, s: TenantSchema, t: Table, dto: FieldEditDto)
    requires dto.operation == RemoveOp || dto.dataType.Some?
  {
    match dto.operation
    case RemoveOp => true
    case AddOp =>
      dto.name in t.cols ||
      (&& (dto.required == Some(true) ==> t.rows == 0)
       && (dto.dataType == Some(RELATION) ==>
             dto.relatedTableId.Some? && dto.relatedTableId.value in s.metaTables
             && s.metaTables[dto.relatedTableId.value] in s.physical))
    case ModifyOp =>
      && dto.name in t.cols
      && var from, to := t.cols[dto.name], ColumnTypeOf(dto.dataType.value);
         && cast(from.ty, to, Null).Some?
         && forall i | 0 <= i < |from.cells| :: cast(from.ty, to, from.cells[i]).Some?
  }

  lemma {:induction false} CastsCellByCell(cast: Caster, from: PgType, to: PgType, cells: seq<Cell>)
    ensures CastCells(cast, from, to, cells).Some? <==> forall i | 0 <= i < |cells| :: cast(from, to, cells[i]).Some?
    ensures CastCells(cast, from, to, cells).Some? ==>
              var done := CastCells(cast, from, to, cells).value;
              |done| == |cells| && forall i | 0 <= i < |cells| :: cast(from, to, cells[i]) == Some(done[i])
  {
    if cells != [] {
      CastsCellByCell(cast, from, to, cells[1..]);
      assert forall i | 1 <= i < |cells| :: cells[i] == cells[1..][i - 1];
      assert forall i | 0 <= i < |cells[1..]| :: cells[1..][i] == cells[i + 1];
    }
  }

  /** Edits of distinct names can be applied one after the other if and only if each can be applied to the table as it was. */
  lemma {:induction false} ApplicableIff(server: Server, t: Table, edits: seq<FieldEdit>)
    requires DistinctNames(edits)
    ensures ApplyAll(server, t, edits).Some? <==> forall e | e in edits :: Possible(server, t, e)
    decreases |edits|
  {
    if edits != [] {
      var e0, rest := edits[0], edits[1..];
      assert forall e | e in edits :: e == e0 || e in rest;
      assert e0 in edits && forall e | e in rest :: e in edits;
      if Possible(server, t, e0) {
        var t1 := WithColumn(t, e0.name, Settled(FinalColumn(server, t, e0)));
        ApplicableIff(server, t1, rest);
        forall e | e in rest
          ensures Possible(server, t1, e) <==> Possible(server, t, e)
        {
          var k :| 0 <= k < |rest| && rest[k] == e;
          assert edits[k + 1] == e;
          assert Look(t1, e.name) == Look(t, e.name);
        }
      }
    }
  }

  lemma FeasibleIsPossible(cast: Caster, s: TenantSchema, t: Table, tableId: string, dto: FieldEditDto, e: FieldEdit)
    requires Validate(dto, s.metaTables, CurrentType(s, tableId, dto.name)) == Success(e)
    ensures Possible(Server(cast, s.physical.Keys), t, e) <==> Feasible(cast, s, t, dto)
  {
    hide Validate;
    if dto.operation == ModifyOp && dto.name in t.cols {
      CastsCellByCell(cast, t.cols[dto.name].ty, ColumnTypeOf(e.dataType), t.cols[dto.name].cells);
    }
  }

  /** The edits of an accepted request, one for each of its entries. */
  lemma EditsFollowRequest(s: TenantSchema, tableId: string, dtos: seq<FieldEditDto>)
    requires ValidateAll(s, tableId, dtos).Success?
    ensures var edits := ValidateAll(s, tableId, dtos).value;
            && |edits| == |dtos|
            && forall i | 0 <= i < |dtos| ::
                 edits[i].name == dtos[i].name && WellTyped(edits[i]) && (edits[i].Modify? <==> dtos[i].operation == ModifyOp)
  {
    AcceptedIff(s, tableId, dtos);
    hide ValidateAll, Acceptable;
  }

  lemma RequestIsWellFormed(s: TenantSchema, t: Table, tableId: string, dtos: seq<FieldEditDto>)
    requires ValidateAll(s, tableId, dtos).Success? && WellFormedRequest(t, dtos)
    ensures var edits := ValidateAll(s, tableId, dtos).value;
            WellFormedJob(t, edits) && DistinctNames(edits) && Independent(edits)
  {
    var edits := ValidateAll(s, tableId, dtos).value;
    EditsFollowRequest(s, tableId, dtos);
    hide ValidateAll, Independent, WellTyped;
    forall e, e' | e in edits && e' in edits && e.Modify?
      ensures Shadow(e.name) != e'.name && Shadow(e.name) !in t.cols
    {
      var i, j :| 0 <= i < |edits| && edits[i] == e && 0 <= j < |edits| && edits[j] == e';
      assert dtos[i] in dtos && dtos[j] in dtos;
    }
    WellFormedIsIndependent(t, edits);
  }

  /** The job of an accepted request completes if and only if the table allows each edit. */
  lemma CompletesIff(cast: Caster, s: TenantSchema, tableId: string, dtos: seq<FieldEditDto>)
    requires CastsToSelf(cast) && tableId in s.metaTables && s.metaTables[tableId] in s.physical
    requires ValidateAll(s, tableId, dtos).Success? && WellFormedRequest(s.physical[s.metaTables[tableId]], dtos)
    ensures forall d | d in dtos :: d.operation == RemoveOp || d.dataType.Some?
    ensures var name := s.metaTables[tableId];
            EditTable(cast, s, JobOf(tableId, name, ValidateAll(s, tableId, dtos).value)).Some? <==>
            forall d | d in dtos :: Feasible(cast, s, s.physical[name], d)
  {
    var t, edits := s.physical[s.metaTables[tableId]], ValidateAll(s, tableId, dtos).value;
    var server := Server(cast, s.physical.Keys);
    AcceptedIff(s, tableId, dtos);
    RequestIsWellFormed(s, t, tableId, dtos);
    CompiledJobMeansInPlaceEdits(server, t, edits);
    ApplicableIff(server, t, edits);
    forall i | 0 <= i < |dtos|
      ensures dtos[i].operation == RemoveOp || dtos[i].dataType.Some?
      ensures Possible(server, t, edits[i]) <==> Feasible(cast, s, t, dtos[i])
    {
      FeasibleIsPossible(cast, s, t, tableId, dtos[i], edits[i]);
    }
    hide Validate, ValidateAll, Possible, Feasible, ApplyAll, WellFormedJob, Independent;
    assert forall e | e in edits :: exists i :: 0 <= i < |edits| && edits[i] == e;
    assert forall d | d in dtos :: exists i :: 0 <= i < |dtos| && dtos[i] == d;
  }

  /** The column type a data type is stored in. */
  predicate StoredAs(dataType: FieldDataType, ty: PgType) {
    && (ty == Varchar <==> dataType == STRING || dataType == EMAIL || dataType == URL || dataType == SELECT)
    && (ty == Text <==> dataType == TEXT)
    && (ty == Decimal <==> dataType == NUMBER)
    && (ty == Bool <==> dataType == BOOLEAN)
    && (ty == Date <==> dataType == DATE)
    && (ty == Timestamp <==> dataType == DATETIME)
    && (ty == Jsonb <==> dataType == JSON)
    && (ty == Integer <==> dataType == RELATION)
  }

  lemma TypeIsStoredAs(dataType: FieldDataType)
    ensures StoredAs(dataType, ColumnTypeOf(dataType))
    ensures ColumnTypeOf(RELATION) == Integer
  {
  }

  /** What an edit asked for: the column and the field row it leaves, from the column before. */
  ghost predicate AsAsked(
    cast: Caster, rows: nat, before: Option<Column>, after: Option<Column>, row: Option<FieldRow>, dto: FieldEditDto)
  {
    match dto.operation
    case RemoveOp => after == None && row == None
    case AddOp =>
      && dto.dataType.Some? && after.Some?
      && (before.Some? ==> after == before)
      && (before.None? ==>
            && StoredAs(dto.dataType.value, after.value.ty) && (after.value.notNull <==> dto.required == Some(true))
            && |after.value.cells| == rows && forall i | 0 <= i < rows :: after.value.cells[i] == Null)
      && row == Some(FieldRow(dto.dataType.value, dto.required == Some(true),
                              if dto.dataType == Some(RELATION) then dto.relatedTableId else None))
    case ModifyOp =>
      && dto.dataType.Some? && before.Some? && after.Some?
      && StoredAs(dto.dataType.value, after.value.ty) && !after.value.notNull
      && |after.value.cells| == |before.value.cells|
      && (forall i | 0 <= i < |before.value.cells| ::
            cast(before.value.ty, after.value.ty, before.value.cells[i]) == Some(after.value.cells[i]))
      && row == Some(FieldRow(dto.dataType.value, dto.required == Some(true), None))
  }

  lemma EditLeavesWhatWasAsked(cast: Caster, s: TenantSchema, t: Table, tableId: string, dto: FieldEditDto, e: FieldEdit)
    requires Validate(dto, s.metaTables, CurrentType(s, tableId, dto.name)) == Success(e)
    requires Possible(Server(cast, s.physical.Keys), t, e)
    ensures AsAsked(cast, t.rows, Look(t, dto.name), Settled(FinalColumn(Server(cast, s.physical.Keys), t, e)),
                    if e.Remove? then None else Some(EffectOf(e).row), dto)
  {
    hide Validate, StoredAs, ColumnTypeOf;
    if !e.Remove? {
      TypeIsStoredAs(dto.dataType.value);
    }
    if dto.operation == ModifyOp {
      CastsCellByCell(cast, t.cols[dto.name].ty, ColumnTypeOf(e.dataType), t.cols[dto.name].cells);
    }
  }

  /**
   * The completed job of an accepted request leaves, for each edit, the column
   * and the field row that were asked for; every other column, row and table is
   * as it was.
   */
  lemma CompletedJobDoesWhatWasAsked(cast: Caster, s: TenantSchema, tableId: string, dtos: seq<FieldEditDto>)
    requires CastsToSelf(cast) && tableId in s.metaTables && s.metaTables[tableId] in s.physical
    requires ValidateAll(s, tableId, dtos).Success? && WellFormedRequest(s.physical[s.metaTables[tableId]], dtos)
    requires EditTable(cast, s, JobOf(tableId, s.metaTables[tableId], ValidateAll(s, tableId, dtos).value)).Some?
    ensures var name := s.metaTables[tableId];
            var s' := EditTable(cast, s, JobOf(tableId, name, ValidateAll(s, tableId, dtos).value)).value;
            var t, u := s.physical[name], s'.physical[name];
            && u.rows == t.rows && s'.metaTables == s.metaTables && s'.physical == s.physical[name := u]
            && (forall d | d in dtos ::
                  AsAsked(cast, t.rows, Look(t, d.name), Look(u, d.name), RowOf(s'.metaFields, tableId, d.name), d))
            && (forall c | (forall d | d in dtos :: d.name != c) ::
                  Look(u, c) == Look(t, c) && RowOf(s'.metaFields, tableId, c) == RowOf(s.metaFields, tableId, c))
            && (forall id, c | id != tableId :: RowOf(s'.metaFields, id, c) == RowOf(s.metaFields, id, c))
  {
    var name, edits := s.metaTables[tableId], ValidateAll(s, tableId, dtos).value;
    var t, server := s.physical[name], Server(cast, s.physical.Keys);
    var s' := EditTable(cast, s, JobOf(tableId, name, edits)).value;
    hide ValidateAll, ApplyAll, WellFormedRequest, WellFormedJob, Independent, Possible, FinalColumn, EffectOf, AsAsked, RowOf;
    hide Validate, Acceptable, Look, ApplyEffects, EffectsOf, CompileAll, Run;
    EditsFollowRequest(s, tableId, dtos);
    AcceptedIff(s, tableId, dtos);
    RequestIsWellFormed(s, t, tableId, dtos);
    CompiledJobMeansInPlaceEdits(server, t, edits);
    ColumnsAfter(server, t, edits);
    RowsAfter(s.metaFields, tableId, edits);
    forall i | 0 <= i < |dtos|
      ensures AsAsked(cast, t.rows, Look(t, dtos[i].name), Look(s'.physical[name], dtos[i].name),
                      RowOf(s'.metaFields, tableId, dtos[i].name), dtos[i])
    {
      assert edits[i] in edits;
      EditLeavesWhatWasAsked(cast, s, t, tableId, dtos[i], edits[i]);
    }
    forall c | forall d | d in dtos :: d.name != c
      ensures Look(s'.physical[name], c) == Look(t, c)
      ensures RowOf(s'.metaFields, tableId, c) == RowOf(s.metaFields, tableId, c)
    {
      forall e | e in edits
        ensures e.name != c
      {
        var i :| 0 <= i < |edits| && edits[i] == e;
        assert dtos[i] in dtos;
      }
    }
  }

  // ----- a new table ----------------------------------------------------

  lemma {:induction false} FieldColumn(fields: seq<FieldDefinition>, f: FieldDefinition)
    requires Creatable(fields) && f in fields
    ensures f.name in FieldColumns(fields) && f.name !in SYSTEM_COLUMNS
    ensures FieldColumns(fields)[f.name] == Column(ColumnTypeOf(f.dataType), f.required, [])
  {
    var n := |fields| - 1;
    if fields[n] != f {
      assert f in fields[..n];
      FieldColumn(fields[..n], f);
    }
  }

  lemma {:induction false} FieldRecorded(rows: FieldRows, tableId: string, fields: seq<FieldDefinition>, f: FieldDefinition)
    requires f in fields && forall i, j | 0 <= i < j < |fields| :: fields[i].name != fields[j].name
    ensures RowOf(UpsertFields(rows, tableId, fields), tableId, f.name) == Some(FieldRow(f.dataType, f.required, None))
  {
    var n := |fields| - 1;
    if fields[n] != f {
      assert f in fields[..n];
      FieldRecorded(rows, tableId, fields[..n], f);
    }
  }

  lemma {:induction false} OthersNotRecorded(rows: FieldRows, tableId: string, fields: seq<FieldDefinition>, id: string, c: string)
    requires id != tableId || forall f | f in fields :: f.name != c
    ensures RowOf(UpsertFields(rows, tableId, fields), id, c) == RowOf(rows, id, c)
  {
    if fields != [] {
      assert fields[|fields| - 1] in fields;
      OthersNotRecorded(rows, tableId, fields[..|fields| - 1], id, c);
    }
  }

  /**
   * A create-table job for a free name completes if and only if the fields can
   * be columns together and no other table has the name; then the table is
   * empty with one column of the asked type for each field and the system
   * columns, each field is recorded as asked, and nothing else changes.
   */
  lemma CreatedTableIsAsAsked(s: TenantSchema, job: CreateTableJob)
    requires job.tableName !in s.physical
    ensures CreateTable(s, job).Some? <==>
            && (forall f | f in job.fields ::
                  f.dataType != RELATION && f.name !in {"id", "owner_user_id", "created_at", "updated_at"})
            && (forall i, j | 0 <= i < j < |job.fields| :: job.fields[i].name != job.fields[j].name)
            && (forall id | id in s.metaTables && id != job.tableId :: s.metaTables[id] != job.tableName)
    ensures CreateTable(s, job).Some? ==>
              var s' := CreateTable(s, job).value;
              && job.tableName in s'.physical && s'.physical == s.physical[job.tableName := s'.physical[job.tableName]]
              && s'.metaTables == s.metaTables[job.tableId := job.tableName]
              && var t := s'.physical[job.tableName];
                 && t.rows == 0 && {"id", "owner_user_id", "created_at", "updated_at"} <= t.cols.Keys
                 && (forall f | f in job.fields ::
                       && f.name in t.cols && StoredAs(f.dataType, t.cols[f.name].ty)
                       && (t.cols[f.name].notNull <==> f.required) && t.cols[f.name].cells == []
                       && RowOf(s'.metaFields, job.tableId, f.name) == Some(FieldRow(f.dataType, f.required, None)))
                 && (forall c | c in t.cols && c !in SYSTEM_COLUMNS :: exists f | f in job.fields :: f.name == c)
                 && forall id, c | id != job.tableId || (forall f | f in job.fields :: f.name != c) ::
                      RowOf(s'.metaFields, id, c) == RowOf(s.metaFields, id, c)
  {
    hide CreateTable, Creatable, FieldColumns, UpsertFields, RowOf;
    CreatedIff(s, job);
    if CreateTable(s, job).Some? {
      var s' := CreateTable(s, job).value;
      CreatedColumns(s, job);
      forall f | f in job.fields
        ensures RowOf(s'.metaFields, job.tableId, f.name) == Some(FieldRow(f.dataType, f.required, None))
      {
        FieldRecorded(s.metaFields, job.tableId, job.fields, f);
      }
      forall id, c | id != job.tableId || forall f | f in job.fields :: f.name != c
        ensures RowOf(s'.metaFields, id, c) == RowOf(s.metaFields, id, c)
      {
        OthersNotRecorded(s.metaFields, job.tableId, job.fields, id, c);
      }
    }
  }

  lemma CreatedIff(s: TenantSchema, job: CreateTableJob)
    requires job.tableName !in s.physical
    ensures CreateTable(s, job).Some? <==>
            && (forall f | f in job.fields ::
                  f.dataType != RELATION && f.name !in {"id", "owner_user_id", "created_at", "updated_at"})
            && (forall i, j | 0 <= i < j < |job.fields| :: job.fields[i].name != job.fields[j].name)
            && (forall id | id in s.metaTables && id != job.tableId :: s.metaTables[id] != job.tableName)
    ensures CreateTable(s, job).Some? ==> Creatable(job.fields)
  {
    CreatableIff(job.fields);
    hide Creatable, FieldColumns, UpsertFields, SystemColumns;
  }

  lemma CreatableIff(fields: seq<FieldDefinition>)
    ensures Creatable(fields) <==>
            && (forall f | f in fields ::
                  f.dataType != RELATION && f.name !in {"id", "owner_user_id", "created_at", "updated_at"})
            && (forall i, j | 0 <= i < j < |fields| :: fields[i].name != fields[j].name)
  {
    assert forall f | f in fields :: exists i | 0 <= i < |fields| :: fields[i] == f;
  }

  lemma CreatedColumns(s: TenantSchema, job: CreateTableJob)
    requires job.tableName !in s.physical && CreateTable(s, job).Some?
    ensures var s' := CreateTable(s, job).value;
            && s'.metaFields == UpsertFields(s.metaFields, job.tableId, job.fields)
            && s'.metaTables == s.metaTables[job.tableId := job.tableName]
            && job.tableName in s'.physical && s'.physical == s.physical[job.tableName := s'.physical[job.tableName]]
            && var t := s'.physical[job.tableName];
               && t.rows == 0 && SYSTEM_COLUMNS <= t.cols.Keys
               && (forall f | f in job.fields ::
                     f.name in t.cols && t.cols[f.name] == Column(ColumnTypeOf(f.dataType), f.required, []))
               && forall c | c in t.cols && c !in SYSTEM_COLUMNS :: exists f | f in job.fields :: f.name == c
  {
    forall f | f in job.fields {
      FieldColumn(job.fields, f);
    }
    forall c | c in FieldColumns(job.fields) {
      DefinedColumns(job.fields, c);
    }
    hide FieldColumns, UpsertFields, Creatable;
  }
}
