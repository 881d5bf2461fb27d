/**
 * `buildFieldEditSteps`: a field edit compiled to worker steps. A type change
 * becomes add-shadow, backfill, cut-over, never an in-place ALTER. The
 * declarative meaning of an edit, `FinalColumn`, is stated separately and the
 * compiled steps are proved to have that meaning.
 */
module FieldEdits {
  import opened Wrappers
  import opened PhysicalTable

  const SHADOW_COLUMN_SUFFIX := "__shadow"
  const MAX_IDENTIFIER_LENGTH := 63

  datatype FieldEdit =
    | Add(name: string, dataType: FieldDataType, required: bool)
    | AddRelation(name: string, targetTableName: string, targetTableId: string, required: bool)
    | Remove(name: string)
    | Modify(name: string, dataType: FieldDataType, required: bool)

  function Shadow(name: string): string {
    name + SHADOW_COLUMN_SUFFIX
  }

  function Compile(e: FieldEdit): seq<FieldEditStep> {
    match e
    case Add(c, dataType, required) => [AddColumn(c, dataType, required)]
    case AddRelation(c, target, _, required) => [AddRelationColumn(c, target, required)]
    case Remove(c) => [DropColumn(c)]
    case Modify(c, dataType, required) =>
      [AddShadowColumn(Shadow(c), dataType, required),
       BackfillColumn(c, Shadow(c)),
       CutoverColumn(c, Shadow(c), c)]
  }

  function CompileAll(edits: seq<FieldEdit>): seq<FieldEditStep> {
    if edits == [] then [] else Compile(edits[0]) + CompileAll(edits[1..])
  }

  // ----- request validation --------------------------------------------

  datatype Operation = AddOp | RemoveOp | ModifyOp

  datatype FieldEditDto = FieldEditDto(
    operation: Operation,
    name: string,
    dataType: Option<FieldDataType>,
    required: Option<bool>,
    relatedTableId: Option<string>)

  datatype ApiError = BadRequest | NotFound

  predicate IsLetter(c: char) { 'A' <= c <= 'Z' || 'a' <= c <= 'z' || c == '_' }

  predicate IsWordChar(c: char) { IsLetter(c) || '0' <= c <= '9' || c == '$' }

  /** `sanitizeIdentifier`: character allowlist and the 63-byte cap. */
  predicate IsSafeIdentifier(name: string) {
    && 0 < |name| <= MAX_IDENTIFIER_LENGTH
    && IsLetter(name[0])
    && forall i | 0 <= i < |name| :: IsWordChar(name[i])
  }

  function GetOr<T>(o: Option<T>, default: T): T {
    match o case Some(v) => v case None => default
  }

  /**
   * The checks of `buildFieldEditSteps`, in order. `metaTables` maps a table id
   * to its name, `currentType` is the edited field's recorded data type if any.
   */
  function Validate(dto: FieldEditDto, metaTables: map<string, string>, currentType: Option<FieldDataType>)
    : (r: Result<FieldEdit, ApiError>)
    ensures r.Success? <==>
              && IsSafeIdentifier(dto.name)
              && (dto.operation != RemoveOp ==> dto.dataType.Some?)
              && (dto.operation == AddOp && dto.dataType == Some(RELATION) ==>
                    dto.relatedTableId.Some? && dto.relatedTableId.value != "" && dto.relatedTableId.value in metaTables)
              && (dto.operation == ModifyOp ==>
                    dto.dataType != Some(RELATION) && currentType != Some(RELATION) && IsSafeIdentifier(Shadow(dto.name)))
    ensures r == Failure(NotFound) <==>
              && IsSafeIdentifier(dto.name) && dto.operation == AddOp && dto.dataType == Some(RELATION)
              && dto.relatedTableId.Some? && dto.relatedTableId.value != "" && dto.relatedTableId.value !in metaTables
    ensures r.Success? ==>
              && WellTyped(r.value) && r.value.name == dto.name
              && (r.value.Remove? <==> dto.operation == RemoveOp) && (r.value.Modify? <==> dto.operation == ModifyOp)
              && (r.value.AddRelation? <==> dto.operation == AddOp && dto.dataType == Some(RELATION))
              && (!r.value.Remove? ==> (r.value.required <==> dto.required == Some(true)))
    ensures r.Success? && (r.value.Add? || r.value.Modify?) ==> dto.dataType == Some(r.value.dataType)
    ensures r.Success? && r.value.AddRelation? ==>
              && dto.relatedTableId == Some(r.value.targetTableId)
              && r.value.targetTableId in metaTables && metaTables[r.value.targetTableId] == r.value.targetTableName
  {
    if !IsSafeIdentifier(dto.name) then Failure(BadRequest)
    else
      match dto.operation
      case RemoveOp => Success(Remove(dto.name))
      case AddOp =>
        (match dto.dataType
         case None => Failure(BadRequest)
         case Some(RELATION) =>
           (match dto.relatedTableId
            case None => Failure(BadRequest)
            case Some(id) =>
              if id == "" then Failure(BadRequest)
              else if id in metaTables
              then Success(AddRelation(dto.name, metaTables[id], id, GetOr(dto.required, false)))
              else Failure(NotFound))
         case Some(dataType) => Success(Add(dto.name, dataType, GetOr(dto.required, false))))
      case ModifyOp =>
        (match dto.dataType
         case None => Failure(BadRequest)
         case Some(RELATION) => Failure(BadRequest)
         case Some(dataType) =>
           if currentType == Some(RELATION) then Failure(BadRequest)
           else if !IsSafeIdentifier(Shadow(dto.name)) then Failure(BadRequest)
           else Success(Modify(dto.name, dataType, GetOr(dto.required, false))))
  }

  /** What validation guarantees about the data type of an edit. */
  predicate WellTyped(e: FieldEdit) {
    (e.Add? || e.Modify?) ==> e.dataType != RELATION
  }

  // ----- declarative meaning -------------------------------------------

  datatype Meaning = Impossible | Absent | Present(col: Column)

  /** What column `e.name` holds after edit `e` of table `t`, stated without steps. */
  function FinalColumn(server: Server, t: Table, e: FieldEdit): Meaning {
    match e
    case Add(c, dataType, required) =>
      AddMeaning(t, c, ColumnTypeOf(dataType), required, true)
    case AddRelation(c, target, _, required) =>
      AddMeaning(t, c, Integer, required, target in server.tables)
    case Remove(_) => Absent
    case Modify(c, dataType, _) =>
      (match Look(t, c)
       case None => Impossible
       case Some(col) =>
         match CastAll(server.cast, col.ty, ColumnTypeOf(dataType), col.cells)
         case Some(cells) => Present(Column(ColumnTypeOf(dataType), false, cells))
         case None => Impossible)
  }

  function AddMeaning(t: Table, c: string, ty: PgType, required: bool, allowed: bool): Meaning {
    if c in t.cols then Present(t.cols[c])
    else if !allowed || (required && t.rows > 0) then Impossible
    else Present(EmptyColumn(ty, required, t.rows))
  }

  predicate Possible(server: Server, t: Table, e: FieldEdit) {
    FinalColumn(server, t, e) != Impossible
  }

  function Settled(m: Meaning): Option<Column> {
    if m.Present? then Some(m.col) else None
  }

  /** The columns an edit may touch. */
  function Footprint(e: FieldEdit): set<string> {
    if e.Modify? then {e.name, Shadow(e.name)} else {e.name}
  }

  function Footprints(edits: seq<FieldEdit>): set<string> {
    if edits == [] then {} else Footprint(edits[0]) + Footprints(edits[1..])
  }

  lemma {:induction false} FootprintIn(edits: seq<FieldEdit>, e: FieldEdit)
    requires e in edits
    ensures Footprint(e) <= Footprints(edits)
  {
    if e != edits[0] {
      FootprintIn(edits[1..], e);
    }
  }

  /** Edits whose footprints are pairwise disjoint. */
  predicate Independent(edits: seq<FieldEdit>) {
    edits == [] ||
    (&& WellTyped(edits[0])
     && Footprint(edits[0]) !! Footprints(edits[1..])
     && Independent(edits[1..]))
  }

  /** No shadow column of this job exists in the table yet. */
  predicate NoShadows(t: Table, edits: seq<FieldEdit>) {
    forall e | e in edits && e.Modify? :: Shadow(e.name) !in t.cols
  }

  lemma ShadowDiffers(c: string)
    ensures Shadow(c) != c
  {
    assert |Shadow(c)| == |c| + |SHADOW_COLUMN_SUFFIX|;
  }

  /**
   * What a caller has to respect: edits of one job name distinct columns, and
   * neither the job nor the table uses the shadow name of a modified column.
   */
  predicate WellFormedJob(t: Table, edits: seq<FieldEdit>) {
    && (forall e | e in edits :: WellTyped(e))
    && (forall i, j | 0 <= i < j < |edits| :: edits[i].name != edits[j].name)
    && (forall e, e' | e in edits && e' in edits && e.Modify? :: Shadow(e.name) != e'.name)
    && NoShadows(t, edits)
  }

  lemma {:induction false} FootprintsFrom(edits: seq<FieldEdit>, c: string)
    requires c in Footprints(edits)
    ensures exists e :: e in edits && c in Footprint(e)
  {
    if c in Footprint(edits[0]) {
      assert edits[0] in edits;
    } else {
      FootprintsFrom(edits[1..], c);
    }
  }

  lemma ShadowInjective(a: string, b: string)
    requires Shadow(a) == Shadow(b)
    ensures a == b
  {
    assert a == Shadow(a)[..|a|];
    assert |Shadow(a)| == |Shadow(b)|;
    assert b == Shadow(b)[..|b|];
  }

  lemma {:induction false} WellFormedIsIndependent(t: Table, edits: seq<FieldEdit>)
    requires WellFormedJob(t, edits)
    ensures Independent(edits)
  {
    if edits != [] {
      var rest := edits[1..];
      assert forall e | e in rest :: e in edits;
      WellFormedIsIndependent(t, rest);
      forall c | c in Footprint(edits[0])
        ensures c !in Footprints(rest)
      {
        if c in Footprints(rest) {
          FootprintsFrom(rest, c);
          var e :| e in rest && c in Footprint(e);
          assert edits[0].name != e.name;
          if c == Shadow(edits[0].name) && c == Shadow(e.name) {
            ShadowInjective(edits[0].name, e.name);
          }
          assert false;
        }
      }
    }
  }
}
