/**
 * The physical side of a dynamic table: PostgreSQL columns, and what each
 * field-edit step of the DDL worker does to them in its own transaction.
 */
module PhysicalTable {
  import opened Wrappers

  datatype FieldDataType =
    | STRING | TEXT | NUMBER | BOOLEAN | DATE | DATETIME | JSON | EMAIL | URL | SELECT | RELATION

  datatype PgType = Varchar | Text | Decimal | Bool | Date | Timestamp | Jsonb | Integer

  /** One stored value; `Datum` holds its canonical text. */
  datatype Cell = Null | Datum(text: string)

  datatype Column = Column(ty: PgType, notNull: bool, cells: seq<Cell>)

  /** A table of `rows` rows; cell `i` of every column belongs to row `i`. */
  datatype Table = Table(rows: nat, cols: map<string, Column>)

  /**
   * PostgreSQL's assignment cast between column types; `None` is a cast error.
   * Null casts wherever there is such a cast at all: types without one have
   * `None` for null too, and the statement is rejected whatever the rows are.
   */
  type Caster = (PgType, PgType, Cell) -> Option<Cell>

  /** What a job's steps depend on besides the edited table: the casts and the tables of the tenant schema. */
  datatype Server = Server(cast: Caster, tables: set<string>)

  /** Casting a type to itself changes nothing and never fails. */
  ghost predicate CastsToSelf(cast: Caster) {
    forall ty: PgType, v: Cell :: cast(ty, ty, v) == Some(v)
  }

  datatype FieldEditStep =
    | AddColumn(columnName: string, dataType: FieldDataType, required: bool)
    | AddRelationColumn(columnName: string, targetTableName: string, required: bool)
    | DropColumn(columnName: string)
    | AddShadowColumn(shadowColumnName: string, dataType: FieldDataType, required: bool)
    | BackfillColumn(sourceColumnName: string, shadowColumnName: string)
    | CutoverColumn(sourceColumnName: string, shadowColumnName: string, finalColumnName: string)

  /** The column type a field's data type compiles to. A relation is an integer foreign key. */
  function ColumnTypeOf(dataType: FieldDataType): PgType {
    match dataType
    case STRING | EMAIL | URL | SELECT => Varchar
    case TEXT => Text
    case NUMBER => Decimal
    case BOOLEAN => Bool
    case DATE => Date
    case DATETIME => Timestamp
    case JSON => Jsonb
    case RELATION => Integer
  }

  function Look(t: Table, c: string): (col: Option<Column>) {
    if c in t.cols then Some(t.cols[c]) else None
  }

  function WithColumn(t: Table, c: string, col: Option<Column>): (t': Table)
    ensures t'.rows == t.rows
    ensures forall d :: Look(t', d) == if d == c then col else Look(t, d)
  {
    match col
    case Some(x) => t.(cols := t.cols[c := x])
    case None => t.(cols := t.cols - {c})
  }

  function EmptyColumn(ty: PgType, notNull: bool, rows: nat): Column {
    Column(ty, notNull, seq(rows, _ => Null))
  }

  /** ADD COLUMN without a default: NOT NULL is violated as soon as there is a row. */
  function AddNew(t: Table, c: string, ty: PgType, required: bool): Option<Table> {
    if required && t.rows > 0 then None
    else Some(WithColumn(t, c, Some(EmptyColumn(ty, required, t.rows))))
  }

  /** The cast of a whole column; without a cast between the types it fails even for no rows. */
  function CastAll(cast: Caster, from: PgType, to: PgType, cells: seq<Cell>): Option<seq<Cell>> {
    if cast(from, to, Null).None? then None else CastCells(cast, from, to, cells)
  }

  function CastCells(cast: Caster, from: PgType, to: PgType, cells: seq<Cell>): Option<seq<Cell>> {
    if cells == [] then Some([])
    else
      match (cast(from, to, cells[0]), CastCells(cast, from, to, cells[1..]))
      case (Some(v), Some(vs)) => Some([v] + vs)
      case _ => None
  }

  lemma {:induction false} CastAllToSelf(cast: Caster, ty: PgType, cells: seq<Cell>)
    requires CastsToSelf(cast)
    ensures CastAll(cast, ty, ty, cells) == Some(cells)
  {
    if cells != [] {
      assert [cells[0]] + cells[1..] == cells;
      CastAllToSelf(cast, ty, cells[1..]);
    }
  }

  /** One step in its own transaction; `None` means the statement failed and rolled back. */
  function Exec(server: Server, t: Table, step: FieldEditStep): Option<Table> {
    match step
    case AddColumn(c, dataType, required) =>
      if c in t.cols then Some(t)
      else if dataType == RELATION then None
      else AddNew(t, c, ColumnTypeOf(dataType), required)
    case AddRelationColumn(c, target, required) =>
      if c in t.cols then Some(t)
      else if target !in server.tables then None
      else AddNew(t, c, Integer, required)
    case DropColumn(c) =>
      Some(WithColumn(t, c, None))
    case AddShadowColumn(shadow, dataType, _) =>
      if shadow in t.cols then Some(t)
      else if dataType == RELATION then None
      else AddNew(t, shadow, ColumnTypeOf(dataType), false)
    case BackfillColumn(source, shadow) =>
      Backfill(server, t, source, shadow)
    case CutoverColumn(source, shadow, final) =>
      Cutover(t, source, shadow, final)
  }

  /** UPDATE ... SET shadow = source over every row. */
  function Backfill(server: Server, t: Table, source: string, shadow: string): Option<Table> {
    match (Look(t, source), Look(t, shadow))
    case (Some(src), Some(dst)) =>
      (match CastAll(server.cast, src.ty, dst.ty, src.cells)
       case Some(cells) =>
         if dst.notNull && Null in cells then None
         else Some(WithColumn(t, shadow, Some(dst.(cells := cells))))
       case None => None)
    case _ => None
  }

  /** Drop the source and rename the shadow into place; a no-op when both are gone. */
  function Cutover(t: Table, source: string, shadow: string, final: string): Option<Table> {
    var dropped := WithColumn(t, source, None);
    match Look(t, shadow)
    case None => Some(dropped)
    case Some(col) =>
      // Dropping the source first also removes the shadow when the two coincide.
      if shadow == source || final in dropped.cols then None
      else Some(WithColumn(WithColumn(dropped, shadow, None), final, Some(col)))
  }

  /** How far a job's steps got: the committed table and how many steps committed. */
  datatype Progress = Progress(table: Table, committed: nat)

  /** Runs steps from the first one, committing each, and stops at the first that fails. */
  function Run(server: Server, t: Table, steps: seq<FieldEditStep>): (p: Progress)
    ensures p.committed <= |steps|
    decreases |steps|
  {
    if steps == [] then Progress(t, 0)
    else
      match Exec(server, t, steps[0])
      case None => Progress(t, 0)
      case Some(t1) =>
        var p := Run(server, t1, steps[1..]);
        Progress(p.table, p.committed + 1)
  }

  lemma {:induction false} RunConcat(server: Server, t: Table, a: seq<FieldEditStep>, b: seq<FieldEditStep>)
    ensures var p := Run(server, t, a);
            Run(server, t, a + b) ==
            if p.committed == |a|
            then var q := Run(server, p.table, b); Progress(q.table, |a| + q.committed)
            else p
    decreases |a|
  {
    if a == [] {
      assert a + b == b;
    } else {
      assert (a + b)[1..] == a[1..] + b;
      match Exec(server, t, a[0])
      case None =>
      case Some(t1) => RunConcat(server, t1, a[1..], b);
    }
  }

  /** Tables with the same rows and the same columns are equal. */
  lemma SameTable(t: Table, t': Table)
    requires t.rows == t'.rows
    requires forall c :: Look(t, c) == Look(t', c)
    ensures t == t'
  {
    forall c
      ensures c in t.cols <==> c in t'.cols
      ensures c in t.cols ==> t.cols[c] == t'.cols[c]
    {
      assert Look(t, c) == Look(t', c);
    }
    assert t.cols == t'.cols;
  }
}
