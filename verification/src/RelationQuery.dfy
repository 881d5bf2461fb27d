/**
 * Relation fields in one query: left joins, grouping by primary key,
 * `json_agg` with a not-null filter, and unwrapping; against a lookup per row.
 */
module RelationQuery {
  import opened Wrappers
  import FieldEdits
  import PhysicalTable
  import opened FieldRules

  /** A column of a result row: a stored value, the array of an aggregate, or an embedded row. */
  datatype ResultCell = Raw(value: Value) | Aggregated(rows: seq<Row>) | Embedded(row: Row)

  type ResultRow = map<string, ResultCell>

  /** Tables by physical name, and the names `_meta_tables` has for the table ids. */
  datatype Database = Database(tables: map<string, seq<Row>>, names: map<nat, string>)

  datatype Join = Join(slug: string, targetTable: string)

  /** `select table.*, one aggregate a join from table left join ... group by table.id`. */
  datatype Query = Query(tableName: string, joins: seq<Join>, grouped: bool)

  /** One row of the joined relation: the base row, and each alias's row, if it matched. */
  datatype Joined = Joined(base: Row, aliases: map<string, Option<Row>>)

  function RowsOf(db: Database, tableName: string): seq<Row> {
    if tableName in db.tables then db.tables[tableName] else []
  }

  // ----- building the query --------------------------------------------

  /** The joins of the relation fields whose target table is known, in field order. */
  function JoinsOf(rules: seq<Rule>, names: map<nat, string>): seq<Join> {
    if rules == [] then []
    else
      var before := JoinsOf(rules[..|rules| - 1], names);
      var rule := rules[|rules| - 1];
      if rule.dataType == PhysicalTable.RELATION && rule.target.Some? && rule.target.value in names
      then before + [Join(rule.slug, names[rule.target.value])]
      else before
  }

  predicate HasTarget(rule: Rule) {
    rule.dataType == PhysicalTable.RELATION && rule.target.Some?
  }

  method BuildRowQuery(tableName: string, rules: seq<Rule>, names: map<nat, string>) returns (q: Query)
    ensures q == Query(tableName, JoinsOf(rules, names), exists r | r in rules :: HasTarget(r))
  {
    var joins, grouped := [], false;
    for i := 0 to |rules|
      invariant joins == JoinsOf(rules[..i], names)
      invariant grouped <==> exists r | r in rules[..i] :: HasTarget(r)
    {
      assert rules[..i + 1][..i] == rules[..i] && rules[..i + 1] == rules[..i] + [rules[i]];
      if HasTarget(rules[i]) {
        grouped := true;
        if rules[i].target.value in names {
          joins := joins + [Join(rules[i].slug, names[rules[i].target.value])];
        }
      }
    }
    assert rules[..|rules|] == rules;
    q := Query(tableName, joins, grouped);
  }

  // ----- what the database computes ------------------------------------

  /** Rows of the joined table whose id equals the key; null equals nothing. */
  function Matches(target: seq<Row>, key: Value): seq<Row> {
    if target == [] then []
    else if key != Null && Cell(target[0], "id") == key then [target[0]] + Matches(target[1..], key)
    else Matches(target[1..], key)
  }

  function WithAlias(j: Joined, slug: string, row: Option<Row>): Joined {
    j.(aliases := j.aliases[slug := row])
  }

  /** One joined row per match, or the row itself with an empty alias. */
  function Extend(j: Joined, slug: string, matches: seq<Row>): seq<Joined> {
    if matches == [] then [WithAlias(j, slug, None)]
    else seq(|matches|, k requires 0 <= k < |matches| => WithAlias(j, slug, Some(matches[k])))
  }

  function LeftJoin(js: seq<Joined>, join: Join, db: Database): seq<Joined> {
    if js == [] then []
    else Extend(js[0], join.slug, Matches(RowsOf(db, join.targetTable), Cell(js[0].base, join.slug)))
         + LeftJoin(js[1..], join, db)
  }

  function LeftJoins(js: seq<Joined>, joins: seq<Join>, db: Database): seq<Joined>
    decreases |joins|
  {
    if joins == [] then js else LeftJoins(LeftJoin(js, joins[0], db), joins[1..], db)
  }

  /** The rows of one group, or the rest. */
  function WithId(js: seq<Joined>, id: Value, wanted: bool): (r: seq<Joined>)
    ensures |r| <= |js|
  {
    if js == [] then []
    else (if (Cell(js[0].base, "id") == id) == wanted then [js[0]] else []) + WithId(js[1..], id, wanted)
  }

  function GroupById(js: seq<Joined>): seq<seq<Joined>>
    decreases |js|
  {
    if js == [] then []
    else
      var id := Cell(js[0].base, "id");
      [[js[0]] + WithId(js[1..], id, true)] + GroupById(WithId(js[1..], id, false))
  }

  /** `json_agg(alias.*) filter (where alias.id is not null)` before the empty case becomes null. */
  function AliasRows(group: seq<Joined>, slug: string): seq<Row> {
    if group == [] then []
    else
      var rest := AliasRows(group[1..], slug);
      if slug in group[0].aliases && group[0].aliases[slug].Some? && Cell(group[0].aliases[slug].value, "id") != Null
      then [group[0].aliases[slug].value] + rest else rest
  }

  function JsonAgg(group: seq<Joined>, slug: string): ResultCell {
    var rows := AliasRows(group, slug);
    if rows == [] then Raw(Null) else Aggregated(rows)
  }

  function JoinSlugs(joins: seq<Join>): set<string> {
    set j | j in joins :: j.slug
  }

  /** An aggregate column takes the place of the base column of the same name. */
  function SelectGroup(group: seq<Joined>, joins: seq<Join>): ResultRow
    requires group != []
  {
    map c | c in group[0].base.Keys + JoinSlugs(joins) ::
      if c in JoinSlugs(joins) then JsonAgg(group, c) else Raw(Cell(group[0].base, c))
  }

  function Where(js: seq<Joined>, condition: Row -> bool): seq<Joined> {
    if js == [] then []
    else (if condition(js[0].base) then [js[0]] else []) + Where(js[1..], condition)
  }

  function FromTable(rows: seq<Row>): seq<Joined> {
    seq(|rows|, i requires 0 <= i < |rows| => Joined(rows[i], map[]))
  }

  function SelectGroups(groups: seq<seq<Joined>>, joins: seq<Join>): seq<ResultRow>
    requires forall i | 0 <= i < |groups| :: groups[i] != []
  {
    seq(|groups|, i requires 0 <= i < |groups| => SelectGroup(groups[i], joins))
  }

  lemma {:induction false} GroupsAreInhabited(js: seq<Joined>)
    ensures forall i | 0 <= i < |GroupById(js)| :: GroupById(js)[i] != []
    decreases |js|
  {
    if js != [] {
      GroupsAreInhabited(WithId(js[1..], Cell(js[0].base, "id"), false));
    }
  }

  function RawRow(row: Row): ResultRow {
    map c | c in row :: Raw(row[c])
  }

  /** A condition on base columns restricts the joined rows before they are grouped. */
  function Eval(q: Query, db: Database, condition: Row -> bool): seq<ResultRow> {
    var joined := Where(LeftJoins(FromTable(RowsOf(db, q.tableName)), q.joins, db), condition);
    if q.grouped then
      GroupsAreInhabited(joined);
      SelectGroups(GroupById(joined), q.joins)
    else seq(|joined|, i requires 0 <= i < |joined| => RawRow(joined[i].base))
  }

  const RELATION_ALIAS_SUFFIX := "__rel"

  /** The alias of a joined table; the database cuts identifiers to their maximal length. */
  function Alias(slug: string): string {
    var alias := slug + RELATION_ALIAS_SUFFIX;
    alias[..Min(FieldEdits.MAX_IDENTIFIER_LENGTH, |alias|)]
  }

  /** The query names a table twice: an alias is the base table's name, or another alias. */
  predicate NameClash(q: Query) {
    || (exists i | 0 <= i < |q.joins| :: Alias(q.joins[i].slug) == q.tableName)
    || (exists i, j | 0 <= i < j < |q.joins| :: Alias(q.joins[i].slug) == Alias(q.joins[j].slug))
  }

  /** What the database answers; a query that names a table twice is rejected. */
  function Answer(q: Query, db: Database, condition: Row -> bool): Option<seq<ResultRow>> {
    if NameClash(q) then None else Some(Eval(q, db, condition))
  }

  /** The base rows behind the rows of the result. */
  function Sources(q: Query, db: Database, condition: Row -> bool): seq<Row> {
    var joined := Where(LeftJoins(FromTable(RowsOf(db, q.tableName)), q.joins, db), condition);
    if q.grouped then
      GroupsAreInhabited(joined);
      FirstBases(GroupById(joined))
    else seq(|joined|, i requires 0 <= i < |joined| => joined[i].base)
  }

  function FirstBases(groups: seq<seq<Joined>>): seq<Row>
    requires forall i | 0 <= i < |groups| :: groups[i] != []
  {
    seq(|groups|, i requires 0 <= i < |groups| => groups[i][0].base)
  }

  /** The query of a table with these fields. */
  ghost function QueryOf(db: Database, tableName: string, rules: seq<Rule>): Query {
    Query(tableName, JoinsOf(rules, db.names), exists r | r in rules :: HasTarget(r))
  }

  // ----- shaping -------------------------------------------------------

  function RelationSlugs(rules: seq<Rule>): set<string> {
    set r | r in rules && r.dataType == PhysicalTable.RELATION :: r.slug
  }

  function Unwrap(cell: Option<ResultCell>): ResultCell {
    if cell.Some? && cell.value.Aggregated? && |cell.value.rows| > 0 then Embedded(cell.value.rows[0]) else Raw(Null)
  }

  function At(row: ResultRow, slug: string): Option<ResultCell> {
    if slug in row then Some(row[slug]) else None
  }

  function Shape(row: ResultRow, rules: seq<Rule>): ResultRow {
    map c | c in row.Keys + RelationSlugs(rules) ::
      if c in RelationSlugs(rules) then Unwrap(At(row, c)) else row[c]
  }

  ghost predicate DistinctSlugs(rules: seq<Rule>) {
    forall i, j | 0 <= i < j < |rules| :: rules[i].slug != rules[j].slug
  }

  method ShapeRelationColumns(row: ResultRow, rules: seq<Rule>) returns (shaped: ResultRow)
    requires DistinctSlugs(rules)
    ensures shaped == Shape(row, rules)
  {
    hide Shape, Unwrap;
    ShapeStep(row, rules, 0);
    shaped := row;
    for i := 0 to |rules|
      invariant shaped == Shape(row, rules[..i])
    {
      ShapeStep(row, rules, i);
      if rules[i].dataType == PhysicalTable.RELATION {
        shaped := shaped[rules[i].slug := Unwrap(At(shaped, rules[i].slug))];
      }
    }
    assert rules[..|rules|] == rules;
  }

  /** One more rule unwraps its own column only. */
  lemma ShapeStep(row: ResultRow, rules: seq<Rule>, i: nat)
    requires DistinctSlugs(rules) && i <= |rules|
    ensures i == 0 ==> Shape(row, rules[..i]) == row
    ensures i < |rules| ==>
              var shaped := Shape(row, rules[..i]);
              Shape(row, rules[..i + 1]) ==
              if rules[i].dataType == PhysicalTable.RELATION
              then shaped[rules[i].slug := Unwrap(At(shaped, rules[i].slug))] else shaped
  {
    if i < |rules| {
      assert rules[..i + 1] == rules[..i] + [rules[i]];
      assert rules[i].slug !in RelationSlugs(rules[..i]);
      assert RelationSlugs(rules[..i + 1]) ==
             RelationSlugs(rules[..i]) + if rules[i].dataType == PhysicalTable.RELATION then {rules[i].slug} else {};
    }
  }

  // ----- the reference: one lookup a relation and row ------------------

  function LookupRow(rows: seq<Row>, key: Value): Option<Row> {
    if key == Null || rows == [] then None
    else if Cell(rows[0], "id") == key then Some(rows[0])
    else LookupRow(rows[1..], key)
  }

  /** The table a relation column refers to, if the column is a relation and its table is known. */
  function TargetOf(rules: seq<Rule>, names: map<nat, string>, slug: string): Option<string> {
    if rules == [] then None
    else if rules[|rules| - 1].slug == slug then
      var rule := rules[|rules| - 1];
      if HasTarget(rule) && rule.target.value in names then Some(names[rule.target.value]) else None
    else TargetOf(rules[..|rules| - 1], names, slug)
  }

  /** Null when the relation is unset or dangling, or its table is unknown. */
  function Resolve(db: Database, rules: seq<Rule>, row: Row, slug: string): ResultCell {
    match TargetOf(rules, db.names, slug)
    case None => Raw(Null)
    case Some(target) =>
      match LookupRow(RowsOf(db, target), Cell(row, slug))
      case Some(r) => Embedded(r)
      case None => Raw(Null)
  }

  function Naive(db: Database, rules: seq<Rule>, row: Row): ResultRow {
    map c | c in row.Keys + RelationSlugs(rules) ::
      if c in RelationSlugs(rules) then Resolve(db, rules, row, c) else Raw(row[c])
  }

  function Restrict(rows: seq<Row>, condition: Row -> bool): seq<Row> {
    if rows == [] then []
    else (if condition(rows[0]) then [rows[0]] else []) + Restrict(rows[1..], condition)
  }

  /** Ids are a primary key. */
  ghost predicate Keyed(rows: seq<Row>) {
    && (forall i | 0 <= i < |rows| :: Cell(rows[i], "id") != Null)
    && (forall i, j | 0 <= i < j < |rows| :: Cell(rows[i], "id") != Cell(rows[j], "id"))
  }

  // ----- a join matches at most once -----------------------------------

  lemma {:induction false} MatchesAreLookup(target: seq<Row>, key: Value)
    requires Keyed(target)
    ensures Matches(target, key) == match LookupRow(target, key) case Some(r) => [r] case None => []
    ensures LookupRow(target, key).Some? ==> LookupRow(target, key).value in target
                                             && Cell(LookupRow(target, key).value, "id") == key
  {
    if target != [] {
      MatchesAreLookup(target[1..], key);
      if key != Null && Cell(target[0], "id") == key {
        NoMatch(target[1..], key);
      }
    }
  }

  lemma {:induction false} NoMatch(target: seq<Row>, key: Value)
    requires forall r | r in target :: Cell(r, "id") != key
    ensures Matches(target, key) == []
  {
    if target != [] {
      NoMatch(target[1..], key);
    }
  }

  /** One joined row with all its aliases looked up. */
  function AllAliases(j: Joined, joins: seq<Join>, db: Database): Joined
    decreases |joins|
  {
    if joins == [] then j
    else AllAliases(WithAlias(j, joins[0].slug, LookupRow(RowsOf(db, joins[0].targetTable), Cell(j.base, joins[0].slug))),
                    joins[1..], db)
  }

  ghost predicate TargetsKeyed(joins: seq<Join>, db: Database) {
    forall j | j in joins :: Keyed(RowsOf(db, j.targetTable))
  }

  lemma {:induction false} LeftJoinIsLookup(js: seq<Joined>, join: Join, db: Database)
    requires Keyed(RowsOf(db, join.targetTable))
    ensures |LeftJoin(js, join, db)| == |js|
    ensures forall i | 0 <= i < |js| :: LeftJoin(js, join, db)[i] ==
              WithAlias(js[i], join.slug, LookupRow(RowsOf(db, join.targetTable), Cell(js[i].base, join.slug)))
  {
    if js != [] {
      LeftJoinIsLookup(js[1..], join, db);
      MatchesAreLookup(RowsOf(db, join.targetTable), Cell(js[0].base, join.slug));
    }
  }

  /** Any number of joins neither multiplies nor drops a row. */
  lemma {:induction false} LeftJoinsAreLookups(js: seq<Joined>, joins: seq<Join>, db: Database)
    requires TargetsKeyed(joins, db)
    ensures |LeftJoins(js, joins, db)| == |js|
    ensures forall i | 0 <= i < |js| :: LeftJoins(js, joins, db)[i] == AllAliases(js[i], joins, db)
    decreases |joins|
  {
    if joins != [] {
      assert joins[0] in joins;
      LeftJoinIsLookup(js, joins[0], db);
      LeftJoinsAreLookups(LeftJoin(js, joins[0], db), joins[1..], db);
    }
  }

  lemma {:induction false} AliasesLookedUp(j: Joined, joins: seq<Join>, db: Database, slug: string)
    ensures AllAliases(j, joins, db).base == j.base
    ensures slug !in JoinSlugs(joins) ==>
              (slug in AllAliases(j, joins, db).aliases <==> slug in j.aliases)
              && (slug in j.aliases ==> AllAliases(j, joins, db).aliases[slug] == j.aliases[slug])
    decreases |joins|
  {
    if joins != [] {
      var j' := WithAlias(j, joins[0].slug, LookupRow(RowsOf(db, joins[0].targetTable), Cell(j.base, joins[0].slug)));
      AliasesLookedUp(j', joins[1..], db, slug);
      assert joins[0].slug in JoinSlugs(joins);
      assert JoinSlugs(joins[1..]) <= JoinSlugs(joins);
    }
  }

  ghost predicate DistinctJoins(joins: seq<Join>) {
    forall i, j | 0 <= i < j < |joins| :: joins[i].slug != joins[j].slug
  }

  lemma {:induction false} AliasOfJoin(j: Joined, joins: seq<Join>, db: Database, k: nat)
    requires k < |joins| && DistinctJoins(joins)
    ensures var j' := AllAliases(j, joins, db);
            joins[k].slug in j'.aliases &&
            j'.aliases[joins[k].slug] == LookupRow(RowsOf(db, joins[k].targetTable), Cell(j.base, joins[k].slug))
    decreases |joins|
  {
    var j' := WithAlias(j, joins[0].slug, LookupRow(RowsOf(db, joins[0].targetTable), Cell(j.base, joins[0].slug)));
    if k == 0 {
      assert joins[0].slug !in JoinSlugs(joins[1..]);
      AliasesLookedUp(j', joins[1..], db, joins[0].slug);
    } else {
      AliasOfJoin(j', joins[1..], db, k - 1);
    }
  }

  // ----- grouping by a key makes singletons ----------------------------

  lemma {:induction false} NobodyElse(js: seq<Joined>, id: Value)
    requires forall j | j in js :: Cell(j.base, "id") != id
    ensures WithId(js, id, true) == [] && WithId(js, id, false) == js
  {
    if js != [] {
      NobodyElse(js[1..], id);
    }
  }

  lemma {:induction false} GroupsAreSingletons(js: seq<Joined>)
    requires forall i, j | 0 <= i < j < |js| :: Cell(js[i].base, "id") != Cell(js[j].base, "id")
    ensures |GroupById(js)| == |js| && forall i | 0 <= i < |js| :: GroupById(js)[i] == [js[i]]
    decreases |js|
  {
    if js != [] {
      NobodyElse(js[1..], Cell(js[0].base, "id"));
      GroupsAreSingletons(js[1..]);
    }
  }

  // ----- the joins of a schema -----------------------------------------

  lemma {:induction false} JoinsComeFromRules(rules: seq<Rule>, names: map<nat, string>, k: nat)
    requires k < |JoinsOf(rules, names)|
    ensures var join := JoinsOf(rules, names)[k];
            exists r | r in rules :: HasTarget(r) && r.slug == join.slug && r.target.value in names
                                     && names[r.target.value] == join.targetTable
  {
    var n := |rules| - 1;
    if k < |JoinsOf(rules[..n], names)| {
      JoinsComeFromRules(rules[..n], names, k);
    } else {
      assert rules[n] in rules;
    }
  }

  /** The joins of a schema are exactly its relation fields with a known table. */
  lemma {:induction false} JoinsAreTargets(rules: seq<Rule>, names: map<nat, string>)
    requires DistinctSlugs(rules)
    ensures DistinctJoins(JoinsOf(rules, names)) && JoinSlugs(JoinsOf(rules, names)) <= RelationSlugs(rules)
    ensures forall k | 0 <= k < |JoinsOf(rules, names)| ::
              TargetOf(rules, names, JoinsOf(rules, names)[k].slug) == Some(JoinsOf(rules, names)[k].targetTable)
    ensures forall slug :: slug !in JoinSlugs(JoinsOf(rules, names)) ==> TargetOf(rules, names, slug) == None
  {
    if rules != [] {
      var n := |rules| - 1;
      var before, joins := JoinsOf(rules[..n], names), JoinsOf(rules, names);
      JoinsAreTargets(rules[..n], names);
      forall k | 0 <= k < |before|
        ensures before[k].slug != rules[n].slug
      {
        JoinsComeFromRules(rules[..n], names, k);
      }
      forall r | r in rules[..n]
        ensures r in rules
      {
      }
      assert rules[n] in rules;
      if joins != before {
        assert joins == before + [joins[|before|]];
        assert JoinSlugs(joins) == JoinSlugs(before) + {rules[n].slug};
      } else {
        assert TargetOf(rules, names, rules[n].slug) == None;
      }
    }
  }

  // ----- the theorem ---------------------------------------------------

  lemma {:induction false} WhereIsRestrict(rows: seq<Row>, js: seq<Joined>, joins: seq<Join>, db: Database, condition: Row -> bool)
    requires |js| == |rows| && forall i | 0 <= i < |rows| :: js[i] == AllAliases(Joined(rows[i], map[]), joins, db)
    ensures |Where(js, condition)| == |Restrict(rows, condition)|
    ensures forall i | 0 <= i < |Restrict(rows, condition)| ::
              Where(js, condition)[i] == AllAliases(Joined(Restrict(rows, condition)[i], map[]), joins, db)
  {
    if rows != [] {
      AliasesLookedUp(Joined(rows[0], map[]), joins, db, "");
      WhereIsRestrict(rows[1..], js[1..], joins, db, condition);
    }
  }

  lemma {:induction false} RestrictSelects(rows: seq<Row>, condition: Row -> bool)
    ensures forall r | r in Restrict(rows, condition) :: r in rows && condition(r)
  {
    if rows != [] {
      RestrictSelects(rows[1..], condition);
    }
  }

  /** Every row that meets the condition is kept, as often as it occurs, and no other row is. */
  lemma {:induction false} RestrictCounts(rows: seq<Row>, condition: Row -> bool, r: Row)
    ensures multiset(Restrict(rows, condition))[r] == if condition(r) then multiset(rows)[r] else 0
  {
    if rows != [] {
      RestrictCounts(rows[1..], condition, r);
      assert rows == [rows[0]] + rows[1..];
    }
  }

  lemma {:induction false} RestrictKeepsKeys(rows: seq<Row>, condition: Row -> bool)
    requires Keyed(rows)
    ensures Keyed(Restrict(rows, condition))
  {
    if rows != [] {
      var rest := Restrict(rows[1..], condition);
      RestrictKeepsKeys(rows[1..], condition);
      RestrictSelects(rows[1..], condition);
      forall i | 0 <= i < |rest|
        ensures Cell(rest[i], "id") != Cell(rows[0], "id")
      {
        assert rest[i] in rows[1..];
      }
      hide Cell;
    }
  }

  /** One relation column of a singleton group. */
  lemma ColumnIsResolved(db: Database, rules: seq<Rule>, row: Row, c: string)
    requires DistinctSlugs(rules) && TargetsKeyed(JoinsOf(rules, db.names), db) && c in RelationSlugs(rules)
    ensures var joins := JoinsOf(rules, db.names);
            var selected := SelectGroup([AllAliases(Joined(row, map[]), joins, db)], joins);
            Unwrap(At(selected, c)) == Resolve(db, rules, row, c)
  {
    var joins := JoinsOf(rules, db.names);
    var j := AllAliases(Joined(row, map[]), joins, db);
    JoinsAreTargets(rules, db.names);
    AliasesLookedUp(Joined(row, map[]), joins, db, "");
    if c in JoinSlugs(joins) {
      var k :| 0 <= k < |joins| && joins[k].slug == c;
      AliasOfJoin(Joined(row, map[]), joins, db, k);
      MatchesAreLookup(RowsOf(db, joins[k].targetTable), Cell(row, c));
      AliasRowsOfOne(j, c);
    }
  }

  /** The one joined row of a group, selected and shaped, is the row with its relations looked up. */
  lemma SingletonShapesToNaive(db: Database, rules: seq<Rule>, row: Row)
    requires DistinctSlugs(rules) && TargetsKeyed(JoinsOf(rules, db.names), db)
    ensures var joins := JoinsOf(rules, db.names);
            Shape(SelectGroup([AllAliases(Joined(row, map[]), joins, db)], joins), rules) == Naive(db, rules, row)
  {
    var joins := JoinsOf(rules, db.names);
    var selected := SelectGroup([AllAliases(Joined(row, map[]), joins, db)], joins);
    AliasesLookedUp(Joined(row, map[]), joins, db, "");
    JoinsAreTargets(rules, db.names);
    assert selected.Keys == row.Keys + JoinSlugs(joins);
    forall c | c in row && c !in RelationSlugs(rules)
      ensures selected[c] == Raw(row[c])
    {
    }
    forall c | c in RelationSlugs(rules) {
      ColumnIsResolved(db, rules, row, c);
    }
    hide SelectGroup, Unwrap, Resolve, RelationSlugs, AllAliases, JoinSlugs;
    ColumnwiseNaive(db, rules, row, selected, JoinSlugs(joins));
  }

  lemma ColumnwiseNaive(db: Database, rules: seq<Rule>, row: Row, selected: ResultRow, joined: set<string>)
    requires selected.Keys == row.Keys + joined && joined <= RelationSlugs(rules)
    requires forall c | c in row && c !in RelationSlugs(rules) :: selected[c] == Raw(row[c])
    requires forall c | c in RelationSlugs(rules) :: Unwrap(At(selected, c)) == Resolve(db, rules, row, c)
    ensures Shape(selected, rules) == Naive(db, rules, row)
  {
    hide RelationSlugs, Unwrap, Resolve, At;
  }

  lemma AliasRowsOfOne(j: Joined, slug: string)
    ensures AliasRows([j], slug) ==
            if slug in j.aliases && j.aliases[slug].Some? && Cell(j.aliases[slug].value, "id") != Null
            then [j.aliases[slug].value] else []
  {
  }

  lemma NoTargetsShapeToNaive(db: Database, rules: seq<Rule>, row: Row)
    requires DistinctSlugs(rules) && forall r | r in rules :: !HasTarget(r)
    ensures Shape(RawRow(row), rules) == Naive(db, rules, row)
  {
    forall c
      ensures TargetOf(rules, db.names, c) == None
    {
      NoTargets(rules, db.names, c);
    }
  }

  lemma {:induction false} NoTargets(rules: seq<Rule>, names: map<nat, string>, c: string)
    requires forall r | r in rules :: !HasTarget(r)
    ensures TargetOf(rules, names, c) == None
  {
    if rules != [] {
      assert rules[|rules| - 1] in rules;
      NoTargets(rules[..|rules| - 1], names, c);
    }
  }

  lemma {:induction false} TargetOfRule(rules: seq<Rule>, names: map<nat, string>, rule: Rule)
    requires DistinctSlugs(rules) && rule in rules
    ensures TargetOf(rules, names, rule.slug) ==
            if HasTarget(rule) && rule.target.value in names then Some(names[rule.target.value]) else None
  {
    var n := |rules| - 1;
    if rules[n].slug == rule.slug {
      assert rules[n] == rule;
    } else {
      assert rule in rules[..n];
      TargetOfRule(rules[..n], names, rule);
    }
  }

  /** An identifier as the database keeps it, cut to 63 bytes. */
  function Kept(name: string): string {
    if |name| <= 63 then name else name[..63]
  }

  /** A relation field that is joined. */
  predicate IsJoined(rule: Rule, names: map<nat, string>) {
    rule.dataType == PhysicalTable.RELATION && rule.target.Some? && rule.target.value in names
  }

  /** A joined field's alias is the table's own name, or the alias of another joined field. */
  ghost predicate SameNameTwice(rules: seq<Rule>, names: map<nat, string>, tableName: string) {
    || (exists r | r in rules :: IsJoined(r, names) && Kept(r.slug + "__rel") == tableName)
    || exists r, r' | r in rules && r' in rules ::
         r.slug != r'.slug && IsJoined(r, names) && IsJoined(r', names) && Kept(r.slug + "__rel") == Kept(r'.slug + "__rel")
  }

  lemma JoinNamesRule(rules: seq<Rule>, names: map<nat, string>, k: nat) returns (r: Rule)
    requires k < |JoinsOf(rules, names)|
    ensures r in rules && IsJoined(r, names) && r.slug == JoinsOf(rules, names)[k].slug
  {
    JoinsComeFromRules(rules, names, k);
    r :| r in rules && HasTarget(r) && r.slug == JoinsOf(rules, names)[k].slug && r.target.value in names;
  }

  lemma RuleNamesJoin(rules: seq<Rule>, names: map<nat, string>, r: Rule) returns (k: nat)
    requires DistinctSlugs(rules) && r in rules && IsJoined(r, names)
    ensures k < |JoinsOf(rules, names)| && JoinsOf(rules, names)[k].slug == r.slug
  {
    var joins := JoinsOf(rules, names);
    JoinsAreTargets(rules, names);
    TargetOfRule(rules, names, r);
    assert r.slug in JoinSlugs(joins);
    k :| 0 <= k < |joins| && joins[k].slug == r.slug;
  }

  lemma AliasIsKept(slug: string)
    ensures Alias(slug) == Kept(slug + "__rel")
  {
  }

  lemma ClashNamesRules(db: Database, tableName: string, rules: seq<Rule>)
    requires DistinctSlugs(rules) && NameClash(QueryOf(db, tableName, rules))
    ensures SameNameTwice(rules, db.names, tableName)
  {
    var joins := JoinsOf(rules, db.names);
    JoinsAreTargets(rules, db.names);
    assert DistinctJoins(joins);
    hide JoinsOf, TargetOf, IsJoined, Alias, Kept, DistinctSlugs, JoinSlugs, RelationSlugs, HasTarget;
    if i :| 0 <= i < |joins| && Alias(joins[i].slug) == tableName {
      var r := JoinNamesRule(rules, db.names, i);
      AliasIsKept(r.slug);
    } else {
      var i, j :| 0 <= i < j < |joins| && Alias(joins[i].slug) == Alias(joins[j].slug);
      var r := JoinNamesRule(rules, db.names, i);
      var r' := JoinNamesRule(rules, db.names, j);
      AliasIsKept(r.slug);
      AliasIsKept(r'.slug);
    }
  }

  lemma RulesNameClash(db: Database, tableName: string, rules: seq<Rule>)
    requires DistinctSlugs(rules) && SameNameTwice(rules, db.names, tableName)
    ensures NameClash(QueryOf(db, tableName, rules))
  {
    var joins := JoinsOf(rules, db.names);
    hide JoinsOf, TargetOf, IsJoined, Alias, Kept, DistinctSlugs;
    if r :| r in rules && IsJoined(r, db.names) && Kept(r.slug + "__rel") == tableName {
      AliasIsKept(r.slug);
      var k := RuleNamesJoin(rules, db.names, r);
    } else {
      var r, r' :| r in rules && r' in rules && r.slug != r'.slug && IsJoined(r, db.names) && IsJoined(r', db.names)
        && Kept(r.slug + "__rel") == Kept(r'.slug + "__rel");
      AliasIsKept(r.slug);
      AliasIsKept(r'.slug);
      var k := RuleNamesJoin(rules, db.names, r);
      var k' := RuleNamesJoin(rules, db.names, r');
      assert Alias(joins[k].slug) == Alias(joins[k'].slug) && k != k';
    }
  }

  /** The query of a table names one twice if and only if its fields do. */
  lemma ClashIff(db: Database, tableName: string, rules: seq<Rule>)
    requires DistinctSlugs(rules)
    ensures NameClash(QueryOf(db, tableName, rules)) <==> SameNameTwice(rules, db.names, tableName)
  {
    if NameClash(QueryOf(db, tableName, rules)) {
      ClashNamesRules(db, tableName, rules);
    } else if SameNameTwice(rules, db.names, tableName) {
      RulesNameClash(db, tableName, rules);
    }
  }

  /**
   * Unless it names a table twice, in which case it fails, the query gives
   * every selected base row exactly once, each relation equal to a lookup by
   * key: null when unset, dangling, or of an unknown table, for any number of
   * relation fields.
   */
  lemma QueryIsLookupPerRow(db: Database, tableName: string, rules: seq<Rule>, condition: Row -> bool)
    requires DistinctSlugs(rules) && Keyed(RowsOf(db, tableName)) && TargetsKeyed(JoinsOf(rules, db.names), db)
    ensures var q := QueryOf(db, tableName, rules);
            var answer, rows := Answer(q, db, condition), Restrict(RowsOf(db, tableName), condition);
            && (answer.None? <==> SameNameTwice(rules, db.names, tableName))
            && (answer.Some? ==>
                  && |answer.value| == |rows| && Sources(q, db, condition) == rows
                  && forall i | 0 <= i < |rows| :: Shape(answer.value[i], rules) == Naive(db, rules, rows[i]))
  {
    ClashIff(db, tableName, rules);
    hide SameNameTwice, NameClash;
    var joins := JoinsOf(rules, db.names);
    var q := Query(tableName, joins, exists r | r in rules :: HasTarget(r));
    var joined := LeftJoins(FromTable(RowsOf(db, tableName)), joins, db);
    var rows, kept := Restrict(RowsOf(db, tableName), condition), Where(joined, condition);
    SelectedRows(db, tableName, rules, condition);
    forall i | 0 <= i < |rows|
      ensures q.grouped ==> Shape(SelectGroup([kept[i]], joins), rules) == Naive(db, rules, rows[i])
      ensures !q.grouped ==> Shape(RawRow(kept[i].base), rules) == Naive(db, rules, rows[i])
    {
      if q.grouped {
        SingletonShapesToNaive(db, rules, rows[i]);
      } else {
        NoTargetsShapeToNaive(db, rules, rows[i]);
      }
    }
    GroupsAreSingletons(kept);
    GroupsAreInhabited(kept);
  }

  /** The joined rows that pass the filter are the filtered base rows with their aliases looked up. */
  lemma SelectedRows(db: Database, tableName: string, rules: seq<Rule>, condition: Row -> bool)
    requires Keyed(RowsOf(db, tableName)) && TargetsKeyed(JoinsOf(rules, db.names), db)
    ensures var joins, rows := JoinsOf(rules, db.names), Restrict(RowsOf(db, tableName), condition);
            var kept := Where(LeftJoins(FromTable(RowsOf(db, tableName)), joins, db), condition);
            && |kept| == |rows| && Keyed(rows)
            && forall i | 0 <= i < |rows| ::
                 kept[i] == AllAliases(Joined(rows[i], map[]), joins, db) && kept[i].base == rows[i]
  {
    var joins, base := JoinsOf(rules, db.names), RowsOf(db, tableName);
    LeftJoinsAreLookups(FromTable(base), joins, db);
    WhereIsRestrict(base, LeftJoins(FromTable(base), joins, db), joins, db, condition);
    RestrictKeepsKeys(base, condition);
    forall row: Row {
      AliasesLookedUp(Joined(row, map[]), joins, db, "");
    }
  }
}
