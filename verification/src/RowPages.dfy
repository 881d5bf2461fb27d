/**
 * Listing rows page by page: query validation, filters, order with the id
 * tie-break, limit and offset; all pages together are the sorted result.
 */
module RowPages {
  import opened Wrappers
  import opened FieldRules
  import opened RelationQuery
  import FieldEdits

  const ROW_DEFAULT_PAGE := 1
  const ROW_DEFAULT_PAGE_SIZE := 50
  const DEFAULT_MAX_PAGE_SIZE := 100

  datatype Filter = Filter(field: string, value: Value)

  /** As the client sends it; numbers need not be integers. */
  datatype RowListQuery = RowListQuery(
    page: Option<real>, pageSize: Option<real>, sortBy: Option<string>, sortDirection: Option<string>,
    filters: seq<Filter>)

  datatype Resolved = Resolved(page: nat, pageSize: nat, sortBy: Option<string>, descending: bool, filters: seq<Filter>)

  datatype QueryError =
    | PageInvalid | PageSizeInvalid | PageSizeExceeded | SortByInvalid | SortDirectionInvalid | FiltersInvalid

  predicate IsPositiveInteger(n: real) {
    IsInteger(n) && 0.0 < n
  }

  function ParsePositiveInteger(value: Option<real>, fallback: nat): (n: Option<nat>)
    requires 0 < fallback
    ensures n.None? <==> value.Some? && !IsPositiveInteger(value.value)
    ensures n.Some? ==> 0 < n.value && (value.Some? ==> n.value as real == value.value) && (value.None? ==> n.value == fallback)
  {
    if value.None? then Some(fallback)
    else if IsPositiveInteger(value.value) then Some(value.value.Floor)
    else None
  }

  predicate NamesField(rules: seq<Rule>, field: string) {
    exists r | r in rules :: r.slug == field
  }

  /** What a plain object inherits; looking a field up in one finds these names too. */
  const PROTO := "__proto__"

  const INHERITED_NAMES := {
    "constructor", "toString", "toLocaleString", "valueOf", "hasOwnProperty", "isPrototypeOf", "propertyIsEnumerable",
    PROTO, "__defineGetter__", "__defineSetter__", "__lookupGetter__", "__lookupSetter__"}

  predicate Found(rules: seq<Rule>, field: string) {
    NamesField(rules, field) || field in INHERITED_NAMES
  }

  /** The name is safe; it is a field and the value is null or of its type, or it is inherited, has no type, and the value is null. */
  predicate FilterOk(rules: seq<Rule>, f: Filter, isDate: string -> bool) {
    && FieldEdits.IsSafeIdentifier(f.field)
    && if NamesField(rules, f.field)
       then exists r | r in rules :: r.slug == f.field && (f.value == Null || TypeMatches(r.dataType, f.value, isDate))
       else f.field in INHERITED_NAMES && f.value == Null
  }

  /** The filters as properties of a plain object: setting its prototype adds none. */
  function Assigned(filters: seq<Filter>): seq<Filter> {
    if filters == [] then []
    else
      var last := filters[|filters| - 1];
      Assigned(filters[..|filters| - 1]) + if last.field == PROTO then [] else [last]
  }

  /** `maxPageSize` is the configured limit, `DEFAULT_MAX_PAGE_SIZE` when there is none. */
  method ResolveRowListQuery(q: RowListQuery, rules: seq<Rule>, maxPageSize: Option<real>, isDate: string -> bool)
    returns (r: Result<Resolved, QueryError>)
    requires DistinctSlugs(rules)
    ensures r.Success? <==>
              && (q.page.Some? ==> IsPositiveInteger(q.page.value))
              && (q.pageSize.Some? ==> IsPositiveInteger(q.pageSize.value) && q.pageSize.value <= LimitOf(maxPageSize))
              && (q.pageSize.None? ==> ROW_DEFAULT_PAGE_SIZE as real <= LimitOf(maxPageSize))
              && (q.sortBy.Some? ==> Found(rules, q.sortBy.value) && FieldEdits.IsSafeIdentifier(q.sortBy.value))
              && (q.sortDirection.Some? ==> q.sortDirection.value == "asc" || q.sortDirection.value == "desc")
              && forall f | f in q.filters :: FilterOk(rules, f, isDate)
    ensures r.Success? ==>
              && 0 < r.value.page && 0 < r.value.pageSize && r.value.pageSize as real <= LimitOf(maxPageSize)
              && r.value.page as real == (if q.page.Some? then q.page.value else ROW_DEFAULT_PAGE as real)
              && r.value.pageSize as real == (if q.pageSize.Some? then q.pageSize.value else ROW_DEFAULT_PAGE_SIZE as real)
              && Keeps(q, r.value)
  {
    hide FilterOk, Found;
    var page := ParsePositiveInteger(q.page, ROW_DEFAULT_PAGE);
    if page.None? {
      return Failure(PageInvalid);
    }
    var pageSize := ParsePositiveInteger(q.pageSize, ROW_DEFAULT_PAGE_SIZE);
    if pageSize.None? {
      return Failure(PageSizeInvalid);
    }
    if LimitOf(maxPageSize) < pageSize.value as real {
      return Failure(PageSizeExceeded);
    }
    if q.sortBy.Some? && !(Found(rules, q.sortBy.value) && FieldEdits.IsSafeIdentifier(q.sortBy.value)) {
      return Failure(SortByInvalid);
    }
    if q.sortDirection.Some? && q.sortDirection.value != "asc" && q.sortDirection.value != "desc" {
      return Failure(SortDirectionInvalid);
    }
    var filters := [];
    for i := 0 to |q.filters|
      invariant forall j | 0 <= j < i :: FilterOk(rules, q.filters[j], isDate)
      invariant filters == Assigned(q.filters[..i])
    {
      if !FilterOk(rules, q.filters[i], isDate) {
        return Failure(FiltersInvalid);
      }
      assert q.filters[..i + 1][..i] == q.filters[..i];
      if q.filters[i].field != PROTO {
        filters := filters + [q.filters[i]];
      }
    }
    assert q.filters[..|q.filters|] == q.filters;
    r := Success(Resolved(page.value, pageSize.value, q.sortBy, q.sortDirection == Some("desc"), filters));
  }

  function LimitOf(configured: Option<real>): real {
    if configured.Some? then configured.value else DEFAULT_MAX_PAGE_SIZE as real
  }

  // ----- filters, order, pages -----------------------------------------

  /** `where column = value`, or `is null`; null equals nothing. */
  predicate Passes(filters: seq<Filter>, row: Row) {
    forall f | f in filters :: Cell(row, f.field) == f.value
  }

  function Filtered(rows: seq<Row>, filters: seq<Filter>): seq<Row> {
    Restrict(rows, row => Passes(filters, row))
  }

  /** The database's comparison of two values of a column: negative, zero or positive. */
  type Comparison = (Value, Value) -> int

  ghost predicate IsOrder(compare: Comparison) {
    && (forall x, y :: compare(x, y) < 0 <==> 0 < compare(y, x))
    && (forall x, y, z :: compare(x, y) <= 0 && compare(y, z) <= 0 ==> compare(x, z) <= 0)
  }

  datatype Order = Order(sortBy: Option<string>, descending: bool, compare: Comparison)

  function IdOf(row: Row): real {
    if Cell(row, "id").Number? then Cell(row, "id").n else 0.0
  }

  function ByField(o: Order, a: Row, b: Row): int {
    if o.sortBy.None? then 0
    else
      var c := o.compare(Cell(a, o.sortBy.value), Cell(b, o.sortBy.value));
      if o.descending then -c else c
  }

  /** `order by sortBy direction, id asc`. */
  predicate Before(o: Order, a: Row, b: Row) {
    ByField(o, a, b) < 0 || (ByField(o, a, b) == 0 && IdOf(a) < IdOf(b))
  }

  /** A possible answer of the database: the rows, none before an earlier one. */
  ghost predicate Arrangement(o: Order, rows: seq<Row>, s: seq<Row>) {
    && multiset(s) == multiset(rows)
    && forall i, j | 0 <= i < j < |s| :: !Before(o, s[j], s[i])
  }

  /** The ids are numbers and no two rows share one. */
  ghost predicate IdsDiffer(rows: seq<Row>) {
    && (forall i | 0 <= i < |rows| :: Cell(rows[i], "id").Number?)
    && (forall a, b | a in rows && b in rows :: Cell(a, "id") == Cell(b, "id") ==> a == b)
  }

  /** `limit size offset (page - 1) * size`. */
  function PageOf<T>(s: seq<T>, page: nat, size: nat): seq<T>
    requires 0 < page
  {
    var offset := Min((page - 1) * size, |s|);
    s[offset..Min(offset + size, |s|)]
  }

  function PageCount(total: nat, size: nat): nat
    requires 0 < size
  {
    (total + size - 1) / size
  }

  function Concat<T>(pages: seq<seq<T>>): seq<T> {
    if pages == [] then [] else Concat(pages[..|pages| - 1]) + pages[|pages| - 1]
  }

  function SumOfLengths<T>(pages: seq<seq<T>>): nat {
    if pages == [] then 0 else SumOfLengths(pages[..|pages| - 1]) + |pages[|pages| - 1]|
  }

  // ----- the order leaves no choice ------------------------------------

  lemma {:induction false} OneArrangement(o: Order, rows: seq<Row>, s: seq<Row>, t: seq<Row>)
    requires IdsDiffer(rows) && Arrangement(o, rows, s) && Arrangement(o, rows, t) && IsOrder(o.compare)
    ensures s == t
    decreases |s|
  {
    assert |s| == |multiset(s)| == |t|;
    if s != [] {
      FirstIsForced(o, rows, s, t);
      assert s == [s[0]] + s[1..] && t == [t[0]] + t[1..];
      assert multiset(s[1..]) == multiset(s) - multiset{s[0]} && multiset(t[1..]) == multiset(t) - multiset{t[0]};
      RestHasDistinctIds(rows, s);
      OneArrangement(o, s[1..], s[1..], t[1..]);
    }
  }

  lemma FirstIsForced(o: Order, rows: seq<Row>, s: seq<Row>, t: seq<Row>)
    requires IdsDiffer(rows) && Arrangement(o, rows, s) && Arrangement(o, rows, t) && IsOrder(o.compare)
    requires s != [] && t != []
    ensures s[0] == t[0]
  {
    var a, b := s[0], t[0];
    assert a in multiset(s) && b in multiset(t);
    assert a in multiset(t) && b in multiset(s);
    var i :| 0 <= i < |t| && t[i] == a;
    var j :| 0 <= j < |s| && s[j] == b;
    if i != 0 && j != 0 {
      assert !Before(o, a, b) && !Before(o, b, a);
      assert a in multiset(rows) && b in multiset(rows);
      OneIsBefore(o, a, b);
    }
  }

  lemma OneIsBefore(o: Order, a: Row, b: Row)
    requires IsOrder(o.compare) && !Before(o, a, b) && !Before(o, b, a)
    ensures IdOf(a) == IdOf(b)
  {
    if o.sortBy.Some? {
      var x, y := Cell(a, o.sortBy.value), Cell(b, o.sortBy.value);
      assert o.compare(x, y) < 0 <==> 0 < o.compare(y, x);
      assert o.compare(y, x) < 0 <==> 0 < o.compare(x, y);
    }
  }

  lemma RestHasDistinctIds(rows: seq<Row>, s: seq<Row>)
    requires IdsDiffer(rows) && multiset(s) == multiset(rows) && s != []
    ensures IdsDiffer(s[1..])
  {
    forall r | r in s
      ensures r in rows
    {
      assert r in multiset(s);
    }
    forall i | 0 <= i < |s[1..]|
      ensures Cell(s[1..][i], "id").Number?
    {
      assert s[1..][i] in s;
    }
  }

  lemma FilteredIdsDiffer(rows: seq<Row>, filters: seq<Filter>)
    requires IdsDiffer(rows)
    ensures IdsDiffer(Filtered(rows, filters))
  {
    var kept := Filtered(rows, filters);
    RestrictSelects(rows, row => Passes(filters, row));
    forall i | 0 <= i < |kept|
      ensures Cell(kept[i], "id").Number?
    {
      assert kept[i] in rows;
    }
  }

  // ----- the pages are the result --------------------------------------

  /** Page `p + 1` as cut from the answer to the `p`-th request. */
  function PagesOf<T>(answers: seq<seq<T>>, size: nat): seq<seq<T>> {
    seq(|answers|, p requires 0 <= p < |answers| => PageOf(answers[p], p + 1, size))
  }

  lemma {:induction false} PagesMakePrefix<T>(answers: seq<seq<T>>, s: seq<T>, size: nat)
    requires forall p | 0 <= p < |answers| :: answers[p] == s
    ensures Concat(PagesOf(answers, size)) == s[..Min(|answers| * size, |s|)]
    ensures SumOfLengths(PagesOf(answers, size)) == Min(|answers| * size, |s|)
  {
    if answers != [] {
      var n := |answers| - 1;
      var pages := PagesOf(answers, size);
      PagesMakePrefix(answers[..n], s, size);
      assert pages[..n] == PagesOf(answers[..n], size);
      NextOffset(n, size);
    }
  }

  lemma NextOffset(n: nat, size: nat)
    ensures (n + 1) * size == n * size + size && 0 <= n * size
  {
  }

  lemma EnoughPages(total: nat, size: nat)
    requires 0 < size
    ensures total <= PageCount(total, size) * size
    ensures total > 0 ==> (PageCount(total, size) - 1) * size < total
  {
    var m := total + size - 1;
    assert m == (m / size) * size + m % size;
  }

  /**
   * Pages 1 to the last, each cut from its own answer of the database, list
   * every row that passes the filters as often as it is stored and no other
   * row, in one and the same (sort value, id) order; the total is the sum of
   * their lengths.
   */
  lemma PagesPartitionResult(o: Order, rows: seq<Row>, filters: seq<Filter>, size: nat, answers: seq<seq<Row>>, s: seq<Row>)
    requires 0 < size && IsOrder(o.compare) && IdsDiffer(rows)
    requires |answers| == PageCount(|Filtered(rows, filters)|, size)
    requires forall p | 0 <= p < |answers| :: Arrangement(o, Filtered(rows, filters), answers[p])
    requires Arrangement(o, Filtered(rows, filters), s)
    ensures Concat(PagesOf(answers, size)) == s
    ensures forall r :: multiset(Concat(PagesOf(answers, size)))[r] == if Passes(filters, r) then multiset(rows)[r] else 0
    ensures SumOfLengths(PagesOf(answers, size)) == |Filtered(rows, filters)|
  {
    var total := |Filtered(rows, filters)|;
    FilteredIdsDiffer(rows, filters);
    assert |s| == |multiset(s)| == total;
    forall p | 0 <= p < |answers|
      ensures answers[p] == s
    {
      OneArrangement(o, Filtered(rows, filters), answers[p], s);
    }
    PagesMakePrefix(answers, s, size);
    EnoughPages(total, size);
    forall r
      ensures multiset(s)[r] == if Passes(filters, r) then multiset(rows)[r] else 0
    {
      RestrictCounts(rows, row => Passes(filters, row), r);
    }
  }

  // ----- pages of the joined query -------------------------------------

  /** A row of the result next to the base row it comes from. */
  datatype Listed = Listed(base: Row, result: ResultRow)

  /** The rows of the joined query, if the database answers it. */
  ghost function Results(db: Database, tableName: string, rules: seq<Rule>, filters: seq<Filter>): Option<seq<Listed>> {
    var q, condition := QueryOf(db, tableName, rules), row => Passes(filters, row);
    var bases := Sources(q, db, condition);
    match Answer(q, db, condition)
    case None => None
    case Some(results) => Some(Paired(bases, results))
  }

  function Paired(bases: seq<Row>, results: seq<ResultRow>): seq<Listed> {
    seq(Min(|bases|, |results|), i requires 0 <= i < Min(|bases|, |results|) => Listed(bases[i], results[i]))
  }

  /** A possible answer to the joined query, ordered by columns of the base table. */
  ghost predicate ResultArrangement(o: Order, results: Option<seq<Listed>>, answer: seq<Listed>) {
    && results.Some? && multiset(answer) == multiset(results.value)
    && forall i, j | 0 <= i < j < |answer| :: !Before(o, answer[j].base, answer[i].base)
  }

  function Bases(ls: seq<Listed>): seq<Row> {
    seq(|ls|, i requires 0 <= i < |ls| => ls[i].base)
  }

  function Shaped(ls: seq<Listed>, rules: seq<Rule>): seq<ResultRow> {
    seq(|ls|, i requires 0 <= i < |ls| => Shape(ls[i].result, rules))
  }

  /** What the requests for pages 1, 2, ... return. */
  function ShapedPages(answers: seq<seq<Listed>>, rules: seq<Rule>, size: nat): seq<seq<ResultRow>> {
    seq(|answers|, p requires 0 <= p < |answers| => Shaped(PageOf(answers[p], p + 1, size), rules))
  }

  function LookedUp(db: Database, rules: seq<Rule>, rows: seq<Row>): seq<ResultRow> {
    seq(|rows|, i requires 0 <= i < |rows| => Naive(db, rules, rows[i]))
  }

  lemma WithoutFirst<T>(a: seq<T>, b: seq<T>, i: nat)
    requires multiset(a) == multiset(b) && a != [] && i < |b| && b[i] == a[0]
    ensures multiset(a[1..]) == multiset(b[..i] + b[i + 1..])
  {
    assert a == [a[0]] + a[1..];
    assert multiset(a) == multiset{a[0]} + multiset(a[1..]);
    assert b == b[..i] + [b[i]] + b[i + 1..];
    assert multiset(b) == multiset{b[i]} + multiset(b[..i] + b[i + 1..]);
    assert multiset(a[1..]) == multiset(a) - multiset{a[0]};
  }

  lemma BasesWithout(b: seq<Listed>, i: nat)
    requires i < |b|
    ensures multiset(Bases(b)) == multiset{b[i].base} + multiset(Bases(b[..i] + b[i + 1..]))
  {
    assert Bases(b) == Bases(b[..i]) + [b[i].base] + Bases(b[i + 1..]);
    assert Bases(b[..i] + b[i + 1..]) == Bases(b[..i]) + Bases(b[i + 1..]);
    hide Bases;
  }

  lemma BasesStep(a: seq<Listed>, b: seq<Listed>, i: nat)
    requires a != [] && i < |b| && b[i] == a[0]
    requires multiset(Bases(a[1..])) == multiset(Bases(b[..i] + b[i + 1..]))
    ensures multiset(Bases(a)) == multiset(Bases(b))
  {
    hide Bases;
    BasesWithout(b, i);
    BasesWithout(a, 0);
    assert a[..0] + a[1..] == a[1..];
  }

  lemma {:induction false} BasesOfSame(a: seq<Listed>, b: seq<Listed>)
    requires multiset(a) == multiset(b)
    ensures multiset(Bases(a)) == multiset(Bases(b))
    decreases |a|
  {
    if a == [] {
      assert |b| == |multiset(b)|;
    } else {
      assert a[0] in multiset(b);
      var i :| 0 <= i < |b| && b[i] == a[0];
      hide Bases;
      WithoutFirst(a, b, i);
      BasesOfSame(a[1..], b[..i] + b[i + 1..]);
      BasesStep(a, b, i);
    }
  }

  /** Each row of an answer, shaped, is its base row with the relations looked up; the base rows are in order. */
  lemma AnswerRows(o: Order, db: Database, tableName: string, rules: seq<Rule>, filters: seq<Filter>, answer: seq<Listed>)
    requires DistinctSlugs(rules) && Keyed(RowsOf(db, tableName)) && TargetsKeyed(JoinsOf(rules, db.names), db)
    requires ResultArrangement(o, Results(db, tableName, rules, filters), answer)
    ensures Arrangement(o, Filtered(RowsOf(db, tableName), filters), Bases(answer))
    ensures forall i | 0 <= i < |answer| :: Shape(answer[i].result, rules) == Naive(db, rules, answer[i].base)
  {
    var rows, results := Filtered(RowsOf(db, tableName), filters), Results(db, tableName, rules, filters).value;
    QueryIsLookupPerRow(db, tableName, rules, row => Passes(filters, row));
    hide Answer, Sources, QueryOf, Naive, Shape, Before;
    assert Bases(results) == rows;
    BasesOfSame(answer, results);
    assert forall k | 0 <= k < |results| :: Shape(results[k].result, rules) == Naive(db, rules, results[k].base);
    hide Results, Restrict;
    forall i | 0 <= i < |answer|
      ensures Shape(answer[i].result, rules) == Naive(db, rules, answer[i].base)
    {
      assert answer[i] in multiset(results);
      var k :| 0 <= k < |results| && results[k] == answer[i];
    }
  }

  /** Whatever answer the database gives, shaping it looks the relations of the sorted rows up. */
  lemma AnswerIsLookedUp(o: Order, db: Database, tableName: string, rules: seq<Rule>, filters: seq<Filter>,
                         answer: seq<Listed>, s: seq<Row>)
    requires IsOrder(o.compare) && IdsDiffer(RowsOf(db, tableName))
    requires DistinctSlugs(rules) && Keyed(RowsOf(db, tableName)) && TargetsKeyed(JoinsOf(rules, db.names), db)
    requires ResultArrangement(o, Results(db, tableName, rules, filters), answer)
    requires Arrangement(o, Filtered(RowsOf(db, tableName), filters), s)
    ensures Shaped(answer, rules) == LookedUp(db, rules, s)
  {
    hide Naive, Shape, Results, Arrangement, IdsDiffer, IsOrder, Filtered, ResultArrangement, Keyed, DistinctSlugs, TargetsKeyed;
    AnswerRows(o, db, tableName, rules, filters, answer);
    FilteredIdsDiffer(RowsOf(db, tableName), filters);
    OneArrangement(o, Filtered(RowsOf(db, tableName), filters), Bases(answer), s);
  }

  /** Shaping a page is cutting the shaped answer. */
  lemma ShapedPagesAreCut(answers: seq<seq<Listed>>, rules: seq<Rule>, size: nat)
    ensures ShapedPages(answers, rules, size) ==
            PagesOf(seq(|answers|, p requires 0 <= p < |answers| => Shaped(answers[p], rules)), size)
  {
    hide Shape;
    forall p | 0 <= p < |answers|
      ensures Shaped(PageOf(answers[p], p + 1, size), rules) == PageOf(Shaped(answers[p], rules), p + 1, size)
    {
    }
  }

  /**
   * The same for what a listing returns: pages 1 to the last of the joined and
   * grouped query, shaped, are the filtered rows in their one order, each
   * relation equal to a lookup by key.
   */
  lemma ShapedPagesPartitionResult(o: Order, db: Database, tableName: string, rules: seq<Rule>, filters: seq<Filter>,
                                   size: nat, answers: seq<seq<Listed>>, s: seq<Row>)
    requires 0 < size && IsOrder(o.compare) && IdsDiffer(RowsOf(db, tableName))
    requires DistinctSlugs(rules) && Keyed(RowsOf(db, tableName)) && TargetsKeyed(JoinsOf(rules, db.names), db)
    requires |answers| == PageCount(|Filtered(RowsOf(db, tableName), filters)|, size)
    requires forall p | 0 <= p < |answers| :: ResultArrangement(o, Results(db, tableName, rules, filters), answers[p])
    requires Arrangement(o, Filtered(RowsOf(db, tableName), filters), s)
    ensures Concat(ShapedPages(answers, rules, size)) == LookedUp(db, rules, s)
    ensures SumOfLengths(ShapedPages(answers, rules, size)) == |Filtered(RowsOf(db, tableName), filters)|
  {
    hide IdsDiffer, Keyed, TargetsKeyed, DistinctSlugs, Results, Naive, Shape, Filtered, IsOrder;
    var looked := LookedUp(db, rules, s);
    var shaped := seq(|answers|, p requires 0 <= p < |answers| => Shaped(answers[p], rules));
    assert |s| == |multiset(s)| == |Filtered(RowsOf(db, tableName), filters)|;
    forall p | 0 <= p < |answers|
      ensures shaped[p] == looked
    {
      AnswerIsLookedUp(o, db, tableName, rules, filters, answers[p], s);
    }
    hide ResultArrangement, Arrangement;
    ShapedPagesAreCut(answers, rules, size);
    PagesMakePrefix(shaped, looked, size);
    EnoughPages(|s|, size);
  }

  // ----- what the query asked for --------------------------------------

  /** The order of an accepted query: its field, if it names one, then the id. */
  function OrderFor(r: Resolved, compare: Comparison): Order {
    Order(r.sortBy, r.descending, compare)
  }

  /** What `ResolveRowListQuery` keeps of the query. */
  ghost predicate Keeps(q: RowListQuery, r: Resolved) {
    r.sortBy == q.sortBy && (r.descending <==> q.sortDirection == Some("desc")) && r.filters == Assigned(q.filters)
  }

  /** Ascending unless the query says otherwise; rows of equal sort value, or all without one, by ascending id. */
  ghost predicate SortedAsAsked(q: RowListQuery, compare: Comparison, s: seq<Row>) {
    forall i, j | 0 <= i < j < |s| ::
      && (q.sortBy.Some? ==>
            var c := compare(Cell(s[i], q.sortBy.value), Cell(s[j], q.sortBy.value));
            if q.sortDirection == Some("desc") then 0 <= c else c <= 0)
      && (q.sortBy.None? || compare(Cell(s[i], q.sortBy.value), Cell(s[j], q.sortBy.value)) == 0 ==>
            s[i] == s[j] ||
            (Cell(s[i], "id").Number? && Cell(s[j], "id").Number? && Cell(s[i], "id").n < Cell(s[j], "id").n))
  }

  lemma ArrangedAsAsked(q: RowListQuery, r: Resolved, compare: Comparison, rows: seq<Row>, s: seq<Row>)
    requires Keeps(q, r) && IsOrder(compare) && IdsDiffer(rows) && Arrangement(OrderFor(r, compare), rows, s)
    ensures SortedAsAsked(q, compare, s)
  {
    forall i, j | 0 <= i < j < |s|
      ensures Cell(s[i], "id").Number? && Cell(s[j], "id").Number?
      ensures IdOf(s[i]) == IdOf(s[j]) ==> s[i] == s[j]
      ensures !Before(OrderFor(r, compare), s[j], s[i])
      ensures q.sortBy.Some? ==>
                var x, y := Cell(s[i], q.sortBy.value), Cell(s[j], q.sortBy.value);
                (compare(x, y) < 0 <==> 0 < compare(y, x)) && (compare(y, x) < 0 <==> 0 < compare(x, y))
    {
      assert s[i] in multiset(rows) && s[j] in multiset(rows);
      assert IdOf(s[i]) == IdOf(s[j]) ==> Cell(s[i], "id") == Cell(s[j], "id");
    }
    hide Arrangement, IdsDiffer, IsOrder;
  }

  lemma {:induction false} AssignedOnly(filters: seq<Filter>, f: Filter)
    ensures f in Assigned(filters) <==> f in filters && f.field != PROTO
  {
    if filters != [] {
      AssignedOnly(filters[..|filters| - 1], f);
    }
  }

  /** `s` holds every row whose cells equal the query's filter values as often as `rows`, and no other row. */
  ghost predicate HoldsWhatWasAsked(q: RowListQuery, rows: seq<Row>, s: seq<Row>) {
    forall row :: multiset(s)[row] ==
      if forall f | f in q.filters && f.field != PROTO :: Cell(row, f.field) == f.value then multiset(rows)[row] else 0
  }

  lemma FilteredIsWhatWasAsked(q: RowListQuery, r: Resolved, rows: seq<Row>)
    requires Keeps(q, r)
    ensures HoldsWhatWasAsked(q, rows, Filtered(rows, r.filters))
  {
    forall row
      ensures multiset(Filtered(rows, r.filters))[row] ==
              if forall f | f in q.filters && f.field != PROTO :: Cell(row, f.field) == f.value then multiset(rows)[row] else 0
    {
      forall f {
        AssignedOnly(q.filters, f);
      }
      RestrictCounts(rows, row => Passes(r.filters, row), row);
    }
  }

  /**
   * The pages of an accepted query, each cut from its own answer: every row
   * whose cells equal the query's filter values, as often as it is stored, and
   * no other row, sorted by the field and in the direction the query names,
   * then by id.
   */
  lemma ListingFollowsQuery(q: RowListQuery, r: Resolved, compare: Comparison, rows: seq<Row>, answers: seq<seq<Row>>)
    requires Keeps(q, r) && 0 < r.pageSize && IsOrder(compare) && IdsDiffer(rows)
    requires |answers| == PageCount(|Filtered(rows, r.filters)|, r.pageSize) && answers != []
    requires forall p | 0 <= p < |answers| :: Arrangement(OrderFor(r, compare), Filtered(rows, r.filters), answers[p])
    ensures var s := Concat(PagesOf(answers, r.pageSize));
            SortedAsAsked(q, compare, s) && HoldsWhatWasAsked(q, rows, s)
  {
    var o := OrderFor(r, compare);
    PagesPartitionResult(o, rows, r.filters, r.pageSize, answers, answers[0]);
    FilteredIdsDiffer(rows, r.filters);
    ArrangedAsAsked(q, r, compare, Filtered(rows, r.filters), answers[0]);
    FilteredIsWhatWasAsked(q, r, rows);
    hide SortedAsAsked, IdsDiffer, Filtered, PagesOf, Concat;
  }

  /** The same for the shaped pages of the joined query: the looked-up rows of one such sorted result. */
  lemma ShapedListingFollowsQuery(q: RowListQuery, r: Resolved, compare: Comparison, db: Database, tableName: string,
                                  rules: seq<Rule>, answers: seq<seq<Listed>>)
    requires Keeps(q, r) && 0 < r.pageSize && IsOrder(compare) && IdsDiffer(RowsOf(db, tableName))
    requires DistinctSlugs(rules) && Keyed(RowsOf(db, tableName)) && TargetsKeyed(JoinsOf(rules, db.names), db)
    requires |answers| == PageCount(|Filtered(RowsOf(db, tableName), r.filters)|, r.pageSize) && answers != []
    requires forall p | 0 <= p < |answers| ::
               ResultArrangement(OrderFor(r, compare), Results(db, tableName, rules, r.filters), answers[p])
    ensures exists s ::
              && SortedAsAsked(q, compare, s) && HoldsWhatWasAsked(q, RowsOf(db, tableName), s)
              && Concat(ShapedPages(answers, rules, r.pageSize)) == LookedUp(db, rules, s)
  {
    var o, rows := OrderFor(r, compare), RowsOf(db, tableName);
    var s := Bases(answers[0]);
    hide IdsDiffer, Keyed, TargetsKeyed, DistinctSlugs, Results, Filtered, IsOrder, Shaped, ShapedPages, LookedUp, ResultArrangement, Bases;
    AnswerRows(o, db, tableName, rules, r.filters, answers[0]);
    ShapedPagesPartitionResult(o, db, tableName, rules, r.filters, r.pageSize, answers, s);
    FilteredIdsDiffer(rows, r.filters);
    ArrangedAsAsked(q, r, compare, Filtered(rows, r.filters), s);
    FilteredIsWhatWasAsked(q, r, rows);
    hide SortedAsAsked, Keeps, Concat;
  }

  /** A page past the last one is empty, and every page before the last is full. */
  lemma PageLengths<T>(s: seq<T>, page: nat, size: nat)
    requires 0 < size && 0 < page
    ensures page > PageCount(|s|, size) ==> PageOf(s, page, size) == []
    ensures page < PageCount(|s|, size) ==> |PageOf(s, page, size)| == size
  {
    EnoughPages(|s|, size);
    var count := PageCount(|s|, size);
    if page > count {
      Monotone(count, page - 1, size);
    } else if page < count {
      Monotone(page, count - 1, size);
      NextOffset(page - 1, size);
    }
  }

  lemma Monotone(a: nat, b: nat, size: nat)
    requires a <= b
    ensures a * size <= b * size
  {
  }
}
