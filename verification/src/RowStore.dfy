/**
 * Row writes over all tables of a tenant: create, partial update and delete,
 * with the foreign keys of relation fields and what columns make of the values
 * they are given; exactly when valid rows stay valid.
 */
module RowStore {
  import opened Wrappers
  import PhysicalTable
  import opened FieldRules

  /** `notNull` are the physical columns that refuse null; metadata may require more or less. */
  datatype RowTable = RowTable(rules: seq<Rule>, notNull: set<string>, rows: map<nat, Row>)

  type Store = map<nat, RowTable>

  datatype Request =
    | Create(table: nat, payload: Row, newId: nat)
    | Update(table: nat, id: nat, payload: Row)
    | Delete(table: nat, id: nat)

  datatype Response = Written | NotFound | Invalid | NothingToUpdate | DanglingReference | DatabaseError

  /** The row a relation cell refers to. */
  predicate PointsTo(v: Value, id: nat) {
    v == Number(id as real)
  }

  /** A relation field whose target table is known to the database. */
  predicate IsReference(store: Store, rule: Rule) {
    rule.dataType == PhysicalTable.RELATION && rule.target.Some? && rule.target.value in store
  }

  predicate Dangling(store: Store, rule: Rule, v: Value) {
    IsReference(store, rule) && v != Null && !exists id | id in store[rule.target.value].rows :: PointsTo(v, id)
  }

  predicate AnyDangling(store: Store, rules: seq<Rule>, data: Row) {
    exists rule | rule in rules :: rule.slug in data && Dangling(store, rule, data[rule.slug])
  }

  predicate NullRefused(t: RowTable, data: Row) {
    exists c | c in t.notNull && c in data :: data[c] == Null
  }

  /** Whether a cell of the row refers to row `id` of table `target`. */
  predicate RefersTo(rules: seq<Rule>, row: Row, c: string, target: nat, id: nat) {
    c in row && PointsTo(row[c], id) &&
    exists rule | rule in rules :: rule.slug == c && rule.dataType == PhysicalTable.RELATION && rule.target == Some(target)
  }

  /** `on delete set null`, in one row. */
  function Unlinked(rules: seq<Rule>, row: Row, target: nat, id: nat): Row {
    map c | c in row :: if RefersTo(rules, row, c, target, id) then Null else row[c]
  }

  function Without(rows: map<nat, Row>, id: nat): map<nat, Row> {
    map r | r in rows && r != id :: rows[r]
  }

  function AfterDelete(store: Store, table: nat, id: nat): Store {
    map t | t in store ::
      var rows := if t == table then Without(store[t].rows, id) else store[t].rows;
      store[t].(rows := map r | r in rows :: Unlinked(store[t].rules, rows[r], table, id))
  }

  /** A reference that would become null in a column that refuses null. */
  predicate DeleteRefused(store: Store, table: nat, id: nat) {
    exists t, r, c | t in store && r in store[t].rows && c in store[t].notNull ::
      !(t == table && r == id) && RefersTo(store[t].rules, store[t].rows[r], c, table, id)
  }

  /** What a column of this data type keeps of a value; `None` is a database error. */
  type Keep = (PhysicalTable.FieldDataType, Value) -> Option<Value>

  function TypeOf(rules: seq<Rule>, c: string): PhysicalTable.FieldDataType
    requires c in Slugs(rules)
  {
    if rules[0].slug == c then rules[0].dataType
    else
      assert rules == [rules[0]] + rules[1..];
      TypeOf(rules[1..], c)
  }

  function KeptCell(rules: seq<Rule>, keep: Keep, c: string, v: Value): Option<Value>
    requires c in Slugs(rules)
  {
    if v == Null then Some(Null) else keep(TypeOf(rules, c), v)
  }

  predicate Storable(rules: seq<Rule>, keep: Keep, data: Row)
    requires data.Keys <= Slugs(rules)
  {
    forall c | c in data :: KeptCell(rules, keep, c, data[c]).Some?
  }

  /** The cells as the columns keep them. */
  function Kept(rules: seq<Rule>, keep: Keep, data: Row): Row
    requires data.Keys <= Slugs(rules) && Storable(rules, keep, data)
  {
    map c | c in data :: KeptCell(rules, keep, c, data[c]).value
  }

  function Put(store: Store, table: nat, id: nat, row: Row): Store
    requires table in store
  {
    store[table := store[table].(rows := store[table].rows[id := row])]
  }

  ghost function Handle(store: Store, r: Request, isDate: string -> bool, keep: Keep): (Store, Response) {
    if r.table !in store then (store, NotFound)
    else
      var t := store[r.table];
      match r
      case Create(table, payload, newId) =>
        var data := Known(t.rules, payload);
        if !Accepts(t.rules, data, false, isDate) then (store, Invalid)
        else if newId in t.rows || !Storable(t.rules, keep, data) then (store, DatabaseError)
        else
          var kept := Kept(t.rules, keep, data);
          if NullRefused(t, Stored(t.rules, kept)) then (store, DatabaseError)
          else if AnyDangling(Put(store, table, newId, Stored(t.rules, kept)), t.rules, kept) then (store, DanglingReference)
          else (Put(store, table, newId, Stored(t.rules, kept)), Written)
      case Update(table, id, payload) =>
        var data := Known(t.rules, payload);
        if id !in t.rows then (store, NotFound)
        else if !Accepts(t.rules, data, true, isDate) then (store, Invalid)
        else if data == map[] then (store, NothingToUpdate)
        else if !Storable(t.rules, keep, data) then (store, DatabaseError)
        else
          var kept := Kept(t.rules, keep, data);
          if NullRefused(t, kept) then (store, DatabaseError)
          else if AnyDangling(store, t.rules, kept) then (store, DanglingReference)
          else (Put(store, table, id, t.rows[id] + kept), Written)
      case Delete(table, id) =>
        if id !in t.rows then (store, NotFound)
        else if DeleteRefused(store, table, id) then (store, DatabaseError)
        else (AfterDelete(store, table, id), Written)
  }

  class DynamicRows {
    var store: Store
    const isDate: string -> bool
    const keep: Keep

    constructor (store: Store, isDate: string -> bool, keep: Keep)
      ensures this.store == store && this.isDate == isDate && this.keep == keep
    {
      this.store, this.isDate, this.keep := store, isDate, keep;
    }

    method CreateRow(table: nat, payload: Row, newId: nat) returns (response: Response)
      modifies this
      ensures (store, response) == Handle(old(store), Create(table, payload, newId), isDate, keep)
    {
      if table !in store {
        return NotFound;
      }
      var t := store[table];
      var data := PickKnownFields(t.rules, payload);
      var errors := ValidateRowPayload(t.rules, data, false, isDate);
      if errors != [] {
        return Invalid;
      }
      if newId in t.rows || !Storable(t.rules, keep, data) {
        return DatabaseError;
      }
      var row := Stored(t.rules, Kept(t.rules, keep, data));
      if NullRefused(t, row) {
        return DatabaseError;
      }
      var written := store[table := t.(rows := t.rows[newId := row])];
      if AnyDangling(written, t.rules, Kept(t.rules, keep, data)) {
        return DanglingReference;
      }
      store := written;
      response := Written;
    }

    method UpdateRow(table: nat, id: nat, payload: Row) returns (response: Response)
      modifies this
      ensures (store, response) == Handle(old(store), Update(table, id, payload), isDate, keep)
    {
      if table !in store || id !in store[table].rows {
        return NotFound;
      }
      var t := store[table];
      var data := PickKnownFields(t.rules, payload);
      var errors := ValidateRowPayload(t.rules, data, true, isDate);
      if errors != [] {
        return Invalid;
      }
      if |data| == 0 {
        return NothingToUpdate;
      }
      if !Storable(t.rules, keep, data) {
        return DatabaseError;
      }
      var kept := Kept(t.rules, keep, data);
      if NullRefused(t, kept) {
        return DatabaseError;
      }
      if AnyDangling(store, t.rules, kept) {
        return DanglingReference;
      }
      store := store[table := t.(rows := t.rows[id := t.rows[id] + kept])];
      response := Written;
    }

    method DeleteRow(table: nat, id: nat) returns (response: Response)
      modifies this
      ensures (store, response) == Handle(old(store), Delete(table, id), isDate, keep)
    {
      if table !in store || id !in store[table].rows {
        return NotFound;
      }
      if DeleteRefused(store, table, id) {
        return DatabaseError;
      }
      store := AfterDelete(store, table, id);
      response := Written;
    }
  }

  // ----- when a write is made ------------------------------------------

  /** The part of a payload that names fields of the table. */
  ghost predicate IsKnownPart(rules: seq<Rule>, payload: Row, data: Row) {
    && (forall c :: c in data <==> c in payload && exists rule | rule in rules :: rule.slug == c)
    && forall c | c in data :: data[c] == payload[c]
  }

  /** The same cells as their columns keep them; null stays null. */
  ghost predicate IsKept(rules: seq<Rule>, keep: Keep, data: Row, kept: Row) {
    && kept.Keys == data.Keys
    && forall rule | rule in rules && rule.slug in data ::
         if data[rule.slug] == Null then kept[rule.slug] == Null
         else keep(rule.dataType, data[rule.slug]) == Some(kept[rule.slug])
  }

  /** The data with null for every field it leaves out. */
  ghost predicate IsFilled(rules: seq<Rule>, data: Row, row: Row) {
    && (forall c :: c in row <==> exists rule | rule in rules :: rule.slug == c)
    && forall c | c in row :: row[c] == if c in data then data[c] else Null
  }

  /** Every relation in `data` names a row of its table, or is null. */
  ghost predicate Resolves(store: Store, rules: seq<Rule>, data: Row) {
    forall rule | rule in rules && rule.dataType == PhysicalTable.RELATION && rule.slug in data && data[rule.slug] != Null ::
      rule.target.Some? && rule.target.value in store ==>
        exists id | id in store[rule.target.value].rows :: data[rule.slug] == Number(id as real)
  }

  lemma KnownPartIs(rules: seq<Rule>, payload: Row, data: Row)
    requires IsKnownPart(rules, payload, data)
    ensures Known(rules, payload) == data && data.Keys <= Slugs(rules)
  {
    forall c
      ensures c in Slugs(rules) <==> exists rule | rule in rules :: rule.slug == c
    {
    }
    hide Slugs;
    assert Known(rules, payload).Keys == data.Keys;
  }

  lemma {:induction false} TypeOfField(rules: seq<Rule>, rule: Rule)
    requires SlugsDistinct(rules) && rule in rules
    ensures rule.slug in Slugs(rules) && TypeOf(rules, rule.slug) == rule.dataType
  {
    if rules[0].slug == rule.slug {
      assert rules[0] in rules;
    } else {
      assert forall r | r in rules[1..] :: r in rules;
      TypeOfField(rules[1..], rule);
    }
  }

  /** Data can be stored if and only if its columns keep it, as exactly one row. */
  lemma KeptIff(rules: seq<Rule>, keep: Keep, data: Row, kept: Row)
    requires SlugsDistinct(rules) && data.Keys <= Slugs(rules)
    ensures IsKept(rules, keep, data, kept) <==> Storable(rules, keep, data) && kept == Kept(rules, keep, data)
  {
    forall rule | rule in rules && rule.slug in data
      ensures KeptCell(rules, keep, rule.slug, data[rule.slug]) ==
              if data[rule.slug] == Null then Some(Null) else keep(rule.dataType, data[rule.slug])
    {
      TypeOfField(rules, rule);
    }
    forall c | c in data
      ensures exists rule | rule in rules :: rule.slug == c
    {
      assert c in Slugs(rules);
    }
    hide Slugs, SlugsDistinct, TypeOf;
    if IsKept(rules, keep, data, kept) {
      forall c | c in data
        ensures KeptCell(rules, keep, c, data[c]) == Some(kept[c])
      {
        var rule :| rule in rules && rule.slug == c;
      }
      hide KeptCell;
    }
  }

  lemma ResolvesIff(store: Store, rules: seq<Rule>, data: Row)
    ensures Resolves(store, rules, data) <==> !AnyDangling(store, rules, data)
  {
    forall rule | rule in rules && rule.slug in data && IsReference(store, rule) && data[rule.slug] != Null
      ensures (exists id | id in store[rule.target.value].rows :: PointsTo(data[rule.slug], id)) <==>
              exists id | id in store[rule.target.value].rows :: data[rule.slug] == Number(id as real)
    {
    }
    if !AnyDangling(store, rules, data) {
      forall rule | rule in rules && rule.dataType == PhysicalTable.RELATION && rule.slug in data && data[rule.slug] != Null
                    && rule.target.Some? && rule.target.value in store
        ensures exists id | id in store[rule.target.value].rows :: data[rule.slug] == Number(id as real)
      {
        assert !Dangling(store, rule, data[rule.slug]);
        var id :| id in store[rule.target.value].rows && PointsTo(data[rule.slug], id);
      }
    }
  }

  /** An update in terms of what it stores. */
  lemma UpdateAnswers(store: Store, table: nat, id: nat, payload: Row, data: Row, isDate: string -> bool, keep: Keep)
    requires table in store && id in store[table].rows
    requires data == Known(store[table].rules, payload)
    ensures var t, (after, response) := store[table], Handle(store, Update(table, id, payload), isDate, keep);
            && (response == Invalid <==> !Accepts(t.rules, data, true, isDate))
            && (response == NothingToUpdate <==> data == map[] && Accepts(t.rules, data, true, isDate))
            && (response == Written <==>
                  && Accepts(t.rules, data, true, isDate) && data != map[] && Storable(t.rules, keep, data)
                  && !NullRefused(t, Kept(t.rules, keep, data)) && !AnyDangling(store, t.rules, Kept(t.rules, keep, data)))
            && after == if response == Written then Put(store, table, id, t.rows[id] + Kept(t.rules, keep, data)) else store
  {
    hide Accepts, Known, Storable, Kept, NullRefused, AnyDangling, Put;
  }

  /**
   * An update of a valid row is written if and only if its known part is not
   * empty, the row with that part merged in is valid under the full rules, and
   * what the columns keep of it is not a refused null and names existing rows;
   * then the row is the old one with the kept cells, and nothing else changes.
   */
  lemma UpdateIsWrittenIff(store: Store, table: nat, id: nat, payload: Row, data: Row, isDate: string -> bool, keep: Keep)
    requires table in store && id in store[table].rows && SlugsDistinct(store[table].rules)
    requires ValidRow(store[table].rules, store[table].rows[id], isDate) && IsKnownPart(store[table].rules, payload, data)
    ensures var t, (after, response) := store[table], Handle(store, Update(table, id, payload), isDate, keep);
            && (response == Written <==>
                  && data != map[] && ValidRow(t.rules, t.rows[id] + data, isDate)
                  && exists kept :: IsKept(t.rules, keep, data, kept) && Resolves(store, t.rules, kept)
                                    && forall c | c in t.notNull && c in kept :: kept[c] != Null)
            && (response == Written ==>
                  exists kept :: IsKept(t.rules, keep, data, kept)
                                 && after == store[table := t.(rows := t.rows[id := t.rows[id] + kept])])
            && (response != Written ==> after == store)
            && (response == Invalid <==> !ValidRow(t.rules, t.rows[id] + data, isDate))
            && (response == NothingToUpdate <==> data == map[])
  {
    var t := store[table];
    KnownPartIs(t.rules, payload, data);
    PatchKeepsValid(t.rules, t.rows[id], data, isDate);
    if data == map[] {
      assert t.rows[id] + data == t.rows[id];
    }
    forall kept
      ensures IsKept(t.rules, keep, data, kept) <==> Storable(t.rules, keep, data) && kept == Kept(t.rules, keep, data)
    {
      KeptIff(t.rules, keep, data, kept);
    }
    UpdateAnswers(store, table, id, payload, data, isDate, keep);
    hide Handle, Storable, Kept, IsKept, ValidRow, Accepts, AnyDangling, Resolves, SlugsDistinct, Known, IsKnownPart;
    if Storable(t.rules, keep, data) {
      var kept := Kept(t.rules, keep, data);
      assert IsKept(t.rules, keep, data, kept);
      ResolvesIff(store, t.rules, kept);
    }
  }

  /**
   * A new row is written if and only if its id is free, its known part with
   * null for the missing fields is valid, and what the columns keep of it is
   * not a refused null and names existing rows, the new one among them; then
   * the kept row is added and nothing else changes.
   */
  lemma CreateIsWrittenIff(store: Store, table: nat, newId: nat, payload: Row, data: Row, filled: Row,
                           isDate: string -> bool, keep: Keep)
    requires table in store && SlugsDistinct(store[table].rules)
    requires IsKnownPart(store[table].rules, payload, data) && IsFilled(store[table].rules, data, filled)
    ensures var t, (after, response) := store[table], Handle(store, Create(table, payload, newId), isDate, keep);
            && (response == Written <==>
                  && newId !in t.rows && ValidRow(t.rules, filled, isDate)
                  && exists kept :: IsKept(t.rules, keep, filled, kept)
                                    && Resolves(store[table := t.(rows := t.rows[newId := kept])], t.rules, kept)
                                    && forall c | c in t.notNull && c in kept :: kept[c] != Null)
            && (response == Written ==>
                  exists kept :: IsKept(t.rules, keep, filled, kept)
                                 && after == store[table := t.(rows := t.rows[newId := kept])])
            && (response != Written ==> after == store)
            && (response == Invalid <==> !ValidRow(t.rules, filled, isDate))
  {
    var t := store[table];
    KnownPartIs(t.rules, payload, data);
    FilledIs(t.rules, data, filled);
    AcceptedIsStoredValid(t.rules, payload, isDate);
    forall kept
      ensures IsKept(t.rules, keep, filled, kept) <==>
              Storable(t.rules, keep, data) && kept == Stored(t.rules, Kept(t.rules, keep, data))
    {
      FilledKept(t.rules, keep, data, filled, kept);
    }
    hide Storable, Kept, IsKept, ValidRow, Accepts, AnyDangling, Resolves, SlugsDistinct, Known, IsKnownPart, IsFilled;
    if Storable(t.rules, keep, data) {
      var kept, row := Kept(t.rules, keep, data), Stored(t.rules, Kept(t.rules, keep, data));
      assert IsKept(t.rules, keep, filled, row);
      StoredDangles(Put(store, table, newId, row), t.rules, kept);
      ResolvesIff(Put(store, table, newId, row), t.rules, row);
    }
    hide Stored;
  }

  lemma FilledIs(rules: seq<Rule>, data: Row, filled: Row)
    requires data.Keys <= Slugs(rules) && IsFilled(rules, data, filled)
    ensures filled == Stored(rules, data)
  {
    assert forall c :: c in Slugs(rules) <==> exists rule | rule in rules :: rule.slug == c;
    hide Slugs;
    assert filled.Keys == Stored(rules, data).Keys;
  }

  /** Missing fields are kept as null. */
  lemma FilledKept(rules: seq<Rule>, keep: Keep, data: Row, filled: Row, kept: Row)
    requires SlugsDistinct(rules) && data.Keys <= Slugs(rules) && filled == Stored(rules, data)
    ensures IsKept(rules, keep, filled, kept) <==> Storable(rules, keep, data) && kept == Stored(rules, Kept(rules, keep, data))
  {
    KeptIff(rules, keep, filled, kept);
    hide SlugsDistinct, TypeOf, Slugs, IsKept;
    assert Storable(rules, keep, filled) <==> Storable(rules, keep, data) by {
      if Storable(rules, keep, filled) {
        assert forall c | c in data :: filled[c] == data[c];
      }
    }
    if Storable(rules, keep, data) {
      assert Kept(rules, keep, filled) == Stored(rules, Kept(rules, keep, data));
    }
  }

  lemma StoredDangles(store: Store, rules: seq<Rule>, data: Row)
    requires data.Keys <= Slugs(rules)
    ensures AnyDangling(store, rules, Stored(rules, data)) <==> AnyDangling(store, rules, data)
  {
    var row := Stored(rules, data);
    forall rule | rule in rules && rule.slug in data
      ensures rule.slug in row && row[rule.slug] == data[rule.slug]
    {
    }
    hide Stored;
    forall rule | rule in rules && rule.slug in row && Dangling(store, rule, row[rule.slug])
      ensures rule.slug in data
    {
      StoredCell(rules, data, rule.slug);
    }
    hide Dangling;
  }

  lemma StoredCell(rules: seq<Rule>, data: Row, c: string)
    requires c in Stored(rules, data) && Stored(rules, data)[c] != Null
    ensures c in data
  {
  }

  /** A relation field of the table with these rules has the deleted row in cell `c`. */
  ghost predicate Links(rules: seq<Rule>, row: Row, c: string, table: nat, id: nat) {
    c in row && row[c] == Number(id as real) &&
    exists rule | rule in rules :: rule.slug == c && rule.dataType == PhysicalTable.RELATION && rule.target == Some(table)
  }

  /**
   * An existing row is deleted if and only if no other row has it in a relation
   * whose column refuses null; then it is gone, every relation to it is null,
   * and nothing else changes: not even an equal number in a relation to another table.
   */
  lemma DeleteIsWrittenIff(store: Store, table: nat, id: nat, isDate: string -> bool, keep: Keep)
    requires table in store && id in store[table].rows
    ensures var (after, response) := Handle(store, Delete(table, id), isDate, keep);
            && (response == Written <==>
                  forall t, r, c | t in store && r in store[t].rows && !(t == table && r == id) && c in store[t].notNull ::
                    !Links(store[t].rules, store[t].rows[r], c, table, id))
            && (response != Written ==> response == DatabaseError && after == store)
            && (response == Written ==>
                  && after.Keys == store.Keys
                  && forall t | t in store ::
                       && after[t].rules == store[t].rules && after[t].notNull == store[t].notNull
                       && (forall r :: r in after[t].rows <==> r in store[t].rows && !(t == table && r == id))
                       && forall r | r in after[t].rows ::
                            && after[t].rows[r].Keys == store[t].rows[r].Keys
                            && forall c | c in after[t].rows[r] ::
                                 after[t].rows[r][c] ==
                                 if Links(store[t].rules, store[t].rows[r], c, table, id) then Null else store[t].rows[r][c])
  {
    forall t, r, c | t in store && r in store[t].rows
      ensures Links(store[t].rules, store[t].rows[r], c, table, id) <==> RefersTo(store[t].rules, store[t].rows[r], c, table, id)
    {
    }
    hide Links, RefersTo;
  }

  // ----- validity over every run ---------------------------------------

  /** Every row of every table satisfies the whole schema of its table. */
  ghost predicate RowsValid(store: Store, isDate: string -> bool) {
    forall t, r | t in store && r in store[t].rows :: ValidRow(store[t].rules, store[t].rows[r], isDate)
  }

  /** Relations point to existing rows. */
  ghost predicate ReferencesHold(store: Store) {
    forall t, r, rule | t in store && r in store[t].rows && rule in store[t].rules ::
      rule.slug in store[t].rows[r] ==> !Dangling(store, rule, store[t].rows[r][rule.slug])
  }

  /** Slugs are unique in a table. */
  ghost predicate SlugsDistinct(rules: seq<Rule>) {
    forall a, b | a in rules && b in rules :: a.slug == b.slug ==> a == b
  }

  /** A relation that must not be null is a column that refuses null. */
  ghost predicate RequiredIsNotNull(store: Store) {
    forall t, rule | t in store && rule in store[t].rules ::
      rule.required && rule.dataType == PhysicalTable.RELATION ==> rule.slug in store[t].notNull
  }

  ghost predicate SameSchema(s: Store, s': Store) {
    s.Keys == s'.Keys && forall t | t in s :: s[t].rules == s'[t].rules && s[t].notNull == s'[t].notNull
  }

  ghost predicate Schemas(store: Store) {
    RequiredIsNotNull(store) && forall t | t in store :: SlugsDistinct(store[t].rules)
  }

  lemma PutKeepsValidIff(store: Store, table: nat, id: nat, row: Row, isDate: string -> bool)
    requires RowsValid(store, isDate) && table in store
    ensures RowsValid(Put(store, table, id, row), isDate) <==> ValidRow(store[table].rules, row, isDate)
    ensures SameSchema(store, Put(store, table, id, row))
  {
    hide ValidRow;
    assert Put(store, table, id, row)[table].rows[id] == row;
  }

  /** The cells of an accepted write, as they are kept, still pass the rules that its payload passed. */
  ghost predicate KeptFits(store: Store, r: Request, isDate: string -> bool, keep: Keep)
    requires !r.Delete? && Handle(store, r, isDate, keep).1 == Written
  {
    var rules := store[r.table].rules;
    Accepts(rules, Kept(rules, keep, Known(rules, r.payload)), true, isDate)
  }

  /** An accepted write keeps every row valid if and only if what its columns keep still fits the rules. */
  lemma WriteKeepsValidIff(store: Store, r: Request, isDate: string -> bool, keep: Keep)
    requires RowsValid(store, isDate) && !r.Delete? && Handle(store, r, isDate, keep).1 == Written
    ensures RowsValid(Handle(store, r, isDate, keep).0, isDate) <==> KeptFits(store, r, isDate, keep)
    ensures SameSchema(store, Handle(store, r, isDate, keep).0)
  {
    var t := store[r.table];
    var data := Known(t.rules, r.payload);
    var kept := Kept(t.rules, keep, data);
    if r.Create? {
      assert Known(t.rules, kept) == kept;
      AcceptedIsStoredValid(t.rules, kept, isDate);
      FullIffPartial(t.rules, data, kept, isDate);
      PutKeepsValidIff(store, r.table, r.newId, Stored(t.rules, kept), isDate);
    } else {
      PatchKeepsValid(t.rules, t.rows[r.id], kept, isDate);
      PutKeepsValidIff(store, r.table, r.id, t.rows[r.id] + kept, isDate);
    }
    hide Accepts, ValidRow, AnyDangling, NullRefused, Put, RowsValid;
  }

  /** With the same fields given, nothing is missing that was not missing before. */
  lemma FullIffPartial(rules: seq<Rule>, data: Row, kept: Row, isDate: string -> bool)
    requires Accepts(rules, data, false, isDate) && kept.Keys == data.Keys
    ensures Accepts(rules, kept, false, isDate) <==> Accepts(rules, kept, true, isDate)
  {
    forall rule, reason | rule in rules
      ensures Breaks(rule, kept, false, isDate, reason) == Breaks(rule, kept, true, isDate, reason)
    {
      assert !Breaks(rule, data, false, isDate, reason);
    }
  }

  /** The row refers to the deleted one through a field its schema requires. */
  ghost predicate LosesRequired(rules: seq<Rule>, row: Row, target: nat, id: nat) {
    exists rule | rule in rules :: rule.required && RefersTo(rules, row, rule.slug, target, id)
  }

  lemma UnlinkKeepsValidIff(rules: seq<Rule>, row: Row, target: nat, id: nat, isDate: string -> bool)
    requires ValidRow(rules, row, isDate) && SlugsDistinct(rules)
    ensures ValidRow(rules, Unlinked(rules, row, target, id), isDate) <==> !LosesRequired(rules, row, target, id)
  {
    var row' := Unlinked(rules, row, target, id);
    forall rule | rule in rules && rule.required && RefersTo(rules, row, rule.slug, target, id)
      ensures Breaks(rule, row', false, isDate, Missing)
    {
    }
    forall rule, reason | rule in rules && !(rule.required && RefersTo(rules, row, rule.slug, target, id))
      ensures !Breaks(rule, row', false, isDate, reason)
    {
      assert rule.slug in Slugs(rules);
      assert !Breaks(rule, row, false, isDate, reason);
    }
  }

  ghost predicate RequiredReferenceLost(store: Store, table: nat, id: nat) {
    exists t, r | t in store && r in store[t].rows ::
      !(t == table && r == id) && LosesRequired(store[t].rules, store[t].rows[r], table, id)
  }

  /** A delete that the database allows keeps every row valid exactly when no required reference is lost. */
  lemma DeleteKeepsValidIff(store: Store, table: nat, id: nat, isDate: string -> bool)
    requires RowsValid(store, isDate) && table in store && id in store[table].rows
    requires forall t | t in store :: SlugsDistinct(store[t].rules)
    ensures RowsValid(AfterDelete(store, table, id), isDate) <==> !RequiredReferenceLost(store, table, id)
  {
    var after := AfterDelete(store, table, id);
    hide ValidRow, LosesRequired, Unlinked, SlugsDistinct;
    forall t, r | t in store && r in store[t].rows
      ensures ValidRow(store[t].rules, Unlinked(store[t].rules, store[t].rows[r], table, id), isDate) <==>
              !LosesRequired(store[t].rules, store[t].rows[r], table, id)
    {
      UnlinkKeepsValidIff(store[t].rules, store[t].rows[r], table, id, isDate);
    }
    forall t | t in store
      ensures after[t].rules == store[t].rules
      ensures forall r :: r in after[t].rows <==> r in store[t].rows && !(t == table && r == id)
      ensures forall r | r in after[t].rows :: after[t].rows[r] == Unlinked(store[t].rules, store[t].rows[r], table, id)
    {
    }
    hide AfterDelete;
  }

  lemma DeleteKeepsValid(store: Store, r: Request, isDate: string -> bool, keep: Keep)
    requires RowsValid(store, isDate) && Schemas(store) && r.Delete?
    ensures RowsValid(Handle(store, r, isDate, keep).0, isDate) && SameSchema(store, Handle(store, r, isDate, keep).0)
  {
    if r.table in store && r.id in store[r.table].rows && !DeleteRefused(store, r.table, r.id) {
      DeleteKeepsValidIff(store, r.table, r.id, isDate);
      forall t, row | t in store && row in store[t].rows && !(t == r.table && row == r.id)
        ensures !LosesRequired(store[t].rules, store[t].rows[row], r.table, r.id)
      {
      }
      hide RowsValid, RefersTo, LosesRequired;
    }
  }

  /** What the request writes, if it writes, fits. */
  ghost predicate Fits(store: Store, r: Request, isDate: string -> bool, keep: Keep) {
    !r.Delete? && Handle(store, r, isDate, keep).1 == Written ==> KeptFits(store, r, isDate, keep)
  }

  lemma HandleKeepsValidIff(store: Store, r: Request, isDate: string -> bool, keep: Keep)
    requires RowsValid(store, isDate) && Schemas(store)
    ensures RowsValid(Handle(store, r, isDate, keep).0, isDate) <==> Fits(store, r, isDate, keep)
    ensures SameSchema(store, Handle(store, r, isDate, keep).0)
  {
    hide Accepts, AnyDangling, NullRefused, DeleteRefused, AfterDelete, Put, Kept, RowsValid, KeptFits;
    if r.Delete? {
      DeleteKeepsValid(store, r, isDate, keep);
    } else if Handle(store, r, isDate, keep).1 == Written {
      WriteKeepsValidIff(store, r, isDate, keep);
    }
  }

  ghost function HandleAll(store: Store, rs: seq<Request>, isDate: string -> bool, keep: Keep): Store
    decreases |rs|
  {
    if rs == [] then store else HandleAll(Handle(store, rs[0], isDate, keep).0, rs[1..], isDate, keep)
  }

  ghost predicate ValidThroughout(store: Store, rs: seq<Request>, isDate: string -> bool, keep: Keep)
    decreases |rs|
  {
    RowsValid(store, isDate) && (rs == [] || ValidThroughout(Handle(store, rs[0], isDate, keep).0, rs[1..], isDate, keep))
  }

  ghost predicate AllFit(store: Store, rs: seq<Request>, isDate: string -> bool, keep: Keep)
    decreases |rs|
  {
    rs == [] || (Fits(store, rs[0], isDate, keep) && AllFit(Handle(store, rs[0], isDate, keep).0, rs[1..], isDate, keep))
  }

  /**
   * Under a fixed schema, over every sequence of creates, partial updates and
   * deletes, accepted or not: every row stays valid against its whole schema
   * if and only if every accepted write fits as its columns keep it. Columns
   * are the fields of the schema, so no unknown key is ever stored.
   */
  lemma {:induction false} RowsStayValidIff(store: Store, rs: seq<Request>, isDate: string -> bool, keep: Keep)
    requires RowsValid(store, isDate) && Schemas(store)
    ensures ValidThroughout(store, rs, isDate, keep) <==> AllFit(store, rs, isDate, keep)
    ensures SameSchema(store, HandleAll(store, rs, isDate, keep))
    decreases |rs|
  {
    if rs != [] {
      var next := Handle(store, rs[0], isDate, keep).0;
      HandleKeepsValidIff(store, rs[0], isDate, keep);
      SchemaKept(store, rs[1..], next, isDate, keep);
      hide Handle, RowsValid, Fits;
      if RowsValid(next, isDate) {
        RowsStayValidIff(next, rs[1..], isDate, keep);
      }
    }
  }

  lemma HandleKeepsSchema(store: Store, r: Request, isDate: string -> bool, keep: Keep)
    ensures SameSchema(store, Handle(store, r, isDate, keep).0)
  {
    hide Accepts, AnyDangling, NullRefused, DeleteRefused, Stored, Kept, Unlinked, Without;
  }

  /** No request changes a schema. */
  lemma {:induction false} SchemaKept(store: Store, rs: seq<Request>, next: Store, isDate: string -> bool, keep: Keep)
    requires SameSchema(store, next) && Schemas(store)
    ensures SameSchema(store, HandleAll(next, rs, isDate, keep)) && Schemas(next)
    decreases |rs|
  {
    if rs != [] {
      HandleKeepsSchema(next, rs[0], isDate, keep);
      hide Handle;
      SchemaKept(store, rs[1..], Handle(next, rs[0], isDate, keep).0, isDate, keep);
    }
  }

  /** Columns that keep a value as it is, or refuse it. */
  ghost predicate KeepsAsGiven(keep: Keep) {
    forall dataType, v :: keep(dataType, v).Some? ==> keep(dataType, v).value == v
  }

  /** With columns that keep values as given, rows stay valid without any further condition. */
  lemma {:induction false} RowsStayValid(store: Store, rs: seq<Request>, isDate: string -> bool, keep: Keep)
    requires RowsValid(store, isDate) && Schemas(store) && KeepsAsGiven(keep)
    ensures ValidThroughout(store, rs, isDate, keep)
    decreases |rs|
  {
    if rs != [] {
      GivenFits(store, rs[0], isDate, keep);
      HandleKeepsValidIff(store, rs[0], isDate, keep);
      SchemaKept(store, [], Handle(store, rs[0], isDate, keep).0, isDate, keep);
      hide Handle, RowsValid, Fits;
      RowsStayValid(Handle(store, rs[0], isDate, keep).0, rs[1..], isDate, keep);
    }
  }

  lemma GivenFits(store: Store, r: Request, isDate: string -> bool, keep: Keep)
    requires KeepsAsGiven(keep)
    ensures Fits(store, r, isDate, keep)
  {
    if !r.Delete? && Handle(store, r, isDate, keep).1 == Written {
      var rules := store[r.table].rules;
      var data := Known(rules, r.payload);
      assert Kept(rules, keep, data) == data;
      hide AnyDangling, NullRefused;
      assert forall rule, reason | rule in rules ::
          Breaks(rule, data, true, isDate, reason) ==> Breaks(rule, data, false, isDate, reason);
    }
  }

  // ----- number columns ------------------------------------------------

  /** The library's precision and scale of a `decimal` column that names none: 8 digits, 2 of them decimals. */
  const DECIMAL_LIMIT := 1000000.0

  /** To two decimals, halves away from zero. */
  function Rounded(n: real): real {
    if n >= 0.0 then (n * 100.0 + 0.5).Floor as real / 100.0 else -((-n * 100.0 + 0.5).Floor as real / 100.0)
  }

  /** Number columns round, or overflow; the other columns keep what they are given. */
  function DecimalColumns(dataType: PhysicalTable.FieldDataType, v: Value): Option<Value> {
    if dataType != PhysicalTable.NUMBER || !v.Number? then Some(v)
    else if -DECIMAL_LIMIT < Rounded(v.n) < DECIMAL_LIMIT then Some(Number(Rounded(v.n)))
    else None
  }

  lemma RoundingIsMonotone(a: real, b: real)
    requires a <= b
    ensures Rounded(a) <= Rounded(b)
  {
    if a >= 0.0 {
      assert (a * 100.0 + 0.5).Floor <= (b * 100.0 + 0.5).Floor;
    } else if b < 0.0 {
      assert (-b * 100.0 + 0.5).Floor <= (-a * 100.0 + 0.5).Floor;
    }
  }

  /** A configured bound survives the rounding of every number it admits if and only if it survives its own. */
  lemma BoundsSurviveRoundingIff(bound: real)
    ensures (forall n | bound <= n :: bound <= Rounded(n)) <==> bound <= Rounded(bound)
    ensures (forall n | n <= bound :: Rounded(n) <= bound) <==> Rounded(bound) <= bound
  {
    forall n | bound <= n
      ensures Rounded(bound) <= Rounded(n)
    {
      RoundingIsMonotone(bound, n);
    }
    forall n | n <= bound
      ensures Rounded(n) <= Rounded(bound)
    {
      RoundingIsMonotone(n, bound);
    }
    assert bound <= bound;
    hide Rounded;
  }

  lemma ThousandthIsDropped()
    ensures Rounded(0.001) == 0.0
  {
    assert (0.001 * 100.0 + 0.5).Floor == 0;
  }

  /** What a table with one number field stores of a first row. */
  lemma OneNumberStored(rule: Rule, n: real, table: nat, id: nat, isDate: string -> bool)
    requires rule.dataType == PhysicalTable.NUMBER && -DECIMAL_LIMIT < Rounded(n) < DECIMAL_LIMIT
    requires forall reason :: !OutOfBounds(rule, Number(n), reason)
    ensures var store := map[table := RowTable([rule], {}, map[])];
            Handle(store, Create(table, map[rule.slug := Number(n)], id), isDate, DecimalColumns) ==
            (Put(store, table, id, map[rule.slug := Number(Rounded(n))]), Written)
  {
    var rules := [rule];
    var data: Row := map[rule.slug := Number(n)];
    var kept: Row := map[rule.slug := Number(Rounded(n))];
    assert rule in rules && Slugs(rules) == {rule.slug};
    hide Rounded;
    assert Known(rules, data) == data;
    assert Kept(rules, DecimalColumns, data) == kept;
    assert Stored(rules, kept) == kept;
  }

  /** The failing input: 0.001 satisfies a minimum of 0.001, is accepted, and is stored as 0.00. */
  lemma RoundingBreaksMinimum(table: nat, id: nat, slug: string, isDate: string -> bool)
    ensures var rule := Rule(slug, PhysicalTable.NUMBER, true, None, None, Some(0.001), None, None, None);
            var store := map[table := RowTable([rule], {}, map[])];
            var (after, response) := Handle(store, Create(table, map[slug := Number(0.001)], id), isDate, DecimalColumns);
            && RowsValid(store, isDate) && response == Written
            && after[table].rows == map[id := map[slug := Number(0.0)]] && !RowsValid(after, isDate)
  {
    var rule := Rule(slug, PhysicalTable.NUMBER, true, None, None, Some(0.001), None, None, None);
    var store := map[table := RowTable([rule], {}, map[])];
    var kept: Row := map[slug := Number(0.0)];
    ThousandthIsDropped();
    hide Rounded, Handle;
    OneNumberStored(rule, 0.001, table, id, isDate);
    assert rule in [rule] && Breaks(rule, kept, false, isDate, TooSmall);
    var after := Put(store, table, id, kept);
    assert !ValidRow(after[table].rules, after[table].rows[id], isDate);
  }

  // ----- references ----------------------------------------------------

  lemma PutKeepsReferences(store: Store, table: nat, id: nat, row: Row)
    requires ReferencesHold(store) && table in store
    requires forall rule | rule in store[table].rules && rule.slug in row ::
               !Dangling(Put(store, table, id, row), rule, row[rule.slug])
    ensures ReferencesHold(Put(store, table, id, row))
  {
    var after := Put(store, table, id, row);
    forall t, rule, v | t in store && rule in store[t].rules && !Dangling(store, rule, v)
      ensures !Dangling(after, rule, v)
    {
      if IsReference(store, rule) && v != Null {
        var i :| i in store[rule.target.value].rows && PointsTo(v, i);
        assert i in after[rule.target.value].rows;
      }
    }
    hide Dangling;
  }

  lemma WriteKeepsReferences(store: Store, r: Request, isDate: string -> bool, keep: Keep)
    requires ReferencesHold(store) && !r.Delete?
    ensures ReferencesHold(Handle(store, r, isDate, keep).0)
  {
    if Handle(store, r, isDate, keep).1 == Written {
      var t := store[r.table];
      var kept := Kept(t.rules, keep, Known(t.rules, r.payload));
      match r
      case Create(table, payload, newId) =>
        PutKeepsReferences(store, table, newId, Stored(t.rules, kept));
      case Update(table, id, payload) =>
        UpdatedRowRefers(store, table, id, kept);
        PutKeepsReferences(store, table, id, t.rows[id] + kept);
    }
  }

  lemma UpdatedRowRefers(store: Store, table: nat, id: nat, data: Row)
    requires ReferencesHold(store) && table in store && id in store[table].rows
    requires !AnyDangling(store, store[table].rules, data)
    ensures var row := store[table].rows[id] + data;
            forall rule | rule in store[table].rules && rule.slug in row ::
              !Dangling(Put(store, table, id, row), rule, row[rule.slug])
  {
    var row := store[table].rows[id] + data;
    var after := Put(store, table, id, row);
    forall rule | rule in store[table].rules && rule.slug in row
      ensures !Dangling(after, rule, row[rule.slug])
    {
      assert !Dangling(store, rule, row[rule.slug]);
      assert IsReference(store, rule) ==> after[rule.target.value].rows.Keys == store[rule.target.value].rows.Keys;
    }
  }

  lemma DeleteKeepsReferences(store: Store, table: nat, id: nat)
    requires ReferencesHold(store) && table in store && id in store[table].rows
    ensures ReferencesHold(AfterDelete(store, table, id))
  {
    var after := AfterDelete(store, table, id);
    forall t, r, rule | t in after && r in after[t].rows && rule in after[t].rules && rule.slug in after[t].rows[r]
      ensures !Dangling(after, rule, after[t].rows[r][rule.slug])
    {
      var v := store[t].rows[r][rule.slug];
      assert !Dangling(store, rule, v);
      if IsReference(store, rule) && v != Null {
        var i :| i in store[rule.target.value].rows && PointsTo(v, i);
        if rule.target.value == table && i == id {
          assert RefersTo(store[t].rules, store[t].rows[r], rule.slug, table, id);
        } else {
          assert i in after[rule.target.value].rows;
        }
      }
    }
  }

  /** No sequence of requests leaves a relation pointing at a row that is gone. */
  lemma {:induction false} ReferencesStayResolved(store: Store, rs: seq<Request>, isDate: string -> bool, keep: Keep)
    requires ReferencesHold(store)
    ensures ReferencesHold(HandleAll(store, rs, isDate, keep))
    decreases |rs|
  {
    hide ReferencesHold;
    if rs != [] {
      HandleKeepsReferences(store, rs[0], isDate, keep);
      hide Handle;
      ReferencesStayResolved(Handle(store, rs[0], isDate, keep).0, rs[1..], isDate, keep);
    }
  }

  lemma HandleKeepsReferences(store: Store, r: Request, isDate: string -> bool, keep: Keep)
    requires ReferencesHold(store)
    ensures ReferencesHold(Handle(store, r, isDate, keep).0)
  {
    hide ReferencesHold;
    if r.Delete? {
      if r.table in store && r.id in store[r.table].rows {
        DeleteKeepsReferences(store, r.table, r.id);
      }
    } else {
      WriteKeepsReferences(store, r, isDate, keep);
    }
  }

  // ----- what a write changes ------------------------------------------

  /** An accepted write stores the known fields as their columns keep them and changes no other cell of any table. */
  lemma WriteTouchesGivenCells(store: Store, r: Request, isDate: string -> bool, keep: Keep)
    requires !r.Delete? && Handle(store, r, isDate, keep).1 == Written
    ensures var (after, id) := (Handle(store, r, isDate, keep).0, if r.Create? then r.newId else r.id);
            && SameSchema(store, after)
            && (forall t | t in store :: after[t].rows.Keys == store[t].rows.Keys + if t == r.table then {id} else {})
            && (forall t, row | t in store && row in store[t].rows && !(t == r.table && row == id) ::
                  after[t].rows[row] == store[t].rows[row])
            && (forall c | c in Slugs(store[r.table].rules) && c in r.payload ::
                  Some(Cell(after[r.table].rows[id], c)) == KeptCell(store[r.table].rules, keep, c, r.payload[c]))
            && (forall c | c in Slugs(store[r.table].rules) && c !in r.payload ::
                  Cell(after[r.table].rows[id], c) == if r.Create? then Null else Cell(store[r.table].rows[id], c))
  {
    hide Accepts, AnyDangling, NullRefused;
  }
}
