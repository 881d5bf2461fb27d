/**
 * Field rules of a table and what they say about a row payload: the loop that
 * collects every violation, and the declarative rules it must agree with.
 */
module FieldRules {
  import opened Wrappers
  import PhysicalTable

  /** A JSON value; objects and arrays are kept as text. */
  datatype Value = Null | Bool(b: bool) | Number(n: real) | Text(s: string) | Json(j: string)

  type Row = map<string, Value>

  /** `choices` is the `enum` of the field's configuration. */
  datatype Rule = Rule(
    slug: string, dataType: PhysicalTable.FieldDataType, required: bool,
    minLength: Option<real>, maxLength: Option<real>, min: Option<real>, max: Option<real>,
    choices: Option<seq<Value>>, target: Option<nat>)

  datatype Reason = Missing | WrongType | TooShort | TooLong | TooSmall | TooLarge | NotAChoice

  datatype Violation = Violation(slug: string, reason: Reason)

  function Cell(row: Row, column: string): Value {
    if column in row then row[column] else Null
  }

  predicate IsInteger(n: real) {
    n == n.Floor as real
  }

  /** `isDate` says which strings the date parser accepts. */
  predicate TypeMatches(dataType: PhysicalTable.FieldDataType, v: Value, isDate: string -> bool) {
    match dataType
    case STRING | TEXT | EMAIL | URL | SELECT => v.Text?
    case NUMBER => v.Number?
    case BOOLEAN => v.Bool?
    case DATE | DATETIME => v.Text? && isDate(v.s)
    case JSON => v.Json? || v == Null
    case RELATION => v.Number? && IsInteger(v.n)
  }

  predicate Below(n: real, bound: Option<real>) {
    bound.Some? && n < bound.value
  }

  predicate Above(n: real, bound: Option<real>) {
    bound.Some? && bound.value < n
  }

  /** Membership as `includes` sees it: objects are never identical to configured ones. */
  predicate IsChoice(v: Value, choices: seq<Value>) {
    v in choices && !v.Json?
  }

  /** A constraint of the configuration that a value of the right type breaks. */
  predicate OutOfBounds(rule: Rule, v: Value, reason: Reason) {
    match reason
    case Missing | WrongType => false
    case TooShort => v.Text? && Below(|v.s| as real, rule.minLength)
    case TooLong => v.Text? && Above(|v.s| as real, rule.maxLength)
    case TooSmall => v.Number? && Below(v.n, rule.min)
    case TooLarge => v.Number? && Above(v.n, rule.max)
    case NotAChoice => rule.choices.Some? && !IsChoice(v, rule.choices.value)
  }

  /** Rule by rule, what is wrong with a payload; a partial payload may leave fields out. */
  predicate Breaks(rule: Rule, payload: Row, partial: bool, isDate: string -> bool, reason: Reason) {
    if rule.slug !in payload then reason == Missing && rule.required && !partial
    else if payload[rule.slug] == Null then reason == Missing && rule.required
    else if !TypeMatches(rule.dataType, payload[rule.slug], isDate) then reason == WrongType
    else OutOfBounds(rule, payload[rule.slug], reason)
  }

  ghost predicate Accepts(rules: seq<Rule>, payload: Row, partial: bool, isDate: string -> bool) {
    forall rule, reason | rule in rules :: !Breaks(rule, payload, partial, isDate, reason)
  }

  method CheckFieldConstraints(rule: Rule, v: Value) returns (errors: seq<Violation>)
    ensures forall e :: e in errors <==> (e.slug == rule.slug && OutOfBounds(rule, v, e.reason))
  {
    errors := [];
    if v.Text? && rule.minLength.Some? && |v.s| as real < rule.minLength.value {
      errors := errors + [Violation(rule.slug, TooShort)];
    }
    if v.Text? && rule.maxLength.Some? && rule.maxLength.value < |v.s| as real {
      errors := errors + [Violation(rule.slug, TooLong)];
    }
    if v.Number? && rule.min.Some? && v.n < rule.min.value {
      errors := errors + [Violation(rule.slug, TooSmall)];
    }
    if v.Number? && rule.max.Some? && rule.max.value < v.n {
      errors := errors + [Violation(rule.slug, TooLarge)];
    }
    if rule.choices.Some? && (v.Json? || v !in rule.choices.value) {
      errors := errors + [Violation(rule.slug, NotAChoice)];
    }
  }

  /** What `e` complains about is broken in one of the rules. */
  ghost predicate Justified(rules: seq<Rule>, payload: Row, partial: bool, isDate: string -> bool, e: Violation) {
    exists rule | rule in rules :: rule.slug == e.slug && Breaks(rule, payload, partial, isDate, e.reason)
  }

  lemma JustifiedStep(rules: seq<Rule>, rule: Rule, payload: Row, partial: bool, isDate: string -> bool, e: Violation)
    ensures Justified(rules + [rule], payload, partial, isDate, e) <==>
            Justified(rules, payload, partial, isDate, e) ||
            (rule.slug == e.slug && Breaks(rule, payload, partial, isDate, e.reason))
  {
    hide Breaks;
    assert forall r | r in rules :: r in rules + [rule];
    assert rule in rules + [rule];
  }

  /** Collects every violation, and only violations; the payload is accepted when there is none. */
  method ValidateRowPayload(rules: seq<Rule>, payload: Row, partial: bool, isDate: string -> bool)
    returns (errors: seq<Violation>)
    ensures forall e :: e in errors <==> Justified(rules, payload, partial, isDate, e)
    ensures errors == [] <==> Accepts(rules, payload, partial, isDate)
  {
    hide Justified, Accepts;
    errors := [];
    NothingJustified(payload, partial, isDate);
    for i := 0 to |rules|
      invariant forall e :: e in errors <==> Justified(rules[..i], payload, partial, isDate, e)
    {
      var rule := rules[i];
      var own := [];
      if rule.slug !in payload {
        if rule.required && !partial {
          own := [Violation(rule.slug, Missing)];
        }
      } else if payload[rule.slug] == Null {
        if rule.required {
          own := [Violation(rule.slug, Missing)];
        }
      } else if !TypeMatches(rule.dataType, payload[rule.slug], isDate) {
        own := [Violation(rule.slug, WrongType)];
      } else {
        own := CheckFieldConstraints(rule, payload[rule.slug]);
      }
      assert forall e :: e in own <==> rule.slug == e.slug && Breaks(rule, payload, partial, isDate, e.reason);
      forall e {
        JustifiedStep(rules[..i], rule, payload, partial, isDate, e);
      }
      assert rules[..i] + [rule] == rules[..i + 1];
      errors := errors + own;
    }
    assert rules[..|rules|] == rules;
    AcceptedIffNothingJustified(rules, payload, partial, isDate);
    assert errors != [] ==> errors[0] in errors;
  }

  lemma NothingJustified(payload: Row, partial: bool, isDate: string -> bool)
    ensures forall e :: !Justified([], payload, partial, isDate, e)
  {
  }

  lemma AcceptedIffNothingJustified(rules: seq<Rule>, payload: Row, partial: bool, isDate: string -> bool)
    ensures Accepts(rules, payload, partial, isDate) <==> forall e :: !Justified(rules, payload, partial, isDate, e)
  {
    forall rule, reason | rule in rules && Breaks(rule, payload, partial, isDate, reason)
      ensures Justified(rules, payload, partial, isDate, Violation(rule.slug, reason))
    {
    }
  }

  function Slugs(rules: seq<Rule>): set<string> {
    set r | r in rules :: r.slug
  }

  /** The fields of the payload the table knows. */
  function Known(rules: seq<Rule>, payload: Row): Row {
    map c | c in payload && c in Slugs(rules) :: payload[c]
  }

  method PickKnownFields(rules: seq<Rule>, payload: Row) returns (data: Row)
    ensures data == Known(rules, payload)
  {
    data := map[];
    for i := 0 to |rules|
      invariant data == Known(rules[..i], payload)
    {
      assert Slugs(rules[..i + 1]) == Slugs(rules[..i]) + {rules[i].slug} by {
        assert rules[..i + 1] == rules[..i] + [rules[i]];
      }
      if rules[i].slug in payload {
        data := data[rules[i].slug := payload[rules[i].slug]];
      }
    }
    assert rules[..|rules|] == rules;
  }

  // ----- partial updates -----------------------------------------------

  /** A stored row: every field has a cell, and the full rules hold of it. */
  ghost predicate ValidRow(rules: seq<Rule>, row: Row, isDate: string -> bool) {
    row.Keys == Slugs(rules) && Accepts(rules, row, false, isDate)
  }

  /** An accepted new payload, its missing fields null, is a valid row. */
  function Stored(rules: seq<Rule>, data: Row): Row {
    map c | c in Slugs(rules) :: Cell(data, c)
  }

  lemma AcceptedIsStoredValid(rules: seq<Rule>, payload: Row, isDate: string -> bool)
    ensures Accepts(rules, Known(rules, payload), false, isDate) <==>
            ValidRow(rules, Stored(rules, Known(rules, payload)), isDate)
  {
    var data := Known(rules, payload);
    forall rule, reason | rule in rules
      ensures Breaks(rule, data, false, isDate, reason) == Breaks(rule, Stored(rules, data), false, isDate, reason)
    {
      assert rule.slug in Slugs(rules);
    }
  }

  const TEXTUAL :=
    {PhysicalTable.STRING, PhysicalTable.TEXT, PhysicalTable.EMAIL, PhysicalTable.URL, PhysicalTable.SELECT}

  /** A cell the field allows: null unless required, or of the type, within the bounds and among the choices. */
  ghost predicate Allows(rule: Rule, v: Value, isDate: string -> bool) {
    if v == Null then !rule.required
    else
      && (rule.dataType in TEXTUAL ==> v.Text?)
      && (rule.dataType == PhysicalTable.NUMBER ==> v.Number?)
      && (rule.dataType == PhysicalTable.BOOLEAN ==> v.Bool?)
      && (rule.dataType == PhysicalTable.DATE || rule.dataType == PhysicalTable.DATETIME ==> v.Text? && isDate(v.s))
      && (rule.dataType == PhysicalTable.JSON ==> v.Json?)
      && (rule.dataType == PhysicalTable.RELATION ==> v.Number? && v.n == v.n.Floor as real)
      && (v.Text? && rule.minLength.Some? ==> rule.minLength.value <= |v.s| as real)
      && (v.Text? && rule.maxLength.Some? ==> |v.s| as real <= rule.maxLength.value)
      && (v.Number? && rule.min.Some? ==> rule.min.value <= v.n)
      && (v.Number? && rule.max.Some? ==> v.n <= rule.max.value)
      && (rule.choices.Some? ==> !v.Json? && v in rule.choices.value)
  }

  /** A row is valid if and only if it has a cell for each field and no other, and each field allows its cell. */
  lemma ValidRowIff(rules: seq<Rule>, row: Row, isDate: string -> bool)
    ensures ValidRow(rules, row, isDate) <==>
            && (forall c :: c in row <==> exists rule | rule in rules :: rule.slug == c)
            && forall rule | rule in rules :: rule.slug in row && Allows(rule, row[rule.slug], isDate)
  {
    forall c
      ensures c in Slugs(rules) <==> exists rule | rule in rules :: rule.slug == c
    {
    }
    assert row.Keys == Slugs(rules) <==> forall c :: c in row <==> c in Slugs(rules);
    hide Slugs;
    if row.Keys == Slugs(rules) {
      forall rule | rule in rules
        ensures rule.slug in row
        ensures (forall reason :: !Breaks(rule, row, false, isDate, reason)) <==> Allows(rule, row[rule.slug], isDate)
      {
        assert rule.slug in Slugs(rules);
        AllowsIff(rule, row, isDate);
      }
      hide Breaks, Allows;
    }
  }

  lemma AllowsIff(rule: Rule, row: Row, isDate: string -> bool)
    requires rule.slug in row
    ensures (forall reason :: !Breaks(rule, row, false, isDate, reason)) <==> Allows(rule, row[rule.slug], isDate)
  {
    var v := row[rule.slug];
    if forall reason :: !Breaks(rule, row, false, isDate, reason) {
      assert !Breaks(rule, row, false, isDate, Missing) && !Breaks(rule, row, false, isDate, WrongType)
          && !Breaks(rule, row, false, isDate, TooShort) && !Breaks(rule, row, false, isDate, TooLong)
          && !Breaks(rule, row, false, isDate, TooSmall) && !Breaks(rule, row, false, isDate, TooLarge)
          && !Breaks(rule, row, false, isDate, NotAChoice);
    }
  }

  /** Whatever the row holds, a patch keeps a valid row valid if and only if it is acceptable on its own. */
  lemma PatchKeepsValid(rules: seq<Rule>, row: Row, patch: Row, isDate: string -> bool)
    requires ValidRow(rules, row, isDate) && patch.Keys <= Slugs(rules)
    ensures ValidRow(rules, row + patch, isDate) <==> Accepts(rules, patch, true, isDate)
  {
    forall rule, reason | rule in rules
      ensures Breaks(rule, row + patch, false, isDate, reason) == Breaks(rule, patch, true, isDate, reason)
    {
      assert rule.slug in Slugs(rules);
      if rule.slug !in patch {
        assert !Breaks(rule, row, false, isDate, reason);
      }
    }
  }
}
