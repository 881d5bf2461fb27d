/**
 * Queue admission under the tenant's limits: what is counted is metadata plus
 * the jobs still in the queue; each decision and its enqueue is one step.
 */
module Admission {
  import opened Wrappers
  import opened PhysicalTable
  import opened FieldEdits
  import opened SchemaMetadata

  const DEFAULT_MAX_TABLES_PER_TENANT := 50
  const DEFAULT_MAX_FIELDS_PER_TABLE := 100

  /** A queued job of the tenant; `EditFields` carries the compiled steps. */
  datatype Job = CreateTable(create: CreateTableJob) | EditFields(tableId: string, edits: seq<FieldEdit>)

  datatype Limits = Limits(tables: nat, fields: nat)

  /** The ids of `_meta_tables`, the rows of `_meta_fields`, and the jobs waiting, active or delayed. */
  datatype State = State(tables: set<string>, rows: FieldRows, pending: seq<Job>)

  // ----- counting ------------------------------------------------------

  predicate IsAddition(step: FieldEditStep) {
    step.AddColumn? || step.AddRelationColumn?
  }

  function CountAdditions(steps: seq<FieldEditStep>): nat {
    if steps == [] then 0 else (if IsAddition(steps[0]) then 1 else 0) + CountAdditions(steps[1..])
  }

  function PendingCreates(pending: seq<Job>): nat {
    if pending == [] then 0
    else PendingCreates(pending[..|pending| - 1]) + if pending[|pending| - 1].CreateTable? then 1 else 0
  }

  predicate Edits(job: Job, tableId: string) {
    job.EditFields? && job.tableId == tableId
  }

  function PendingAdditions(pending: seq<Job>, tableId: string): nat {
    if pending == [] then 0
    else
      var job := pending[|pending| - 1];
      PendingAdditions(pending[..|pending| - 1], tableId)
      + if Edits(job, tableId) then CountAdditions(CompileAll(job.edits)) else 0
  }

  /** The recorded field slugs of one table. */
  function SlugsOf(rows: FieldRows, tableId: string): set<string> {
    set key | key in rows && key.0 == tableId :: key.1
  }

  // ----- decisions -----------------------------------------------------

  predicate AdmitsCreate(s: State, limits: Limits, job: CreateTableJob) {
    |job.fields| <= limits.fields && |s.tables| + PendingCreates(s.pending) < limits.tables
  }

  predicate AdmitsEdit(s: State, limits: Limits, tableId: string, edits: seq<FieldEdit>) {
    var additions := CountAdditions(CompileAll(edits));
    && tableId in s.tables
    && (additions == 0
        || |SlugsOf(s.rows, tableId)| + PendingAdditions(s.pending, tableId) + additions <= limits.fields)
  }

  class DdlQueue {
    var tables: set<string>
    var rows: FieldRows
    var pending: seq<Job>
    const limits: Limits

    /** Limits that are not configured have defaults. */
    constructor (s: State, maxTables: Option<nat>, maxFields: Option<nat>)
      ensures Contents() == s
      ensures limits == Limits(GetOr(maxTables, DEFAULT_MAX_TABLES_PER_TENANT), GetOr(maxFields, DEFAULT_MAX_FIELDS_PER_TABLE))
    {
      tables, rows, pending := s.tables, s.rows, s.pending;
      limits := Limits(GetOr(maxTables, DEFAULT_MAX_TABLES_PER_TENANT), GetOr(maxFields, DEFAULT_MAX_FIELDS_PER_TABLE));
    }

    function Contents(): State
      reads this
    {
      State(tables, rows, pending)
    }

    method CountFieldAdditions(steps: seq<FieldEditStep>) returns (n: nat)
      ensures n == CountAdditions(steps)
    {
      n := 0;
      for i := |steps| downto 0
        invariant n == CountAdditions(steps[i..])
      {
        assert steps[i..][1..] == steps[i + 1..];
        if IsAddition(steps[i]) {
          n := n + 1;
        }
      }
    }

    method EnqueueCreateTableWithinLimit(job: CreateTableJob) returns (admitted: bool)
      modifies this`pending
      ensures admitted <==> AdmitsCreate(old(Contents()), limits, job)
      ensures pending == if admitted then old(pending) + [CreateTable(job)] else old(pending)
    {
      if |job.fields| > limits.fields {
        return false;
      }
      var pendingCreates := 0;
      for i := 0 to |pending|
        invariant unchanged(this)
        invariant pendingCreates == PendingCreates(pending[..i])
      {
        assert pending[..i + 1][..i] == pending[..i];
        if pending[i].CreateTable? {
          pendingCreates := pendingCreates + 1;
        }
      }
      assert pending[..|pending|] == pending;
      if |tables| + pendingCreates >= limits.tables {
        return false;
      }
      pending := pending + [CreateTable(job)];
      admitted := true;
    }

    method EnqueueFieldEditWithinLimit(tableId: string, edits: seq<FieldEdit>) returns (admitted: bool)
      modifies this`pending
      ensures admitted <==> AdmitsEdit(old(Contents()), limits, tableId, edits)
      ensures pending == if admitted then old(pending) + [EditFields(tableId, edits)] else old(pending)
    {
      if tableId !in tables {
        return false;
      }
      var additions := CountFieldAdditions(CompileAll(edits));
      if additions != 0 {
        var pendingAdditions := 0;
        for i := 0 to |pending|
          invariant unchanged(this)
          invariant pendingAdditions == PendingAdditions(pending[..i], tableId)
        {
          assert pending[..i + 1][..i] == pending[..i];
          if Edits(pending[i], tableId) {
            var n := CountFieldAdditions(CompileAll(pending[i].edits));
            pendingAdditions := pendingAdditions + n;
          }
        }
        assert pending[..|pending|] == pending;
        if |SlugsOf(rows, tableId)| + pendingAdditions + additions > limits.fields {
          return false;
        }
      }
      pending := pending + [EditFields(tableId, edits)];
      admitted := true;
    }
  }

  // ----- runs ----------------------------------------------------------

  datatype Event =
    | RequestCreate(job: CreateTableJob)
    | RequestEdit(tableId: string, edits: seq<FieldEdit>)
    /** The worker commits the metadata of the job at this position, for the first time or again. */
    | Commit(position: nat)
    /** The job at this position completes or fails for good. */
    | Leave(position: nat)

  function CommitJob(s: State, job: Job): State {
    match job
    case CreateTable(create) =>
      s.(tables := s.tables + {create.tableId}, rows := UpsertFields(s.rows, create.tableId, create.fields))
    case EditFields(tableId, edits) =>
      s.(rows := ApplyEffects(s.rows, tableId, EffectsOf(edits)))
  }

  function Fire(s: State, limits: Limits, e: Event): State {
    match e
    case RequestCreate(job) =>
      if AdmitsCreate(s, limits, job) then s.(pending := s.pending + [CreateTable(job)]) else s
    case RequestEdit(tableId, edits) =>
      if AdmitsEdit(s, limits, tableId, edits) then s.(pending := s.pending + [EditFields(tableId, edits)]) else s
    case Commit(n) => if n < |s.pending| then CommitJob(s, s.pending[n]) else s
    case Leave(n) => if n < |s.pending| then s.(pending := s.pending[..n] + s.pending[n + 1..]) else s
  }

  function ModifiedNames(edits: seq<FieldEdit>): set<string> {
    set e | e in edits && e.Modify? :: e.name
  }

  predicate Adds(e: FieldEdit) {
    e.Add? || e.AddRelation?
  }

  function AddedNames(edits: seq<FieldEdit>): set<string> {
    set e | e in edits && Adds(e) :: e.name
  }

  /** A field-edit job modifies recorded fields only. */
  predicate Regular(s: State, job: Job) {
    job.EditFields? ==> ModifiedNames(job.edits) <= SlugsOf(s.rows, job.tableId)
  }

  predicate RegularEvent(s: State, e: Event) {
    e.Commit? && e.position < |s.pending| ==> Regular(s, s.pending[e.position])
  }

  // ----- invariants ----------------------------------------------------

  function CreateIds(pending: seq<Job>): set<string> {
    set job | job in pending && job.CreateTable? :: job.create.tableId
  }

  /** The names pending edits would add to a table. */
  function PendingNames(pending: seq<Job>, tableId: string): set<string> {
    set job, name | job in pending && Edits(job, tableId) && name in AddedNames(job.edits) :: name
  }

  ghost predicate TablesBounded(s: State, limits: Limits) {
    |s.tables + CreateIds(s.pending)| <= limits.tables
  }

  ghost predicate FieldsBounded(s: State, limits: Limits) {
    forall t :: |SlugsOf(s.rows, t) + PendingNames(s.pending, t)| <= limits.fields
  }

  ghost predicate Consistent(s: State, limits: Limits) {
    && (forall key | key in s.rows :: key.0 in s.tables)
    && (forall job | job in s.pending && job.EditFields? :: job.tableId in s.tables)
    && (forall job | job in s.pending && job.CreateTable? :: |job.create.fields| <= limits.fields)
  }

  ghost predicate Inv(s: State, limits: Limits) {
    TablesBounded(s, limits) && FieldsBounded(s, limits) && Consistent(s, limits)
  }

  // ----- counts bound names --------------------------------------------

  lemma SumBounds(a: set<string>, b: set<string>)
    ensures |a + b| <= |a| + |b|
  {
    assert |a + b| + |a * b| == |a| + |b|;
  }

  lemma {:induction false} CountConcat(a: seq<FieldEditStep>, b: seq<FieldEditStep>)
    ensures CountAdditions(a + b) == CountAdditions(a) + CountAdditions(b)
  {
    if a == [] {
      assert a + b == b;
    } else {
      assert (a + b)[1..] == a[1..] + b;
      CountConcat(a[1..], b);
    }
  }

  /** The compiled steps of an edit count as one addition exactly when the edit adds a field. */
  lemma {:induction false} AdditionsCountNames(edits: seq<FieldEdit>)
    ensures |AddedNames(edits)| <= CountAdditions(CompileAll(edits))
    ensures CountAdditions(CompileAll(edits)) == 0 <==> AddedNames(edits) == {}
  {
    if edits != [] {
      var e, rest := edits[0], edits[1..];
      assert edits == [e] + rest;
      AdditionsCountNames(rest);
      CountConcat(Compile(e), CompileAll(rest));
      CountOfOne(e);
      var own := if e.Add? || e.AddRelation? then {e.name} else {};
      assert AddedNames(edits) == own + AddedNames(rest);
      SumBounds(own, AddedNames(rest));
    }
  }

  lemma CountOfOne(e: FieldEdit)
    ensures CountAdditions(Compile(e)) == if e.Add? || e.AddRelation? then 1 else 0
  {
    var steps := Compile(e);
    if e.Modify? {
      CountConcat([steps[0]], [steps[1], steps[2]]);
      CountConcat([steps[1]], [steps[2]]);
      assert steps == [steps[0]] + ([steps[1]] + [steps[2]]);
      assert [steps[1]] + [steps[2]] == [steps[1], steps[2]];
    }
  }

  lemma {:induction false} PendingAdditionsCountNames(pending: seq<Job>, tableId: string)
    ensures |PendingNames(pending, tableId)| <= PendingAdditions(pending, tableId)
  {
    if pending != [] {
      var before, job := pending[..|pending| - 1], pending[|pending| - 1];
      assert pending == before + [job];
      PendingAdditionsCountNames(before, tableId);
      PendingNamesAppended(before, job, tableId);
      if Edits(job, tableId) {
        AdditionsCountNames(job.edits);
        SumBounds(PendingNames(before, tableId), AddedNames(job.edits));
      }
    }
  }

  lemma PendingNamesAppended(pending: seq<Job>, job: Job, tableId: string)
    ensures PendingNames(pending + [job], tableId) ==
            PendingNames(pending, tableId) + if Edits(job, tableId) then AddedNames(job.edits) else {}
  {
    assert forall j | j in pending :: j in pending + [job];
    assert job in pending + [job];
  }

  lemma {:induction false} PendingCreatesCountIds(pending: seq<Job>)
    ensures |CreateIds(pending)| <= PendingCreates(pending)
  {
    if pending != [] {
      var before, job := pending[..|pending| - 1], pending[|pending| - 1];
      assert pending == before + [job];
      PendingCreatesCountIds(before);
      CreateIdsAppended(before, job);
      SumBounds(CreateIds(before), if job.CreateTable? then {job.create.tableId} else {});
    }
  }

  lemma CreateIdsAppended(pending: seq<Job>, job: Job)
    ensures CreateIds(pending + [job]) == CreateIds(pending) + if job.CreateTable? then {job.create.tableId} else {}
  {
    assert forall j | j in pending :: j in pending + [job];
    assert job in pending + [job];
  }

  lemma {:induction false} FieldNamesBounded(fields: seq<FieldDefinition>)
    ensures |FieldNames(fields)| <= |fields|
  {
    if fields != [] {
      FieldNamesBounded(fields[1..]);
      assert fields == [fields[0]] + fields[1..];
      assert FieldNames(fields) == {fields[0].name} + FieldNames(fields[1..]);
      SumBounds({fields[0].name}, FieldNames(fields[1..]));
    }
  }

  // ----- what a commit does to the recorded names ----------------------

  lemma {:induction false} UpsertedSlugs(rows: FieldRows, tableId: string, fields: seq<FieldDefinition>, t: string)
    ensures SlugsOf(UpsertFields(rows, tableId, fields), t) ==
            SlugsOf(rows, t) + if t == tableId then FieldNames(fields) else {}
    ensures forall key | key in UpsertFields(rows, tableId, fields) :: key in rows || key.0 == tableId
  {
    if fields != [] {
      var before, last := fields[..|fields| - 1], fields[|fields| - 1];
      assert fields == before + [last];
      UpsertedSlugs(rows, tableId, before, t);
      SlugsAfterPut(UpsertFields(rows, tableId, before), tableId, last.name, RowFrom(last), t);
      assert FieldNames(fields) == FieldNames(before) + {last.name};
    }
  }

  lemma SlugsAfterPut(rows: FieldRows, tableId: string, slug: string, row: FieldRow, t: string)
    ensures SlugsOf(rows[(tableId, slug) := row], t) == SlugsOf(rows, t) + if t == tableId then {slug} else {}
  {
    var rows' := rows[(tableId, slug) := row];
    forall c
      ensures c in SlugsOf(rows', t) <==> c in SlugsOf(rows, t) || (t == tableId && c == slug)
    {
      assert (t, c) in rows' <==> (t, c) in rows || (t, c) == (tableId, slug);
      SlugIffKey(rows, t, c);
      SlugIffKey(rows', t, c);
    }
  }

  lemma SlugIffKey(rows: FieldRows, t: string, c: string)
    ensures c in SlugsOf(rows, t) <==> (t, c) in rows
  {
    if (t, c) in rows {
      var key := (t, c);
      assert key in rows && key.0 == t && key.1 == c;
    }
  }

  /** The last edit of a job that names `c`. */
  function LastEdit(edits: seq<FieldEdit>, c: string): Option<FieldEdit> {
    if edits == [] then None
    else if LastEdit(edits[1..], c).Some? then LastEdit(edits[1..], c)
    else if edits[0].name == c then Some(edits[0])
    else None
  }

  lemma {:induction false} LastEditIsOne(edits: seq<FieldEdit>, c: string)
    ensures LastEdit(edits, c).Some? ==> LastEdit(edits, c).value in edits && LastEdit(edits, c).value.name == c
    ensures LastEdit(edits, c).None? ==> forall e | e in edits :: e.name != c
  {
    if edits != [] {
      LastEditIsOne(edits[1..], c);
      assert edits == [edits[0]] + edits[1..];
    }
  }

  /** After a field-edit job a name is recorded if the last edit that names it says so, else if it was before. */
  lemma {:induction false} EditedSlugs(rows: FieldRows, tableId: string, edits: seq<FieldEdit>, t: string, c: string)
    ensures var rows' := ApplyEffects(rows, tableId, EffectsOf(edits));
            c in SlugsOf(rows', t) <==>
            if t == tableId && LastEdit(edits, c).Some? then !LastEdit(edits, c).value.Remove? else c in SlugsOf(rows, t)
    decreases |edits|
  {
    if edits != [] {
      var e, rest := edits[0], edits[1..];
      assert EffectsOf(edits)[1..] == EffectsOf(rest);
      EditedSlugs(ApplyEffect(rows, tableId, EffectOf(e)), tableId, rest, t, c);
      OneEditedSlug(rows, tableId, e, t, c);
    }
  }

  lemma OneEditedSlug(rows: FieldRows, tableId: string, e: FieldEdit, t: string, c: string)
    ensures var rows' := ApplyEffect(rows, tableId, EffectOf(e));
            c in SlugsOf(rows', t) <==> if t == tableId && e.name == c then !e.Remove? else c in SlugsOf(rows, t)
  {
    SlugIffKey(rows, t, c);
    SlugIffKey(ApplyEffect(rows, tableId, EffectOf(e)), t, c);
  }

  lemma {:induction false} EditedKeys(rows: FieldRows, tableId: string, edits: seq<FieldEdit>)
    ensures forall key | key in ApplyEffects(rows, tableId, EffectsOf(edits)) :: key in rows || key.0 == tableId
    decreases |edits|
  {
    if edits != [] {
      assert EffectsOf(edits)[1..] == EffectsOf(edits[1..]);
      EditedKeys(ApplyEffect(rows, tableId, EffectOf(edits[0])), tableId, edits[1..]);
    }
  }

  // ----- exactly when a commit keeps the field limit -------------------

  function TableOf(job: Job): string {
    if job.CreateTable? then job.create.tableId else job.tableId
  }

  /** The names a commit leaves recorded because of the job. */
  function WrittenNames(job: Job): set<string> {
    match job
    case CreateTable(create) => FieldNames(create.fields)
    case EditFields(_, edits) => set e | e in edits && LastEdit(edits, e.name).Some? && !LastEdit(edits, e.name).value.Remove? :: e.name
  }

  /** The names a commit leaves unrecorded because of the job. */
  function DroppedNames(job: Job): set<string> {
    match job
    case CreateTable(_) => {}
    case EditFields(_, edits) => set e | e in edits && LastEdit(edits, e.name).Some? && LastEdit(edits, e.name).value.Remove? :: e.name
  }

  /** The names of a table that admission counts. */
  function Counted(s: State, t: string): set<string> {
    SlugsOf(s.rows, t) + PendingNames(s.pending, t)
  }

  /** The names a commit writes that are neither recorded nor pending. */
  function Uncounted(s: State, job: Job): set<string> {
    WrittenNames(job) - Counted(s, TableOf(job))
  }

  /** The recorded names it drops that no pending job adds. */
  function Freed(s: State, job: Job): set<string> {
    (SlugsOf(s.rows, TableOf(job)) * DroppedNames(job)) - PendingNames(s.pending, TableOf(job))
  }

  /** The uncounted names fit in the room that is left. */
  predicate CommitFits(s: State, limits: Limits, job: Job) {
    |Counted(s, TableOf(job))| + |Uncounted(s, job)| <= limits.fields + |Freed(s, job)|
  }

  lemma CommittedSlugs(s: State, job: Job, t: string)
    ensures SlugsOf(CommitJob(s, job).rows, t) ==
            if t == TableOf(job) then (SlugsOf(s.rows, t) - DroppedNames(job)) + WrittenNames(job) else SlugsOf(s.rows, t)
  {
    match job
    case CreateTable(create) =>
      UpsertedSlugs(s.rows, create.tableId, create.fields, t);
    case EditFields(tableId, edits) =>
      forall c
        ensures c in SlugsOf(CommitJob(s, job).rows, t) <==>
                if t == tableId && LastEdit(edits, c).Some? then !LastEdit(edits, c).value.Remove? else c in SlugsOf(s.rows, t)
        ensures LastEdit(edits, c).Some? <==> c in WrittenNames(job) + DroppedNames(job)
        ensures c in WrittenNames(job) ==> LastEdit(edits, c).Some? && !LastEdit(edits, c).value.Remove?
        ensures c in DroppedNames(job) ==> LastEdit(edits, c).Some? && LastEdit(edits, c).value.Remove?
      {
        EditedSlugs(s.rows, tableId, edits, t, c);
        LastEditIsOne(edits, c);
      }
      hide SlugsOf, CommitJob, WrittenNames, DroppedNames;
  }

  lemma WrittenAndDroppedDiffer(job: Job)
    ensures WrittenNames(job) !! DroppedNames(job)
  {
  }

  /** Dropping `gone` from `kept` and adding `written`, beside names that stay pending. */
  lemma CountAfterUpdate(kept: set<string>, pending: set<string>, gone: set<string>, written: set<string>)
    requires written !! gone
    ensures var counted, freed := kept + pending, (kept * gone) - pending;
            var uncounted := written - counted;
            && ((kept - gone) + written) + pending == (counted - freed) + uncounted
            && |((kept - gone) + written) + pending| == |counted| - |freed| + |uncounted|
  {
    var counted, freed := kept + pending, (kept * gone) - pending;
    var uncounted := written - counted;
    assert counted == (counted - freed) + freed;
    assert |(counted - freed) + freed| == |counted - freed| + |freed|;
    assert |(counted - freed) + uncounted| == |counted - freed| + |uncounted|;
  }

  lemma CountedAfterCommit(s: State, job: Job)
    ensures |Counted(CommitJob(s, job), TableOf(job))| == |Counted(s, TableOf(job))| - |Freed(s, job)| + |Uncounted(s, job)|
  {
    var t := TableOf(job);
    CommittedSlugs(s, job, t);
    WrittenAndDroppedDiffer(job);
    assert CommitJob(s, job).pending == s.pending;
    hide SlugsOf, PendingNames, WrittenNames, DroppedNames, CommitJob;
    CountAfterUpdate(SlugsOf(s.rows, t), PendingNames(s.pending, t), DroppedNames(job), WrittenNames(job));
  }

  lemma OtherTablesKeepCount(s: State, job: Job, t: string)
    requires t != TableOf(job)
    ensures Counted(CommitJob(s, job), t) == Counted(s, t)
  {
    CommittedSlugs(s, job, t);
    assert CommitJob(s, job).pending == s.pending;
    hide SlugsOf, PendingNames, CommitJob;
  }

  lemma BoundedByCount(s: State, limits: Limits)
    ensures FieldsBounded(s, limits) <==> forall t :: |Counted(s, t)| <= limits.fields
  {
    assert forall t :: Counted(s, t) == SlugsOf(s.rows, t) + PendingNames(s.pending, t);
    hide SlugsOf, PendingNames, Counted;
  }

  /**
   * A commit, first or repeated, of any job keeps the field limit if and only
   * if the names it writes that nobody counted fit in the room left.
   */
  lemma CommitKeepsFieldsIff(s: State, limits: Limits, job: Job)
    requires FieldsBounded(s, limits)
    ensures FieldsBounded(CommitJob(s, job), limits) <==> CommitFits(s, limits, job)
  {
    hide FieldsBounded, Counted, CommitJob, Freed, Uncounted;
    var s' := CommitJob(s, job);
    BoundedByCount(s, limits);
    BoundedByCount(s', limits);
    CountedAfterCommit(s, job);
    forall t | t != TableOf(job)
      ensures Counted(s', t) == Counted(s, t)
    {
      OtherTablesKeepCount(s, job, t);
    }
  }

  // ----- every event keeps the limits ----------------------------------

  lemma CreateAdmissionKeepsTables(s: State, limits: Limits, job: CreateTableJob)
    requires AdmitsCreate(s, limits, job)
    ensures TablesBounded(s.(pending := s.pending + [CreateTable(job)]), limits)
  {
    CreateIdsAppended(s.pending, CreateTable(job));
    PendingCreatesCountIds(s.pending);
    SumBounds(CreateIds(s.pending), {job.tableId});
    SumBounds(s.tables, CreateIds(s.pending) + {job.tableId});
    hide CreateIds;
  }

  lemma CreateAdmissionKeepsInv(s: State, limits: Limits, job: CreateTableJob)
    requires Inv(s, limits) && AdmitsCreate(s, limits, job)
    ensures Inv(s.(pending := s.pending + [CreateTable(job)]), limits)
  {
    var s' := s.(pending := s.pending + [CreateTable(job)]);
    CreateAdmissionKeepsTables(s, limits, job);
    forall t
      ensures PendingNames(s'.pending, t) == PendingNames(s.pending, t)
    {
      PendingNamesAppended(s.pending, CreateTable(job), t);
    }
    hide PendingNames, SlugsOf, PendingCreates, CreateIds;
    CreateKeepsConsistent(s, limits, job);
    hide TablesBounded, Consistent;
  }

  lemma CreateKeepsConsistent(s: State, limits: Limits, job: CreateTableJob)
    requires Consistent(s, limits) && |job.fields| <= limits.fields
    ensures Consistent(s.(pending := s.pending + [CreateTable(job)]), limits)
  {
    var pending' := s.pending + [CreateTable(job)];
    assert forall other | other in pending' :: other in s.pending || other == CreateTable(job);
  }

  lemma EditAdmissionKeepsInv(s: State, limits: Limits, tableId: string, edits: seq<FieldEdit>)
    requires Inv(s, limits) && AdmitsEdit(s, limits, tableId, edits)
    ensures Inv(s.(pending := s.pending + [EditFields(tableId, edits)]), limits)
  {
    var job := EditFields(tableId, edits);
    CreateIdsAppended(s.pending, job);
    forall t
      ensures |SlugsOf(s.rows, t) + PendingNames(s.pending + [job], t)| <= limits.fields
    {
      EditAdmissionKeepsFields(s, limits, tableId, edits, t);
    }
    hide AdmitsEdit, SlugsOf, PendingNames, CreateIds;
  }

  lemma EditAdmissionKeepsFields(s: State, limits: Limits, tableId: string, edits: seq<FieldEdit>, t: string)
    requires |SlugsOf(s.rows, t) + PendingNames(s.pending, t)| <= limits.fields && AdmitsEdit(s, limits, tableId, edits)
    ensures |SlugsOf(s.rows, t) + PendingNames(s.pending + [EditFields(tableId, edits)], t)| <= limits.fields
  {
    var job := EditFields(tableId, edits);
    PendingNamesAppended(s.pending, job, t);
    hide SlugsOf, PendingNames, AddedNames;
    if t == tableId {
      AdditionsCountNames(edits);
      if AddedNames(edits) != {} {
        PendingAdditionsCountNames(s.pending, t);
        SumBounds(PendingNames(s.pending, t), AddedNames(edits));
        SumBounds(SlugsOf(s.rows, t), PendingNames(s.pending + [job], t));
      }
    }
  }

  lemma CommitKeepsConsistent(s: State, limits: Limits, job: Job)
    requires Consistent(s, limits) && job in s.pending
    ensures Consistent(CommitJob(s, job), limits)
  {
    match job
    case CreateTable(create) =>
      UpsertedSlugs(s.rows, create.tableId, create.fields, "");
    case EditFields(tableId, edits) =>
      EditedKeys(s.rows, tableId, edits);
  }

  lemma CommitKeepsTables(s: State, limits: Limits, job: Job)
    requires TablesBounded(s, limits) && job in s.pending
    ensures TablesBounded(CommitJob(s, job), limits)
  {
    var s' := CommitJob(s, job);
    assert s'.tables + CreateIds(s'.pending) == s.tables + CreateIds(s.pending);
  }

  /** A field-edit job that modifies recorded fields only, and a table's first commit, always fit. */
  lemma RegularCommitFits(s: State, limits: Limits, job: Job)
    requires Inv(s, limits) && job in s.pending && Regular(s, job)
    requires job.CreateTable? ==> job.create.tableId !in s.tables
    ensures CommitFits(s, limits, job)
  {
    var t := TableOf(job);
    match job
    case CreateTable(create) =>
      FieldNamesBounded(create.fields);
      NothingRecorded(s, limits, t);
      SubsetIsSmaller(Uncounted(s, job), FieldNames(create.fields));
    case EditFields(_, edits) =>
      AddedIsPending(s.pending, job, t);
      forall c | c in WrittenNames(job)
        ensures c in AddedNames(edits) + ModifiedNames(edits)
      {
        LastEditIsOne(edits, c);
      }
      assert Uncounted(s, job) == {};
  }

  lemma NothingRecorded(s: State, limits: Limits, t: string)
    requires Consistent(s, limits) && t !in s.tables
    ensures SlugsOf(s.rows, t) == {} && PendingNames(s.pending, t) == {}
  {
  }

  lemma AddedIsPending(pending: seq<Job>, job: Job, t: string)
    requires job in pending && Edits(job, t)
    ensures AddedNames(job.edits) <= PendingNames(pending, t)
  {
  }

  lemma LeaveKeepsInv(s: State, limits: Limits, n: nat)
    requires Inv(s, limits) && n < |s.pending|
    ensures Inv(s.(pending := s.pending[..n] + s.pending[n + 1..]), limits)
  {
    var s' := s.(pending := s.pending[..n] + s.pending[n + 1..]);
    assert forall job | job in s'.pending :: job in s.pending;
    LeaveKeepsTables(s, limits, n);
    forall t
      ensures |SlugsOf(s'.rows, t) + PendingNames(s'.pending, t)| <= limits.fields
    {
      assert PendingNames(s'.pending, t) <= PendingNames(s.pending, t);
      SubsetIsSmaller(SlugsOf(s'.rows, t) + PendingNames(s'.pending, t), SlugsOf(s.rows, t) + PendingNames(s.pending, t));
    }
  }

  /** The commit of this event fits. */
  predicate EventFits(s: State, limits: Limits, e: Event) {
    e.Commit? && e.position < |s.pending| ==> CommitFits(s, limits, s.pending[e.position])
  }

  lemma CommitKeepsInvIff(s: State, limits: Limits, job: Job)
    requires Inv(s, limits) && job in s.pending
    ensures Inv(CommitJob(s, job), limits) <==> CommitFits(s, limits, job)
    ensures FieldsBounded(CommitJob(s, job), limits) <==> CommitFits(s, limits, job)
  {
    CommitKeepsTables(s, limits, job);
    CommitKeepsFieldsIff(s, limits, job);
    CommitKeepsConsistent(s, limits, job);
  }

  lemma FireKeepsInvIff(s: State, limits: Limits, e: Event)
    requires Inv(s, limits)
    ensures Inv(Fire(s, limits, e), limits) <==> EventFits(s, limits, e)
    ensures FieldsBounded(Fire(s, limits, e), limits) <==> EventFits(s, limits, e)
  {
    match e
    case RequestCreate(job) =>
      if AdmitsCreate(s, limits, job) {
        CreateAdmissionKeepsInv(s, limits, job);
      }
      hide FieldsBounded;
    case RequestEdit(tableId, edits) =>
      if AdmitsEdit(s, limits, tableId, edits) {
        EditAdmissionKeepsInv(s, limits, tableId, edits);
      }
      hide FieldsBounded;
    case Commit(n) =>
      if n < |s.pending| {
        CommitKeepsInvIff(s, limits, s.pending[n]);
      }
      hide FieldsBounded;
    case Leave(n) =>
      if n < |s.pending| {
        LeaveKeepsInv(s, limits, n);
      }
      hide FieldsBounded;
  }

  ghost function FireAll(s: State, limits: Limits, es: seq<Event>): State
    decreases |es|
  {
    if es == [] then s else FireAll(Fire(s, limits, es[0]), limits, es[1..])
  }

  /** Every state of the run keeps the field limit of every table. */
  ghost predicate FieldsBoundedThroughout(s: State, limits: Limits, es: seq<Event>)
    decreases |es|
  {
    FieldsBounded(s, limits) && (es == [] || FieldsBoundedThroughout(Fire(s, limits, es[0]), limits, es[1..]))
  }

  ghost predicate CommitsFit(s: State, limits: Limits, es: seq<Event>)
    decreases |es|
  {
    es == [] || (EventFits(s, limits, es[0]) && CommitsFit(Fire(s, limits, es[0]), limits, es[1..]))
  }

  /** Over every run, whatever it edits or repeats: the field limit holds throughout if and only if every commit fits. */
  lemma {:induction false} FieldLimitHoldsIff(s: State, limits: Limits, es: seq<Event>)
    requires Inv(s, limits)
    ensures FieldsBoundedThroughout(s, limits, es) <==> CommitsFit(s, limits, es)
    decreases |es|
  {
    assert FieldsBounded(s, limits);
    hide Inv, Fire, EventFits, FieldsBounded;
    if es != [] {
      FireKeepsInvIff(s, limits, es[0]);
      if EventFits(s, limits, es[0]) {
        FieldLimitHoldsIff(Fire(s, limits, es[0]), limits, es[1..]);
      } else {
        NotBounded(Fire(s, limits, es[0]), limits, es[1..]);
      }
    }
  }

  lemma NotBounded(s: State, limits: Limits, es: seq<Event>)
    requires !FieldsBounded(s, limits)
    ensures !FieldsBoundedThroughout(s, limits, es)
  {
    hide FieldsBounded, Fire;
  }

  ghost predicate RegularRun(s: State, limits: Limits, es: seq<Event>)
    decreases |es|
  {
    es == [] || (RegularEvent(s, es[0]) && RegularRun(Fire(s, limits, es[0]), limits, es[1..]))
  }

  /** The event commits a create-table job whose table is recorded already. */
  predicate Reruns(s: State, e: Event) {
    && e.Commit? && e.position < |s.pending|
    && s.pending[e.position].CreateTable? && s.pending[e.position].create.tableId in s.tables
  }

  ghost predicate RerunsFit(s: State, limits: Limits, es: seq<Event>)
    decreases |es|
  {
    es == [] ||
    ((Reruns(s, es[0]) ==> EventFits(s, limits, es[0])) && RerunsFit(Fire(s, limits, es[0]), limits, es[1..]))
  }

  /**
   * Over every run of admissions, commits, retries and failures that modifies
   * recorded fields only: the fields of each table, recorded or about to be
   * added, stay within the limit if and only if every create-table job that
   * commits again finds room for the removed fields it brings back.
   */
  lemma {:induction false} LimitsHoldIffRerunsFit(s: State, limits: Limits, es: seq<Event>)
    requires Inv(s, limits) && RegularRun(s, limits, es)
    ensures FieldsBoundedThroughout(s, limits, es) <==> RerunsFit(s, limits, es)
    decreases |es|
  {
    assert FieldsBounded(s, limits);
    hide Inv, Fire, FieldsBounded, RegularEvent, EventFits, Reruns;
    if es != [] {
      FireKeepsInvIff(s, limits, es[0]);
      if !Reruns(s, es[0]) {
        FirstCommitsFit(s, limits, es[0]);
      }
      if EventFits(s, limits, es[0]) {
        LimitsHoldIffRerunsFit(Fire(s, limits, es[0]), limits, es[1..]);
      } else {
        NotBounded(Fire(s, limits, es[0]), limits, es[1..]);
      }
    }
  }

  lemma FirstCommitsFit(s: State, limits: Limits, e: Event)
    requires Inv(s, limits) && RegularEvent(s, e) && !Reruns(s, e)
    ensures EventFits(s, limits, e)
  {
    if e.Commit? && e.position < |s.pending| {
      RegularCommitFits(s, limits, s.pending[e.position]);
    }
    hide CommitFits;
  }

  /** The table limit needs no condition at all: over every run, tables recorded or about to be created stay within it. */
  lemma {:induction false} TableLimitIsNeverExceeded(s: State, limits: Limits, es: seq<Event>)
    requires TablesBounded(s, limits)
    ensures TablesBounded(FireAll(s, limits, es), limits)
    decreases |es|
  {
    hide TablesBounded;
    if es != [] {
      FireKeepsTables(s, limits, es[0]);
      hide Fire;
      TableLimitIsNeverExceeded(Fire(s, limits, es[0]), limits, es[1..]);
    }
  }

  lemma FireKeepsTables(s: State, limits: Limits, e: Event)
    requires TablesBounded(s, limits)
    ensures TablesBounded(Fire(s, limits, e), limits)
  {
    match e
    case RequestCreate(job) =>
      if AdmitsCreate(s, limits, job) {
        CreateAdmissionKeepsTables(s, limits, job);
      }
      hide TablesBounded, AdmitsCreate;
    case RequestEdit(tableId, edits) =>
      CreateIdsAppended(s.pending, EditFields(tableId, edits));
      hide CreateIds, AdmitsEdit;
    case Commit(n) =>
      if n < |s.pending| {
        CommitKeepsTables(s, limits, s.pending[n]);
      }
      hide TablesBounded, CommitJob;
    case Leave(n) =>
      if n < |s.pending| {
        LeaveKeepsTables(s, limits, n);
      }
      hide TablesBounded;
  }

  lemma LeaveKeepsTables(s: State, limits: Limits, n: nat)
    requires TablesBounded(s, limits) && n < |s.pending|
    ensures TablesBounded(s.(pending := s.pending[..n] + s.pending[n + 1..]), limits)
  {
    var rest := s.pending[..n] + s.pending[n + 1..];
    assert forall job | job in rest :: job in s.pending;
    SubsetIsSmaller(s.tables + CreateIds(rest), s.tables + CreateIds(s.pending));
  }

  /** One modification keeps the limit if and only if its field is counted or there is room for it. */
  lemma ModificationKeepsLimitIff(s: State, limits: Limits, tableId: string, e: FieldEdit)
    requires FieldsBounded(s, limits) && e.Modify?
    ensures FieldsBounded(CommitJob(s, EditFields(tableId, [e])), limits) <==>
            e.name in Counted(s, tableId) || |Counted(s, tableId)| < limits.fields
  {
    hide FieldsBounded, WrittenNames, DroppedNames, Counted, CommitJob, SlugsOf, PendingNames;
    var job := EditFields(tableId, [e]);
    CommitKeepsFieldsIff(s, limits, job);
    BoundedByCount(s, limits);
    NamesOfOneModification(tableId, e);
    assert Uncounted(s, job) == if e.name in Counted(s, tableId) then {} else {e.name};
    assert Freed(s, job) == {};
    assert |Counted(s, tableId)| <= limits.fields;
  }

  lemma NamesOfOneModification(tableId: string, e: FieldEdit)
    requires e.Modify?
    ensures WrittenNames(EditFields(tableId, [e])) == {e.name} && DroppedNames(EditFields(tableId, [e])) == {}
  {
    LastOfOne(e);
    assert e in [e];
  }

  lemma LastOfOne(e: FieldEdit)
    ensures LastEdit([e], e.name) == Some(e)
  {
    assert [e][1..] == [];
  }

  lemma {:induction false} NotBoundedAtEnd(s: State, limits: Limits, es: seq<Event>)
    requires !FieldsBounded(FireAll(s, limits, es), limits)
    ensures !FieldsBoundedThroughout(s, limits, es)
    decreases |es|
  {
    hide FieldsBounded, Fire;
    if es != [] {
      NotBoundedAtEnd(Fire(s, limits, es[0]), limits, es[1..]);
    }
  }

  lemma FireFirst(s: State, limits: Limits, e: Event, rest: seq<Event>)
    ensures FireAll(s, limits, [e] + rest) == FireAll(Fire(s, limits, e), limits, rest)
    ensures RegularRun(s, limits, [e] + rest) <==> RegularEvent(s, e) && RegularRun(Fire(s, limits, e), limits, rest)
  {
    hide Fire, RegularEvent;
    var es := [e] + rest;
    assert es[0] == e && es[1..] == rest;
  }

  /** One edit behind a job that stays in the queue: it is admitted, commits and leaves. */
  lemma EditCycle(s: State, limits: Limits, tableId: string, e: FieldEdit, rest: seq<Event>)
    requires |s.pending| == 1 && AdmitsEdit(s, limits, tableId, [e]) && !e.Modify?
    ensures var es := [RequestEdit(tableId, [e])] + ([Commit(1)] + ([Leave(1)] + rest));
            var s' := s.(rows := ApplyEffect(s.rows, tableId, EffectOf(e)));
            && FireAll(s, limits, es) == FireAll(s', limits, rest)
            && (RegularRun(s, limits, es) <==> RegularRun(s', limits, rest))
  {
    var job := EditFields(tableId, [e]);
    var s1 := s.(pending := s.pending + [job]);
    var s2 := s1.(rows := ApplyEffect(s.rows, tableId, EffectOf(e)));
    var s3 := s2.(pending := s.pending);
    FireFirst(s, limits, RequestEdit(tableId, [e]), [Commit(1)] + ([Leave(1)] + rest));
    FireFirst(s1, limits, Commit(1), [Leave(1)] + rest);
    FireFirst(s2, limits, Leave(1), rest);
    assert Fire(s1, limits, Commit(1)) == s2 by {
      OneEffect(s.rows, tableId, e);
    }
    assert s2.pending[..1] + s2.pending[2..] == s.pending;
    assert ModifiedNames([e]) == {};
  }

  lemma OneEffect(rows: FieldRows, tableId: string, e: FieldEdit)
    ensures ApplyEffects(rows, tableId, EffectsOf([e])) == ApplyEffect(rows, tableId, EffectOf(e))
  {
    assert EffectsOf([e])[1..] == [];
  }

  lemma AdmitsOneEdit(s: State, limits: Limits, tableId: string, e: FieldEdit)
    requires |s.pending| == 1 && s.pending[0].CreateTable? && tableId in s.tables
    requires e.Remove? || (e.Add? && |SlugsOf(s.rows, tableId)| + 1 <= limits.fields)
    ensures AdmitsEdit(s, limits, tableId, [e])
  {
    assert [e][1..] == [];
    assert CompileAll([e]) == Compile(e) + CompileAll([]);
    assert CompileAll([e]) == Compile(e);
    CountOfOne(e);
    assert s.pending[..0] == [];
    assert PendingAdditions(s.pending, tableId) == 0;
    hide SlugsOf;
  }

  lemma TwoFieldsUpserted(rows: FieldRows, tableId: string, a: FieldDefinition, b: FieldDefinition)
    ensures UpsertFields(rows, tableId, [a, b]) == rows[(tableId, a.name) := RowFrom(a)][(tableId, b.name) := RowFrom(b)]
  {
    assert [a][..0] == [];
    assert UpsertFields(rows, tableId, [a]) == rows[(tableId, a.name) := RowFrom(a)];
    assert [a, b][..1] == [a];
  }

  function FailingEdits(create: CreateTableJob, removed: string, added: FieldEdit): seq<Event> {
    [RequestEdit(create.tableId, [Remove(removed)]), Commit(1), Leave(1),
     RequestEdit(create.tableId, [added]), Commit(1), Leave(1), Commit(0)]
  }

  function FailingRun(create: CreateTableJob, removed: string, added: FieldEdit): seq<Event> {
    [RequestCreate(create), Commit(0)] + FailingEdits(create, removed, added)
  }

  /** The states the tail of the run goes through: `a` dropped, `c` added, the create-table job committed again. */
  lemma FailingTail(s: State, limits: Limits, create: CreateTableJob, removed: string, c: FieldEdit)
    requires c.Add? && s.pending == [CreateTable(create)] && create.tableId in s.tables
    requires |SlugsOf(s.rows - {(create.tableId, removed)}, create.tableId)| + 1 <= limits.fields
    ensures var es := FailingEdits(create, removed, c);
            var rows := (s.rows - {(create.tableId, removed)})[(create.tableId, c.name) := EffectOf(c).row];
            && RegularRun(s, limits, es)
            && FireAll(s, limits, es) == CommitJob(s.(rows := rows), CreateTable(create))
  {
    var t := create.tableId;
    var es := FailingEdits(create, removed, c);
    var s1 := s.(rows := s.rows - {(t, removed)});
    var s2 := s1.(rows := s1.rows[(t, c.name) := EffectOf(c).row]);
    AdmitsOneEdit(s, limits, t, Remove(removed));
    AdmitsOneEdit(s1, limits, t, c);
    hide AdmitsEdit, SlugsOf, FireAll, RegularRun;
    EditCycle(s, limits, t, Remove(removed), es[3..]);
    assert es == [es[0]] + ([es[1]] + ([es[2]] + es[3..]));
    EditCycle(s1, limits, t, c, es[6..]);
    assert es[3..] == [es[3]] + ([es[4]] + ([es[5]] + es[6..]));
    FireFirst(s2, limits, Commit(0), []);
    assert es[6..] == [Commit(0)] + [];
    LastCommit(s2, limits, create);
  }

  lemma LastCommit(s: State, limits: Limits, create: CreateTableJob)
    requires s.pending == [CreateTable(create)]
    ensures Fire(s, limits, Commit(0)) == CommitJob(s, CreateTable(create)) && RegularEvent(s, Commit(0))
    ensures FireAll(Fire(s, limits, Commit(0)), limits, []) == Fire(s, limits, Commit(0))
    ensures RegularRun(Fire(s, limits, Commit(0)), limits, [])
  {
  }

  lemma FirstCreation(create: CreateTableJob, limits: Limits, es: seq<Event>)
    requires limits.tables == 1 && |create.fields| <= limits.fields
    ensures var start := State({}, map[], []);
            var s := State({create.tableId}, UpsertFields(map[], create.tableId, create.fields), [CreateTable(create)]);
            && FireAll(start, limits, [RequestCreate(create)] + ([Commit(0)] + es)) == FireAll(s, limits, es)
            && (RegularRun(s, limits, es) ==> RegularRun(start, limits, [RequestCreate(create)] + ([Commit(0)] + es)))
  {
    hide FireAll, RegularRun, UpsertFields;
    var start, s1 := State({}, map[], []), State({}, map[], [CreateTable(create)]);
    assert Fire(start, limits, RequestCreate(create)) == s1;
    FireFirst(start, limits, RequestCreate(create), [Commit(0)] + es);
    FireFirst(s1, limits, Commit(0), es);
  }

  lemma NothingAtStart(limits: Limits)
    ensures Inv(State({}, map[], []), limits)
  {
    var start := State({}, map[], []);
    BoundedByCount(start, limits);
    assert start.tables + CreateIds(start.pending) == {};
    assert forall t :: Counted(start, t) == {};
  }

  /** Which names the tail of the run leaves recorded. */
  lemma FailingSlugs(rows: FieldRows, tableId: string, a: FieldDefinition, b: FieldDefinition, name: string, row: FieldRow)
    requires rows == UpsertFields(map[], tableId, [a, b]) && a.name != b.name
    ensures SlugsOf(rows - {(tableId, a.name)}, tableId) == {b.name}
    ensures SlugsOf(UpsertFields((rows - {(tableId, a.name)})[(tableId, name) := row], tableId, [a, b]), tableId)
            == {a.name, b.name, name}
  {
    TwoFieldsUpserted(map[], tableId, a, b);
    assert rows - {(tableId, a.name)} == map[(tableId, b.name) := RowFrom(b)];
    SlugsAfterPut(map[], tableId, b.name, RowFrom(b), tableId);
    SlugsAfterPut(rows - {(tableId, a.name)}, tableId, name, row, tableId);
    UpsertedSlugs((rows - {(tableId, a.name)})[(tableId, name) := row], tableId, [a, b], tableId);
    assert FieldNames([a, b]) == {a.name, b.name} by {
      assert a in [a, b] && b in [a, b];
    }
  }

  /**
   * The failing run for a limit of two fields: a table is created with `a` and
   * `b`, its job stays in the queue; `a` is removed and `c` added in its place;
   * then the create-table job commits again.
   */
  lemma RerunExceedsFieldLimit(a: FieldDefinition, b: FieldDefinition, c: FieldEdit, tableId: string, name: string)
    requires c.Add? && a.name != b.name && c.name != a.name && c.name != b.name
    ensures var limits, start := Limits(1, 2), State({}, map[], []);
            var es := FailingRun(CreateTableJob(tableId, name, [a, b]), a.name, c);
            && Inv(start, limits) && RegularRun(start, limits, es)
            && SlugsOf(FireAll(start, limits, es).rows, tableId) == {a.name, b.name, c.name}
            && !FieldsBoundedThroughout(start, limits, es)
  {
    hide Fire, FireAll, RegularRun, FieldsBounded, FieldsBoundedThroughout, UpsertFields, FailingEdits, Inv, SlugsOf, PendingNames;
    var limits, start := Limits(1, 2), State({}, map[], []);
    var create := CreateTableJob(tableId, name, [a, b]);
    var es, edits := FailingRun(create, a.name, c), FailingEdits(create, a.name, c);
    var s := State({tableId}, UpsertFields(map[], tableId, [a, b]), [CreateTable(create)]);
    NothingAtStart(limits);
    FailingSlugs(s.rows, tableId, a, b, c.name, EffectOf(c).row);
    assert |{b.name}| == 1;
    FailingTail(s, limits, create, a.name, c);
    FirstCreation(create, limits, edits);
    assert es == [RequestCreate(create)] + ([Commit(0)] + edits);
    var end := FireAll(start, limits, es);
    assert |{a.name, b.name, c.name}| == 3;
    SubsetIsSmaller({a.name, b.name, c.name}, Counted(end, tableId));
    BoundedByCount(end, limits);
    NotBoundedAtEnd(start, limits, es);
  }

  // ----- no request is turned away early -------------------------------

  /** Pending creations are of distinct, unrecorded tables. */
  ghost predicate NothingCountedTwice(s: State) {
    && (forall job | job in s.pending && job.CreateTable? :: job.create.tableId !in s.tables)
    && (forall i, j | 0 <= i < j < |s.pending| && s.pending[i].CreateTable? && s.pending[j].CreateTable? ::
          s.pending[i].create.tableId != s.pending[j].create.tableId)
  }

  lemma {:induction false} DistinctCreatesCountIds(pending: seq<Job>)
    requires forall i, j | 0 <= i < j < |pending| && pending[i].CreateTable? && pending[j].CreateTable? ::
               pending[i].create.tableId != pending[j].create.tableId
    ensures |CreateIds(pending)| == PendingCreates(pending)
  {
    if pending != [] {
      var before, job := pending[..|pending| - 1], pending[|pending| - 1];
      assert pending == before + [job];
      DistinctCreatesCountIds(before);
      CreateIdsAppended(before, job);
    }
  }

  /** Unless a finished job still lingers in the queue, a table is refused exactly when it would be one too many. */
  lemma TableRefusedIffOverLimit(s: State, limits: Limits, job: CreateTableJob)
    requires NothingCountedTwice(s) && |job.fields| <= limits.fields
    ensures AdmitsCreate(s, limits, job) <==> |s.tables + CreateIds(s.pending)| + 1 <= limits.tables
  {
    DistinctCreatesCountIds(s.pending);
    assert s.tables !! CreateIds(s.pending);
  }

  /** The names that the queue still adds to a table, whatever it adds to others. */
  function WaitingNames(pending: seq<Job>, tableId: string): set<string> {
    set job, e | job in pending && job.EditFields? && job.tableId == tableId && e in job.edits && Adds(e) :: e.name
  }

  ghost predicate DistinctAdditions(edits: seq<FieldEdit>) {
    forall i, j | 0 <= i < j < |edits| && Adds(edits[i]) && Adds(edits[j]) :: edits[i].name != edits[j].name
  }

  /** The queued additions to a table are of distinct names that are not recorded. */
  ghost predicate NoFieldCountedTwice(s: State, tableId: string) {
    && (forall job | job in s.pending && job.EditFields? && job.tableId == tableId :: DistinctAdditions(job.edits))
    && (forall i, j | 0 <= i < j < |s.pending| && s.pending[i].EditFields? && s.pending[j].EditFields?
                      && s.pending[i].tableId == tableId && s.pending[j].tableId == tableId ::
          AddedNames(s.pending[i].edits) !! AddedNames(s.pending[j].edits))
    && (forall c | c in WaitingNames(s.pending, tableId) :: (tableId, c) !in s.rows)
  }

  lemma FirstAddition(edits: seq<FieldEdit>)
    requires DistinctAdditions(edits) && edits != []
    ensures DistinctAdditions(edits[1..])
    ensures AddedNames(edits) == (if Adds(edits[0]) then {edits[0].name} else {}) + AddedNames(edits[1..])
    ensures Adds(edits[0]) ==> edits[0].name !in AddedNames(edits[1..])
  {
    var e, rest := edits[0], edits[1..];
    forall i | 0 <= i < |rest|
      ensures rest[i] == edits[i + 1]
      ensures Adds(e) && Adds(rest[i]) ==> rest[i].name != e.name
    {
    }
    assert forall other | other in edits :: other == e || other in rest;
    assert forall other | other in rest :: other in edits;
    assert e in edits;
  }

  lemma {:induction false} DistinctAdditionsCount(edits: seq<FieldEdit>)
    requires DistinctAdditions(edits)
    ensures CountAdditions(CompileAll(edits)) == |AddedNames(edits)|
  {
    if edits != [] {
      hide DistinctAdditions, AddedNames, Compile;
      FirstAddition(edits);
      DistinctAdditionsCount(edits[1..]);
      CountConcat(Compile(edits[0]), CompileAll(edits[1..]));
      CountOfOne(edits[0]);
    } else {
      assert AddedNames(edits) == {};
    }
  }

  lemma WaitingIsPending(pending: seq<Job>, tableId: string)
    ensures WaitingNames(pending, tableId) == PendingNames(pending, tableId)
  {
    forall c
      ensures c in WaitingNames(pending, tableId) <==> c in PendingNames(pending, tableId)
    {
      if c in PendingNames(pending, tableId) {
        var job :| job in pending && Edits(job, tableId) && c in AddedNames(job.edits);
        var e :| e in job.edits && Adds(e) && e.name == c;
      }
      if c in WaitingNames(pending, tableId) {
        var job, e :| job in pending && job.EditFields? && job.tableId == tableId && e in job.edits && Adds(e) && e.name == c;
        assert c in AddedNames(job.edits);
      }
    }
  }

  lemma {:induction false} DistinctPendingCount(pending: seq<Job>, tableId: string)
    requires forall job | job in pending && Edits(job, tableId) :: DistinctAdditions(job.edits)
    requires forall i, j | 0 <= i < j < |pending| && Edits(pending[i], tableId) && Edits(pending[j], tableId) ::
               AddedNames(pending[i].edits) !! AddedNames(pending[j].edits)
    ensures PendingAdditions(pending, tableId) == |PendingNames(pending, tableId)|
  {
    if pending != [] {
      var before, job := pending[..|pending| - 1], pending[|pending| - 1];
      assert pending == before + [job];
      DistinctPendingCount(before, tableId);
      PendingNamesAppended(before, job, tableId);
      if Edits(job, tableId) {
        DistinctAdditionsCount(job.edits);
        assert PendingNames(before, tableId) !! AddedNames(job.edits);
      }
    }
  }

  /**
   * Unless something is counted twice, an edit that adds fields is refused
   * exactly when the table's recorded fields, the ones its own queued jobs add
   * and the request's are together more than the limit; what the queue adds to
   * other tables does not count.
   */
  lemma EditRefusedIffOverLimit(s: State, limits: Limits, tableId: string, edits: seq<FieldEdit>)
    requires NoFieldCountedTwice(s, tableId) && DistinctAdditions(edits)
    ensures var added := set e | e in edits && Adds(e) :: e.name;
            AdmitsEdit(s, limits, tableId, edits) <==>
            && tableId in s.tables
            && (added == {}
                || |(set key | key in s.rows && key.0 == tableId :: key.1) + WaitingNames(s.pending, tableId)| + |added| <= limits.fields)
  {
    var added := set e | e in edits && Adds(e) :: e.name;
    assert added == AddedNames(edits);
    DistinctAdditionsCount(edits);
    WaitingIsPending(s.pending, tableId);
    DistinctPendingCount(s.pending, tableId);
    assert SlugsOf(s.rows, tableId) == set key | key in s.rows && key.0 == tableId :: key.1;
    assert SlugsOf(s.rows, tableId) !! WaitingNames(s.pending, tableId);
    hide AddedNames, PendingNames, WaitingNames, SlugsOf, CompileAll;
  }
}
