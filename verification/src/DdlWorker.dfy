/**
 * The DDL worker: executes a job's steps one transaction at a time against the
 * tenant schema, logs each, and writes the metadata rows last.
 */
module DdlWorkers {
  import opened Wrappers
  import opened PhysicalTable
  import opened RetryConvergence
  import opened SchemaMetadata

  datatype MigrationStatus = MigrationCompleted | MigrationFailed

  datatype MigrationRow = MigrationRow(jobTableId: string, step: Option<FieldEditStep>, status: MigrationStatus)

  /** What the environment does to one step: nothing, a failed transaction, a failed log insert, or a dead process. */
  datatype Fault = Healthy | StepFails | RecordFails | Crash

  /** The log of the first `n` steps. */
  function CompletedRows(job: FieldEditJob, n: nat): seq<MigrationRow>
    requires n <= |job.steps|
  {
    seq(n, i requires 0 <= i < n => MigrationRow(job.tableId, Some(job.steps[i]), MigrationCompleted))
  }

  class DdlWorker {
    const cast: Caster
    var physical: map<string, Table>
    var metaTables: map<string, string>
    var metaFields: FieldRows
    var migrations: seq<MigrationRow>

    constructor (cast: Caster, s: TenantSchema)
      ensures this.cast == cast && Schema() == s && migrations == []
    {
      this.cast := cast;
      physical, metaTables, metaFields, migrations := s.physical, s.metaTables, s.metaFields, [];
    }

    function Schema(): TenantSchema
      reads this
    {
      TenantSchema(physical, metaTables, metaFields)
    }

    function Host(): Server
      reads this
    {
      Server(cast, physical.Keys)
    }

    method ExecuteStep(tableName: string, step: FieldEditStep) returns (ok: bool)
      requires tableName in physical
      modifies this`physical
      ensures match Exec(old(Host()), old(physical)[tableName], step)
              case Some(t) => ok && physical == old(physical)[tableName := t]
              case None => !ok && physical == old(physical)
    {
      var t := physical[tableName];
      match step
      case AddColumn(c, dataType, required) =>
        ok := true;
        if c !in t.cols {
          if dataType == RELATION {
            return false;
          }
          ok := AlterAddColumn(tableName, c, ColumnTypeOf(dataType), required);
        } else {
          assert physical == physical[tableName := t];
        }
      case AddRelationColumn(c, target, required) =>
        ok := true;
        if c !in t.cols {
          if target !in physical {
            return false;
          }
          ok := AlterAddColumn(tableName, c, Integer, required);
        } else {
          assert physical == physical[tableName := t];
        }
      case DropColumn(c) =>
        if c in t.cols {
          physical := physical[tableName := t.(cols := t.cols - {c})];
        } else {
          assert t.cols - {c} == t.cols;
          assert physical == physical[tableName := t];
        }
        ok := true;
      case AddShadowColumn(shadow, dataType, _) =>
        ok := true;
        if shadow !in t.cols {
          if dataType == RELATION {
            return false;
          }
          ok := AlterAddColumn(tableName, shadow, ColumnTypeOf(dataType), false);
        } else {
          assert physical == physical[tableName := t];
        }
      case BackfillColumn(source, shadow) =>
        if source !in t.cols || shadow !in t.cols {
          return false;
        }
        var cells := CastAll(cast, t.cols[source].ty, t.cols[shadow].ty, t.cols[source].cells);
        if cells.None? || (t.cols[shadow].notNull && Null in cells.value) {
          return false;
        }
        physical := physical[tableName := t.(cols := t.cols[shadow := t.cols[shadow].(cells := cells.value)])];
        ok := true;
      case CutoverColumn(source, shadow, final) =>
        var sourceExists, shadowExists := source in t.cols, shadow in t.cols;
        if !sourceExists && !shadowExists {
          assert t.cols - {source} == t.cols;
          assert physical == physical[tableName := t];
          return true;
        }
        var cols := t.cols;
        if sourceExists {
          cols := cols - {source};
        }
        if shadowExists {
          if shadow !in cols || (final in cols) {
            return false;
          }
          cols := (cols - {shadow})[final := t.cols[shadow]];
        }
        physical := physical[tableName := t.(cols := cols)];
        assert t.cols - {source} == if sourceExists then t.cols - {source} else t.cols;
        ok := true;
    }

    method AlterAddColumn(tableName: string, c: string, ty: PgType, required: bool) returns (ok: bool)
      requires tableName in physical
      modifies this`physical
      ensures match AddNew(old(physical)[tableName], c, ty, required)
              case Some(t) => ok && physical == old(physical)[tableName := t]
              case None => !ok && physical == old(physical)
    {
      var t := physical[tableName];
      if required && t.rows > 0 {
        return false;
      }
      physical := physical[tableName := t.(cols := t.cols[c := EmptyColumn(ty, required, t.rows)])];
      ok := true;
    }

    method RecordMigration(row: MigrationRow)
      modifies this`migrations
      ensures migrations == old(migrations) + [row]
    {
      migrations := migrations + [row];
    }

    /** One step in its own transaction, then its log row. */
    method ProcessStep(job: FieldEditJob, step: FieldEditStep, fault: Fault) returns (committed: bool, goOn: bool)
      requires job.tableName in physical
      modifies this`physical, this`migrations
      ensures committed <==>
              (fault == Healthy || fault == RecordFails) && Exec(old(Host()), old(physical)[job.tableName], step).Some?
      ensures physical == if committed
                          then old(physical)[job.tableName := Exec(old(Host()), old(physical)[job.tableName], step).value]
                          else old(physical)
      ensures goOn <==> committed && fault == Healthy
      ensures migrations == if fault == Crash then old(migrations) else
                old(migrations) + [MigrationRow(job.tableId, Some(step), if goOn then MigrationCompleted else MigrationFailed)]
    {
      committed, goOn := false, false;
      if fault == Crash {
        return;
      }
      if fault != StepFails {
        committed := ExecuteStep(job.tableName, step);
      }
      goOn := committed && fault != RecordFails;
      RecordMigration(MigrationRow(job.tableId, Some(step), if goOn then MigrationCompleted else MigrationFailed));
    }

    /**
     * One attempt of a field-edit job: `prefix` steps committed, `logged` of
     * them recorded completed. Metadata changes exactly when the attempt succeeds.
     */
    method ProcessFieldEdit(job: FieldEditJob, faults: nat -> Fault, metadataFails: bool)
      returns (ok: bool, ghost prefix: nat, ghost logged: nat)
      requires job.tableName in physical
      modifies this
      ensures logged <= prefix <= |job.steps| && prefix <= logged + 1
      ensures ok ==> EditTable(cast, old(Schema()), job) == Some(Schema()) && logged == |job.steps|
      ensures !ok ==> Schema() == EditAttempts(cast, old(Schema()), job, [prefix])
      ensures old(migrations) + CompletedRows(job, logged) <= migrations
      ensures |migrations| <= |old(migrations)| + logged + if ok then 0 else 1
      ensures (forall i: nat :: faults(i) == Healthy) && !metadataFails ==>
                (ok <==> EditTable(cast, old(Schema()), job).Some?)
    {
      hide ApplyEffects;
      ghost var server, t0 := Host(), physical[job.tableName];
      ok, prefix, logged := false, 0, 0;
      var i := 0;
      assert job.steps[..0] == [];
      assert physical == physical[job.tableName := t0];
      while i < |job.steps|
        invariant 0 <= i == prefix == logged <= |job.steps|
        invariant Run(server, t0, job.steps[..i]).committed == i
        invariant physical == old(physical)[job.tableName := Run(server, t0, job.steps[..i]).table]
        invariant migrations == old(migrations) + CompletedRows(job, i)
        modifies this`physical, this`migrations
      {
        RunPrefixThenStep(server, t0, job.steps, i);
        var committed, goOn := ProcessStep(job, job.steps[i], faults(i));
        prefix := if committed then i + 1 else i;
        if !goOn {
          if faults(i) == Healthy {
            FailedStepStops(server, t0, job.steps, i);
          }
          StoppedEarly(server, t0, job.steps, prefix);
          return;
        }
        assert CompletedRows(job, i + 1) == CompletedRows(job, i) + [MigrationRow(job.tableId, Some(job.steps[i]), MigrationCompleted)];
        i := i + 1;
        logged := i;
      }
      assert job.steps[..i] == job.steps;
      if metadataFails {
        StoppedEarly(server, t0, job.steps, prefix);
        return;
      }
      ApplyMetadata(job);
      ok := true;
    }

    method ApplyMetadata(job: FieldEditJob)
      modifies this`metaFields
      ensures metaFields == ApplyEffects(old(metaFields), job.tableId, job.effects)
    {
      var i := 0;
      while i < |job.effects|
        invariant 0 <= i <= |job.effects|
        invariant ApplyEffects(metaFields, job.tableId, job.effects[i..]) ==
                  ApplyEffects(old(metaFields), job.tableId, job.effects)
      {
        assert job.effects[i..][0] == job.effects[i] && job.effects[i..][1..] == job.effects[i + 1..];
        match job.effects[i] {
          case UpsertField(slug, row) => UpsertMetaField(job.tableId, slug, row);
          case RemoveField(slug) => metaFields := metaFields - {(job.tableId, slug)};
        }
        i := i + 1;
      }
    }

    method UpsertMetaField(tableId: string, slug: string, row: FieldRow)
      modifies this`metaFields
      ensures metaFields == old(metaFields)[(tableId, slug) := row]
    {
      metaFields := metaFields[(tableId, slug) := row];
    }

    /** The create-table job: one transaction, rolled back as a whole, then its log row. */
    method ProcessCreateTable(job: CreateTableJob, transactionFails: bool) returns (ok: bool)
      modifies this
      ensures ok ==> CreateTable(old(Schema()), job) == Some(Schema())
      ensures !ok ==> Schema() == old(Schema())
      ensures ok <==> !transactionFails && CreateTable(old(Schema()), job).Some?
      ensures migrations == old(migrations) +
                [MigrationRow(job.tableId, None, if ok then MigrationCompleted else MigrationFailed)]
    {
      var savedPhysical, savedTables, savedFields := physical, metaTables, metaFields;
      ok := !transactionFails;
      if ok && job.tableName !in physical {
        ok := Creatable(job.fields);
        if ok {
          physical := physical[job.tableName := Table(0, FieldColumns(job.fields) + SystemColumns())];
        }
      }
      if ok {
        ok := UpsertMetaTable(job.tableId, job.tableName);
      }
      if ok {
        var i := 0;
        while i < |job.fields|
          invariant 0 <= i <= |job.fields|
          invariant metaFields == UpsertFields(savedFields, job.tableId, job.fields[..i])
          modifies this`metaFields
        {
          assert job.fields[..i + 1][..i] == job.fields[..i];
          UpsertMetaField(job.tableId, job.fields[i].name, RowFrom(job.fields[i]));
          i := i + 1;
        }
        assert job.fields[..i] == job.fields;
      } else {
        physical, metaTables, metaFields := savedPhysical, savedTables, savedFields;
      }
      RecordMigration(MigrationRow(job.tableId, None, if ok then MigrationCompleted else MigrationFailed));
    }

    /** Insert or update the `_meta_tables` row; its slug is unique. */
    method UpsertMetaTable(tableId: string, name: string) returns (ok: bool)
      modifies this`metaTables
      ensures ok <==> !exists id | id in old(metaTables) :: id != tableId && old(metaTables)[id] == name
      ensures metaTables == if ok then old(metaTables)[tableId := name] else old(metaTables)
    {
      ok := forall id | id in metaTables :: id == tableId || metaTables[id] != name;
      if ok {
        metaTables := metaTables[tableId := name];
      }
    }
  }

  // ----- facts about prefixes of a run ---------------------------------

  lemma RunPrefixThenStep(server: Server, t: Table, steps: seq<FieldEditStep>, i: nat)
    requires i < |steps| && Run(server, t, steps[..i]).committed == i
    ensures var ti := Run(server, t, steps[..i]).table;
            Run(server, t, steps[..i + 1]) ==
            match Exec(server, ti, steps[i]) case Some(t') => Progress(t', i + 1) case None => Progress(ti, i)
  {
    assert steps[..i + 1] == steps[..i] + [steps[i]];
    RunConcat(server, t, steps[..i], [steps[i]]);
    Unroll(server, Run(server, t, steps[..i]).table, [steps[i]], 1);
    assert [steps[i]][..1] == [steps[i]];
    assert [steps[i]][1..] == [];
  }

  lemma FailedStepStops(server: Server, t: Table, steps: seq<FieldEditStep>, i: nat)
    requires i < |steps| && Run(server, t, steps[..i + 1]).committed == i
    ensures Run(server, t, steps).committed == i
  {
    JoinedAt(steps, i + 1);
    RunConcat(server, t, steps[..i + 1], steps[i + 1..]);
  }

  lemma JoinedAt(steps: seq<FieldEditStep>, i: nat)
    requires i <= |steps|
    ensures steps[..i] + steps[i..] == steps
  {
  }

  lemma StoppedEarly(server: Server, t: Table, steps: seq<FieldEditStep>, k: nat)
    requires k <= |steps|
    ensures AfterAttempts(server, t, steps, [k]) == Run(server, t, steps[..k]).table
  {
    assert [k][1..] == [];
  }
}
