/**
 * One job run after the other, each cut anywhere by a crash or a timeout: what
 * a run leaves behind can always be cleaned up, and a failed run cleans it up.
 */
module ProvisioningRetries {
  import opened Wrappers
  import opened StepOutcomes
  import opened FirstAdmins
  import opened SetupLinks
  import opened Provisioning
  import opened ProvisioningRuns
  import opened ProvisioningCleanup

  // ----- what holds at every point of every run ------------------------

  /** The points that are reached only with a tenant row. */
  predicate NeedsTenant(pc: Pc) {
    || pc.ReadStatus? || pc.ResetStatus? || pc.RecordCreation? || pc.DoStep? || pc.RecordStep?
    || pc.SendEmail? || pc.RecordEmail? || pc.Activate? || pc.RecordActivation?
    || pc.ReadOutcomes? || pc.RevokeSetupTokens? || pc.DeactivateFirstAdmin? || pc.DropSchema? || pc.MarkFailed?
  }

  /** A schema that exists is recorded, so that compensation will drop it. */
  predicate SchemaTraced(w: World, pc: Pc) {
    && (w.schema ==> pc == RecordStep(0, true) || Recorded(w.attempt.outcomes, SCHEMA_CREATED))
    && (pc == RecordStep(0, false) ==> !w.schema)
    && (pc.RevokeSetupTokens? || pc.DeactivateFirstAdmin? || pc.DropSchema? ==> pc.read == w.attempt.outcomes)
  }

  /** Everything the run has made can be found again; `base` are the identity tables without it. */
  ghost predicate Owned(base: Identity, w: World, pc: Pc) {
    && Outline(w, pc) && AuditEarned(w) && DistinctSteps(w.attempt.outcomes)
    && AtMostAdminAdded(base, w.identity, w.tenantId)
    && SchemaTraced(w, pc)
    && (NeedsTenant(pc) ==> w.tenant.Some?)
  }

  /**
   * Generated ids are new, and the creation of the schema and its record do
   * not come apart: the code has no transaction around the two.
   */
  predicate OrderlyStep(w: World, pc: Pc, i: Input) {
    && (pc == DoStep(3) ==> Unused(w.identity, i.ids))
    && (pc == DoStep(0) && w.schema ==> i.ok)
    && (pc == RecordStep(0, true) ==> i.ok)
  }

  lemma NextKeepsIdentity(base: Identity, w: World, pc: Pc, i: Input)
    requires ReferencesHold(base) && NoAdmin(base, w.tenantId)
    requires AtMostAdminAdded(base, w.identity, w.tenantId) && (pc == DoStep(3) ==> Unused(w.identity, i.ids))
    ensures var w' := Next(w, pc, i, false).0;
            w'.tenantId == w.tenantId && AtMostAdminAdded(base, w'.identity, w.tenantId)
  {
    hide AtMostAdminAdded, Assign, Deactivate, Unused, UpsertAll;
    if pc == DoStep(3) && StepEffect(w, 3, i).Some? {
      AssignAddsAtMostAdmin(base, w.identity, w.tenantId, w.adminEmail, i.ids);
    } else if pc.DeactivateFirstAdmin? {
      DeactivateRestores(base, w.identity, w.tenantId);
      RestoredIsOwned(base, w.tenantId);
    }
  }

  lemma RestoredIsOwned(base: Identity, tenantId: Id)
    ensures AtMostAdminAdded(base, base, tenantId)
  {
  }

  lemma NextKeepsTenant(w: World, pc: Pc, i: Input)
    requires NeedsTenant(pc) ==> w.tenant.Some?
    ensures var (w', pc') := Next(w, pc, i, false); NeedsTenant(pc') ==> w'.tenant.Some?
  {
    hide Assign, Deactivate, UpsertAll, Recorded;
  }

  /** Writing any outcome but one of the schema step leaves the schema's record alone. */
  lemma OtherWritesKeepRecord(list: seq<Outcome>, outcomes: seq<Outcome>)
    requires DistinctSteps(list) && forall o | o in outcomes :: o.step != SCHEMA_CREATED
    ensures Recorded(UpsertAll(list, outcomes), SCHEMA_CREATED) <==> Recorded(list, SCHEMA_CREATED)
  {
    hide Recorded;
    if outcomes != [] {
      var n := |outcomes| - 1;
      var before := UpsertAll(list, outcomes[..n]);
      OtherWritesKeepRecord(list, outcomes[..n]);
      UpsertAllKeepsDistinct(list, outcomes[..n]);
      RecordedAfterUpsert(before, outcomes[n], SCHEMA_CREATED);
      assert outcomes[n] in outcomes;
    }
  }

  lemma SchemaRecordKeepsTrace(w: World, pc: Pc, i: Input)
    requires pc.RecordStep? && pc.k == 0 && Outline(w, pc) && DistinctSteps(w.attempt.outcomes)
    requires SchemaTraced(w, pc) && OrderlyStep(w, pc, i)
    ensures var (w', pc') := Next(w, pc, i, false); SchemaTraced(w', pc')
  {
    WriteRecords(w.attempt.outcomes, SCHEMA_CREATED, SucceededIf(pc.done), i.detail);
    hide UpsertAll, Recorded, DistinctSteps;
  }

  lemma RecordingMakesNoSchema(w: World, pc: Pc, i: Input)
    requires Records(pc) && !(pc.RecordStep? && pc.k == 0)
    ensures var (w', pc') := Next(w, pc, i, false);
            && w'.schema == w.schema && !pc'.RevokeSetupTokens? && !pc'.DeactivateFirstAdmin? && !pc'.DropSchema?
            && (pc'.RecordStep? ==> pc'.k != 0)
  {
    hide UpsertAll;
  }

  lemma RecordingKeepsTrace(w: World, pc: Pc, i: Input)
    requires Records(pc) && !(pc.RecordStep? && pc.k == 0) && Outline(w, pc) && DistinctSteps(w.attempt.outcomes)
    requires SchemaTraced(w, pc)
    ensures var (w', pc') := Next(w, pc, i, false); SchemaTraced(w', pc')
  {
    hide Next, UpsertAll, Recorded, DistinctSteps;
    OtherWritesKeepRecord(w.attempt.outcomes, Writes(pc, i));
    hide Writes;
    NextWrites(w, pc, i, false);
    RecordingMakesNoSchema(w, pc, i);
  }

  lemma OtherPointsKeepTrace(w: World, pc: Pc, i: Input)
    requires !Records(pc) && Outline(w, pc) && SchemaTraced(w, pc) && OrderlyStep(w, pc, i)
    ensures var (w', pc') := Next(w, pc, i, false); SchemaTraced(w', pc')
  {
    hide Recorded, Assign, Deactivate;
  }

  lemma NextKeepsOwned(base: Identity, w: World, pc: Pc, i: Input, aborted: bool)
    requires ReferencesHold(base) && NoAdmin(base, w.tenantId)
    requires Owned(base, w, pc) && OrderlyStep(w, pc, i) && !(aborted && pc == RecordStep(0, true))
    ensures var (w', pc') := Next(w, pc, i, aborted); Owned(base, w', pc') && w'.tenantId == w.tenantId
  {
    if aborted && !Unchecked(pc) {
      assert Next(w, pc, i, aborted) == (w, Finished(Cancelled));
    } else {
      assert Next(w, pc, i, aborted) == Next(w, pc, i, false);
      hide Next;
      NextKeepsOutline(w, pc, i, false);
      NextKeepsIdentity(base, w, pc, i);
      NextKeepsTenant(w, pc, i);
      if pc.RecordStep? && pc.k == 0 {
        SchemaRecordKeepsTrace(w, pc, i);
      } else if Records(pc) {
        RecordingKeepsTrace(w, pc, i);
      } else {
        OtherPointsKeepTrace(w, pc, i);
      }
    }
  }

  // ----- job runs, cut anywhere ----------------------------------------

  /** Runs until `n` actions are done or the run has finished. */
  ghost function RunSteps(w: World, pc: Pc, oracle: Oracle, n: nat, aborted: bool): (World, Pc)
    decreases n
  {
    if n == 0 || pc.Finished? then (w, pc)
    else
      var (w', pc') := Next(w, pc, oracle(pc), aborted);
      RunSteps(w', pc', oracle, n - 1, aborted)
  }

  /** The first `n` actions are orderly. */
  ghost predicate Orderly(w: World, pc: Pc, oracle: Oracle, n: nat, aborted: bool)
    decreases n
  {
    n == 0 || pc.Finished? ||
    (&& OrderlyStep(w, pc, oracle(pc)) && !(aborted && pc == RecordStep(0, true))
     && var (w', pc') := Next(w, pc, oracle(pc), aborted);
        Orderly(w', pc', oracle, n - 1, aborted))
  }

  lemma {:induction false} StepsKeepOwned(base: Identity, w: World, pc: Pc, oracle: Oracle, n: nat, aborted: bool)
    requires ReferencesHold(base) && NoAdmin(base, w.tenantId)
    requires Owned(base, w, pc) && Orderly(w, pc, oracle, n, aborted)
    ensures var (w', pc') := RunSteps(w, pc, oracle, n, aborted); Owned(base, w', pc') && w'.tenantId == w.tenantId
    decreases n
  {
    hide Next, Owned;
    if n != 0 && !pc.Finished? {
      NextKeepsOwned(base, w, pc, oracle(pc), aborted);
      var (w', pc') := Next(w, pc, oracle(pc), aborted);
      StepsKeepOwned(base, w', pc', oracle, n - 1, aborted);
    }
  }

  datatype Expiry =
    | NotExpired
    /** The timer fires: the lifecycle does `late` more actions, then the handler does `steps`. */
    | Expired(late: nat, handler: Oracle, steps: nat)

  /** One job run: the process dies after `steps` actions, unless the run is over or the timer fires first. */
  datatype JobRun = JobRun(lifecycle: Oracle, steps: nat, expiry: Expiry)

  ghost function Work(w: World, job: JobRun): World {
    var (w1, pc1) := RunSteps(w, Begin, job.lifecycle, job.steps, false);
    match job.expiry
    case NotExpired => w1
    case Expired(late, handler, steps) =>
      var (w2, _) := RunSteps(w1, pc1, job.lifecycle, late, true);
      RunSteps(w2, TimeoutStart, handler, steps, false).0
  }

  ghost predicate OrderlyJob(w: World, job: JobRun) {
    var (w1, pc1) := RunSteps(w, Begin, job.lifecycle, job.steps, false);
    && Orderly(w, Begin, job.lifecycle, job.steps, false) && pc1 != RecordStep(0, true)
    && match job.expiry
       case NotExpired => true
       case Expired(late, handler, steps) =>
         var (w2, pc2) := RunSteps(w1, pc1, job.lifecycle, late, true);
         && Orderly(w1, pc1, job.lifecycle, late, true) && pc2 != RecordStep(0, true)
         && Orderly(w2, TimeoutStart, handler, steps, false)
         && RunSteps(w2, TimeoutStart, handler, steps, false).1 != RecordStep(0, true)
  }

  /** A point at which the next run can take over. */
  lemma OwnedIsRecoverable(base: Identity, w: World, pc: Pc, start: Pc)
    requires Owned(base, w, pc) && pc != RecordStep(0, true) && (start == Begin || start == TimeoutStart)
    ensures Owned(base, w, start)
  {
  }

  lemma JobKeepsRecoverable(base: Identity, w: World, job: JobRun)
    requires ReferencesHold(base) && NoAdmin(base, w.tenantId) && Owned(base, w, Begin) && OrderlyJob(w, job)
    ensures Owned(base, Work(w, job), Begin) && Work(w, job).tenantId == w.tenantId
  {
    hide Owned, RunSteps, Orderly;
    StepsKeepOwned(base, w, Begin, job.lifecycle, job.steps, false);
    var (w1, pc1) := RunSteps(w, Begin, job.lifecycle, job.steps, false);
    OwnedIsRecoverable(base, w1, pc1, Begin);
    if job.expiry.Expired? {
      StepsKeepOwned(base, w1, pc1, job.lifecycle, job.expiry.late, true);
      var (w2, pc2) := RunSteps(w1, pc1, job.lifecycle, job.expiry.late, true);
      OwnedIsRecoverable(base, w2, pc2, TimeoutStart);
      StepsKeepOwned(base, w2, TimeoutStart, job.expiry.handler, job.expiry.steps, false);
      var (w3, pc3) := RunSteps(w2, TimeoutStart, job.expiry.handler, job.expiry.steps, false);
      OwnedIsRecoverable(base, w3, pc3, Begin);
    }
  }

  ghost function WorkAll(w: World, jobs: seq<JobRun>): World
    decreases |jobs|
  {
    if jobs == [] then w else WorkAll(Work(w, jobs[0]), jobs[1..])
  }

  ghost predicate OrderlyJobs(w: World, jobs: seq<JobRun>)
    decreases |jobs|
  {
    jobs == [] || (OrderlyJob(w, jobs[0]) && OrderlyJobs(Work(w, jobs[0]), jobs[1..]))
  }

  lemma {:induction false} JobsKeepRecoverable(base: Identity, w: World, jobs: seq<JobRun>)
    requires ReferencesHold(base) && NoAdmin(base, w.tenantId) && Owned(base, w, Begin) && OrderlyJobs(w, jobs)
    ensures Owned(base, WorkAll(w, jobs), Begin) && WorkAll(w, jobs).tenantId == w.tenantId
    decreases |jobs|
  {
    hide Owned, Work, OrderlyJob;
    if jobs != [] {
      JobKeepsRecoverable(base, w, jobs[0]);
      JobsKeepRecoverable(base, Work(w, jobs[0]), jobs[1..]);
    }
  }

  // ----- clean-up ------------------------------------------------------

  /** Nothing of the attempt is left but its failed tenant row. */
  predicate Clean(base: Identity, w: World) {
    && (forall h | h in w.tokens && w.tokens[h].tenantId == w.tenantId :: !Live(w.tokens[h]))
    && w.identity == base
    && !w.schema
    && w.tenant == Some(TenantFailed)
  }

  predicate CompensationWorks(w: World, oracle: Oracle) {
    HandlerRuns(w, oracle) && !AnyFailed(CompensationOf(w, oracle))
  }

  lemma HandlerCleans(base: Identity, w: World, oracle: Oracle)
    requires ReferencesHold(base) && NoAdmin(base, w.tenantId)
    requires Owned(base, w, ReadOutcomes) && CompensationWorks(w, oracle)
    ensures var w' := Complete(w, ReadOutcomes, oracle).0; Clean(base, w') && w'.attempt.status == Failed
  {
    var c := CompensationOf(w, oracle);
    DeactivateRestores(base, w.identity, w.tenantId);
    assert c[0].Done? && c[1].Done? by {
      assert c[0] in c && c[1] in c;
    }
    assert c[2] in c;
    hide Complete, Deactivate, AtMostAdminAdded, Recorded;
    HandlerResult(w, oracle);
  }

  lemma OrderlyShorter(w: World, pc: Pc, oracle: Oracle, n: nat, m: nat)
    requires m <= n && Orderly(w, pc, oracle, n, false)
    ensures Orderly(w, pc, oracle, m, false)
    decreases m
  {
    hide Next, OrderlyStep;
    if m != 0 && !pc.Finished? {
      var (w', pc') := Next(w, pc, oracle(pc), false);
      OrderlyShorter(w', pc', oracle, n - 1, m - 1);
    }
  }

  lemma {:induction false} OwnedUntilHandler(base: Identity, w: World, pc: Pc, oracle: Oracle)
    requires ReferencesHold(base) && NoAdmin(base, w.tenantId)
    requires Owned(base, w, pc) && Orderly(w, pc, oracle, Rank(pc), false)
    ensures var (w', pc') := UntilHandler(w, pc, oracle); Owned(base, w', pc') && w'.tenantId == w.tenantId
    decreases Rank(pc)
  {
    hide Next, Owned, OrderlyStep;
    if !pc.Finished? && !pc.ReadOutcomes? {
      NextDescends(w, pc, oracle(pc));
      NextKeepsOwned(base, w, pc, oracle(pc), false);
      var (w', pc') := Next(w, pc, oracle(pc), false);
      OrderlyShorter(w', pc', oracle, Rank(pc) - 1, Rank(pc'));
      OwnedUntilHandler(base, w', pc', oracle);
    }
  }

  /**
   * After any number of job runs, each crashed, timed out or failed anywhere,
   * a lifecycle or timeout run that reaches its handler and whose three
   * compensation actions work leaves no live setup token, the identity tables
   * as they were, no schema, and the tenant and the attempt failed.
   */
  lemma FailedRunCleansUp(base: Identity, w: World, jobs: seq<JobRun>, start: Pc, oracle: Oracle)
    requires ReferencesHold(base) && NoAdmin(base, w.tenantId) && Owned(base, w, Begin) && OrderlyJobs(w, jobs)
    requires start == Begin || start == TimeoutStart
    requires Orderly(WorkAll(w, jobs), start, oracle, Rank(start), false)
    requires var (w1, pc1) := UntilHandler(WorkAll(w, jobs), start, oracle);
             pc1.ReadOutcomes? && CompensationWorks(w1, oracle)
    ensures var w' := Complete(WorkAll(w, jobs), start, oracle).0; Clean(base, w') && w'.attempt.status == Failed
  {
    hide Complete, Owned, UntilHandler, Orderly, Clean, CompensationWorks, OrderlyJobs, WorkAll, Next;
    JobsKeepRecoverable(base, w, jobs);
    var before := WorkAll(w, jobs);
    OwnedIsRecoverable(base, before, Begin, start);
    OwnedUntilHandler(base, before, start, oracle);
    CompleteViaHandler(before, start, oracle);
    HandlerCleans(base, UntilHandler(before, start, oracle).0, oracle);
  }

  // ----- every later retry ---------------------------------------------

  /** The points of a retry that has not touched any resource yet. */
  predicate Early(pc: Pc) {
    pc.Begin? || pc.ReadStatus? || pc.ResetStatus? || pc == RecordCreation(Resuming) || pc.Finished?
  }

  /** The points a retry of a failed tenant visits before its handler. */
  predicate OnRetry(pc: Pc) {
    || Early(pc) || pc.DoStep? || pc.RecordStep? || pc.SendEmail? || pc.RecordEmail?
    || pc.Activate? || pc == RecordActivation(false) || pc.ReadOutcomes?
  }

  ghost predicate Retrying(before: World, w: World, pc: Pc) {
    && w.tenant == Some(TenantFailed) && w.tenantId == before.tenantId && OnRetry(pc)
    && (Early(pc) ==> w.tokens == before.tokens && w.identity == before.identity && w.schema == before.schema)
  }

  lemma NextKeepsRetrying(before: World, w: World, pc: Pc, i: Input)
    requires Retrying(before, w, pc) && !pc.ReadOutcomes?
    ensures var (w', pc') := Next(w, pc, i, false); Retrying(before, w', pc')
  {
    NextStaysOnRetry(w, pc, i);
    NextEarlyTouchesNothing(w, pc, i);
    hide Next;
  }

  lemma NextStaysOnRetry(w: World, pc: Pc, i: Input)
    requires w.tenant == Some(TenantFailed) && OnRetry(pc) && !pc.ReadOutcomes?
    ensures var (w', pc') := Next(w, pc, i, false); w'.tenant == w.tenant && w'.tenantId == w.tenantId && OnRetry(pc')
  {
    hide Assign, UpsertAll;
  }

  lemma NextEarlyTouchesNothing(w: World, pc: Pc, i: Input)
    requires OnRetry(pc) && !pc.ReadOutcomes? && w.tenant.Some?
    ensures var (w', pc') := Next(w, pc, i, false);
            Early(pc') ==> Early(pc) && w'.tokens == w.tokens && w'.identity == w.identity && w'.schema == w.schema
  {
    hide Assign, UpsertAll;
  }

  lemma {:induction false} RetryingUntilHandler(before: World, w: World, pc: Pc, oracle: Oracle)
    requires Retrying(before, w, pc)
    ensures var (w', pc') := UntilHandler(w, pc, oracle);
            Retrying(before, w', pc') && (pc'.Finished? || pc'.ReadOutcomes?)
    decreases Rank(pc)
  {
    hide Next, Retrying;
    if !pc.Finished? && !pc.ReadOutcomes? {
      NextDescends(w, pc, oracle(pc));
      NextKeepsRetrying(before, w, pc, oracle(pc));
      var (w', pc') := Next(w, pc, oracle(pc), false);
      RetryingUntilHandler(before, w', pc', oracle);
    }
  }

  lemma {:induction false} CompleteKeepsOwned(base: Identity, w: World, pc: Pc, oracle: Oracle)
    requires ReferencesHold(base) && NoAdmin(base, w.tenantId)
    requires Owned(base, w, pc) && Orderly(w, pc, oracle, Rank(pc), false)
    ensures Owned(base, Complete(w, pc, oracle).0, Begin) && Complete(w, pc, oracle).0.tenantId == w.tenantId
    decreases Rank(pc)
  {
    hide Next, Owned, OrderlyStep;
    if pc.Finished? {
      OwnedIsRecoverable(base, w, pc, Begin);
    } else {
      NextDescends(w, pc, oracle(pc));
      NextKeepsOwned(base, w, pc, oracle(pc), false);
      var (w', pc') := Next(w, pc, oracle(pc), false);
      OrderlyShorter(w', pc', oracle, Rank(pc) - 1, Rank(pc'));
      CompleteKeepsOwned(base, w', pc', oracle);
    }
  }

  datatype Retry =
    | Ran(lifecycle: Oracle)
    | TimedOut(lifecycle: Oracle, steps: nat, late: nat, handler: Oracle)

  /** Where the handler of a timed-out retry starts from. */
  ghost function AtTimeout(w: World, r: Retry): World
    requires r.TimedOut?
  {
    var (w1, pc1) := RunSteps(w, Begin, r.lifecycle, r.steps, false);
    RunSteps(w1, pc1, r.lifecycle, r.late, true).0
  }

  ghost function AfterRetry(w: World, r: Retry): World {
    match r
    case Ran(lifecycle) => Complete(w, Begin, lifecycle).0
    case TimedOut(_, _, _, handler) => Complete(AtTimeout(w, r), TimeoutStart, handler).0
  }

  /** Orderly, and the compensation works if it is reached; after a timeout it is. */
  ghost predicate RetryWorks(w: World, r: Retry) {
    match r
    case Ran(lifecycle) =>
      && Orderly(w, Begin, lifecycle, Rank(Begin), false)
      && var (w1, pc1) := UntilHandler(w, Begin, lifecycle);
         pc1.ReadOutcomes? ==> CompensationWorks(w1, lifecycle)
    case TimedOut(lifecycle, steps, late, handler) =>
      && OrderlyJob(w, JobRun(lifecycle, steps, Expired(late, handler, 0)))
      && Orderly(AtTimeout(w, r), TimeoutStart, handler, Rank(TimeoutStart), false)
      && var (w1, pc1) := UntilHandler(AtTimeout(w, r), TimeoutStart, handler);
         pc1.ReadOutcomes? && CompensationWorks(w1, handler)
  }

  lemma RanEndsClean(base: Identity, w: World, lifecycle: Oracle)
    requires ReferencesHold(base) && NoAdmin(base, w.tenantId)
    requires Owned(base, w, Begin) && Clean(base, w) && RetryWorks(w, Ran(lifecycle))
    ensures Clean(base, Complete(w, Begin, lifecycle).0)
  {
    hide Complete, Next, Owned, UntilHandler, Orderly, Rank, CompensationWorks;
    CompleteKeepsOwned(base, w, Begin, lifecycle);
    OwnedUntilHandler(base, w, Begin, lifecycle);
    RetryingUntilHandler(w, w, Begin, lifecycle);
    CompleteViaHandler(w, Begin, lifecycle);
    var (w1, pc1) := UntilHandler(w, Begin, lifecycle);
    if pc1.ReadOutcomes? {
      HandlerCleans(base, w1, lifecycle);
    } else {
      FinishedIsComplete(w1, pc1, lifecycle);
    }
  }

  lemma FinishedIsComplete(w: World, pc: Pc, oracle: Oracle)
    requires pc.Finished?
    ensures Complete(w, pc, oracle).0 == w
  {
  }

  lemma TimedOutEndsClean(base: Identity, w: World, r: Retry)
    requires r.TimedOut? && ReferencesHold(base) && NoAdmin(base, w.tenantId)
    requires Owned(base, w, Begin) && RetryWorks(w, r)
    ensures Clean(base, AfterRetry(w, r)) && Owned(base, AfterRetry(w, r), Begin)
    ensures AfterRetry(w, r).tenantId == w.tenantId
  {
    hide Complete, Next, Owned, UntilHandler, Orderly, Rank, CompensationWorks, Clean, OrderlyStep;
    var job := JobRun(r.lifecycle, r.steps, Expired(r.late, r.handler, 0));
    var w2 := AtTimeout(w, r);
    assert Work(w, job) == w2;
    JobKeepsRecoverable(base, w, job);
    OwnedIsRecoverable(base, w2, Begin, TimeoutStart);
    CompleteKeepsOwned(base, w2, TimeoutStart, r.handler);
    assert OrderlyJobs(w2, []);
    FailedRunCleansUp(base, w2, [], TimeoutStart, r.handler);
  }

  lemma RetryEndsClean(base: Identity, w: World, r: Retry)
    requires ReferencesHold(base) && NoAdmin(base, w.tenantId)
    requires Owned(base, w, Begin) && Clean(base, w) && RetryWorks(w, r)
    ensures Clean(base, AfterRetry(w, r)) && Owned(base, AfterRetry(w, r), Begin)
    ensures AfterRetry(w, r).tenantId == w.tenantId
  {
    hide Complete, Next, Owned, UntilHandler, Orderly, Rank, CompensationWorks, Clean, OrderlyStep;
    match r
    case Ran(lifecycle) =>
      RanEndsClean(base, w, lifecycle);
      CompleteKeepsOwned(base, w, Begin, lifecycle);
    case TimedOut(_, _, _, _) =>
      TimedOutEndsClean(base, w, r);
  }

  ghost function AfterRetries(w: World, retries: seq<Retry>): World
    decreases |retries|
  {
    if retries == [] then w else AfterRetries(AfterRetry(w, retries[0]), retries[1..])
  }

  ghost predicate RetriesWork(w: World, retries: seq<Retry>)
    decreases |retries|
  {
    retries == [] || (RetryWorks(w, retries[0]) && RetriesWork(AfterRetry(w, retries[0]), retries[1..]))
  }

  /**
   * Every later retry of a cleaned-up attempt, run or timed out, ends in the
   * same clean state: steps may work or fail, but nothing is left over and
   * the tenant stays failed.
   */
  lemma {:induction false} RetriesEndClean(base: Identity, w: World, retries: seq<Retry>)
    requires ReferencesHold(base) && NoAdmin(base, w.tenantId)
    requires Owned(base, w, Begin) && Clean(base, w) && RetriesWork(w, retries)
    ensures Clean(base, AfterRetries(w, retries))
    decreases |retries|
  {
    hide Owned, Clean, RetryWorks, AfterRetry;
    if retries != [] {
      RetryEndsClean(base, w, retries[0]);
      RetriesEndClean(base, AfterRetry(w, retries[0]), retries[1..]);
    }
  }

  // ----- the schema that compensation cannot see -----------------------

  /**
   * Exactly when a schema outlives a run that reaches its handler: it exists,
   * and the record of its creation was lost. `created` and `recorded` are the
   * answers to the creation and to its record, `failureRecorded` the answer
   * to the record of the failure that follows when either of them fails.
   */
  predicate SchemaLeaks(w: World, created: bool, recorded: bool, failureRecorded: bool) {
    && !(created && recorded)
    && (created || w.schema)
    && (failureRecorded || !Recorded(w.attempt.outcomes, SCHEMA_CREATED))
  }

  /** The points from the second blocking step to the handler or to success. */
  predicate PastSchemaStep(pc: Pc) {
    match pc
    case DoStep(k) => k > 0
    case RecordStep(k, _) => k > 0
    case SendEmail | RecordEmail(_, _) | Activate | RecordActivation(_) | ReadOutcomes | Finished(_) => true
    case ReadAudit(final, _) => final == Succeeded
    case WriteAudit(final, _, _) => final == Succeeded
    case RecordAudit(final) => final == Succeeded
    case _ => false
  }

  /** Once the schema step has succeeded, the schema stays and stays recorded. */
  ghost predicate SchemaSafe(w: World, pc: Pc) {
    && w.schema && Recorded(w.attempt.outcomes, SCHEMA_CREATED) && DistinctSteps(w.attempt.outcomes)
    && PastSchemaStep(pc)
  }

  lemma NextStaysPastSchemaStep(w: World, pc: Pc, i: Input)
    requires w.schema && PastSchemaStep(pc) && !pc.ReadOutcomes?
    ensures var (w', pc') := Next(w, pc, i, false); w'.schema && PastSchemaStep(pc')
    ensures forall o | o in Writes(pc, i) :: o.step != SCHEMA_CREATED
  {
    hide UpsertAll, Assign;
  }

  lemma NextKeepsSchemaSafe(w: World, pc: Pc, i: Input)
    requires SchemaSafe(w, pc) && !pc.ReadOutcomes?
    ensures var (w', pc') := Next(w, pc, i, false); SchemaSafe(w', pc')
  {
    hide Next, Recorded, DistinctSteps, Writes;
    NextStaysPastSchemaStep(w, pc, i);
    NextWrites(w, pc, i, false);
    OtherWritesKeepRecord(w.attempt.outcomes, Writes(pc, i));
    UpsertAllKeepsDistinct(w.attempt.outcomes, Writes(pc, i));
  }

  lemma {:induction false} SchemaSafeUntilHandler(w: World, pc: Pc, oracle: Oracle)
    requires SchemaSafe(w, pc)
    ensures var (w', pc') := UntilHandler(w, pc, oracle); SchemaSafe(w', pc')
    decreases Rank(pc)
  {
    hide Next, SchemaSafe;
    if !pc.Finished? && !pc.ReadOutcomes? {
      NextDescends(w, pc, oracle(pc));
      NextKeepsSchemaSafe(w, pc, oracle(pc));
      SchemaSafeUntilHandler(Next(w, pc, oracle(pc), false).0, Next(w, pc, oracle(pc), false).1, oracle);
    }
  }

  lemma UnfoldUntil(w: World, pc: Pc, oracle: Oracle)
    requires !pc.Finished? && !pc.ReadOutcomes?
    ensures var (w', pc') := Next(w, pc, oracle(pc), false);
            UntilHandler(w, pc, oracle) == if pc' == ReadOutcomes then (w', pc') else UntilHandler(w', pc', oracle)
  {
    hide Next;
  }

  lemma SchemaStepRecorded(w: World, oracle: Oracle) returns (w': World)
    requires w.attempt.status == Provisioning && DistinctSteps(w.attempt.outcomes)
    requires oracle(DoStep(0)).ok && oracle(RecordStep(0, true)).ok
    ensures SchemaSafe(w', DoStep(1))
    ensures UntilHandler(w, DoStep(0), oracle) == UntilHandler(w', DoStep(1), oracle)
  {
    var w1, detail := w.(schema := true), oracle(RecordStep(0, true)).detail;
    w' := Write(w1, Provisioning, SCHEMA_CREATED, SucceededStep, detail);
    WriteRecords(w1.attempt.outcomes, SCHEMA_CREATED, SucceededStep, detail);
    hide Recorded, DistinctSteps, UpsertAll;
    assert Next(w, DoStep(0), oracle(DoStep(0)), false) == (w1, RecordStep(0, true));
    assert Next(w1, RecordStep(0, true), oracle(RecordStep(0, true)), false) == (w', DoStep(1));
    hide Next;
    UnfoldUntil(w, DoStep(0), oracle);
    UnfoldUntil(w1, RecordStep(0, true), oracle);
  }

  /** The state of the schema and of its record when the schema step has failed. */
  lemma SchemaStepFailed(w: World, oracle: Oracle)
    requires w.attempt.status == Provisioning && DistinctSteps(w.attempt.outcomes)
    requires !(oracle(DoStep(0)).ok && oracle(RecordStep(0, true)).ok)
    ensures var (w', pc') := UntilHandler(w, DoStep(0), oracle);
            && pc' == ReadOutcomes && w'.schema == (oracle(DoStep(0)).ok || w.schema)
            && (Recorded(w'.attempt.outcomes, SCHEMA_CREATED) <==>
                  !oracle(RecordStep(0, false)).ok && Recorded(w.attempt.outcomes, SCHEMA_CREATED))
  {
    hide Recorded, DistinctSteps, UpsertAll;
    var w1 := if oracle(DoStep(0)).ok then w.(schema := true) else w;
    UnfoldUntil(w, DoStep(0), oracle);
    if oracle(DoStep(0)).ok {
      UnfoldUntil(w1, RecordStep(0, true), oracle);
    }
    assert UntilHandler(w, DoStep(0), oracle) == UntilHandler(w1, RecordStep(0, false), oracle);
    SchemaFailureRecord(w1, oracle);
  }

  lemma SchemaFailureRecord(w: World, oracle: Oracle)
    requires w.attempt.status == Provisioning && DistinctSteps(w.attempt.outcomes)
    ensures var (w', pc') := UntilHandler(w, RecordStep(0, false), oracle);
            && pc' == ReadOutcomes && w'.schema == w.schema
            && (Recorded(w'.attempt.outcomes, SCHEMA_CREATED) <==>
                  !oracle(RecordStep(0, false)).ok && Recorded(w.attempt.outcomes, SCHEMA_CREATED))
  {
    hide Recorded, DistinctSteps, UpsertAll;
    UnfoldUntil(w, RecordStep(0, false), oracle);
    WriteRecords(w.attempt.outcomes, SCHEMA_CREATED, FailedStep, oracle(RecordStep(0, false)).detail);
  }

  /**
   * After a run whose compensation reports no failure, the schema is still
   * there exactly when it existed while its record said otherwise: creation
   * and record are two writes, and only the record is consulted.
   */
  lemma SchemaSurvivesIff(w: World, oracle: Oracle)
    requires w.attempt.status == Provisioning && DistinctSteps(w.attempt.outcomes)
    requires var (w1, pc1) := UntilHandler(w, DoStep(0), oracle);
             pc1.ReadOutcomes? && w1.tenant.Some? && CompensationWorks(w1, oracle)
    ensures Complete(w, DoStep(0), oracle).0.schema <==>
            SchemaLeaks(w, oracle(DoStep(0)).ok, oracle(RecordStep(0, true)).ok, oracle(RecordStep(0, false)).ok)
  {
    var (w1, pc1) := UntilHandler(w, DoStep(0), oracle);
    hide Recorded, DistinctSteps, UpsertAll, Next, UntilHandler, Complete;
    CompleteViaHandler(w, DoStep(0), oracle);
    HandlerResult(w1, oracle);
    var c := CompensationOf(w1, oracle);
    assert c[2] in c;
    if oracle(DoStep(0)).ok && oracle(RecordStep(0, true)).ok {
      var w' := SchemaStepRecorded(w, oracle);
      SchemaSafeUntilHandler(w', DoStep(1), oracle);
    } else {
      SchemaStepFailed(w, oracle);
    }
  }

  // ----- the plainest failure ------------------------------------------

  /** Everything works but the creation of the schema. */
  ghost predicate OnlySchemaFails(oracle: Oracle) {
    forall pc :: (oracle(pc).ok <==> pc != DoStep(0)) && !oracle(pc).slugTaken
  }

  /** Points a run visits when its schema step fails. */
  predicate NoLaterStep(pc: Pc) {
    && (pc.DoStep? ==> pc.k == 0)
    && (pc.RecordStep? ==> pc == RecordStep(0, false))
    && !pc.SendEmail? && !pc.RecordEmail? && !pc.Activate? && !pc.RecordActivation?
  }

  lemma SchemaFailureTakesNoLaterStep(w: World, pc: Pc, i: Input)
    requires NoLaterStep(pc) && !w.schema && (pc == DoStep(0) ==> !i.ok)
    ensures var (w', pc') := Next(w, pc, i, false); NoLaterStep(pc') && !w'.schema
  {
    hide UpsertAll, Recorded, Assign, Deactivate;
  }

  lemma {:induction false} SchemaFailureIsOrderly(w: World, pc: Pc, oracle: Oracle, n: nat)
    requires OnlySchemaFails(oracle) && NoLaterStep(pc) && !w.schema
    ensures Orderly(w, pc, oracle, n, false)
    decreases n
  {
    hide Next;
    if n != 0 && !pc.Finished? {
      SchemaFailureTakesNoLaterStep(w, pc, oracle(pc));
      var (w', pc') := Next(w, pc, oracle(pc), false);
      SchemaFailureIsOrderly(w', pc', oracle, n - 1);
    }
  }

  /** The same run, as far as its handler. */
  lemma SchemaFailureReachesHandler(w: World, oracle: Oracle)
    requires OnlySchemaFails(oracle) && w.attempt.status == Accepted && w.tenant.None?
    ensures UntilHandler(w, Begin, oracle).1 == ReadOutcomes
  {
    var w1 := Write(w, Provisioning, PROVISIONING_START, RunningStep, oracle(Claim).detail);
    hide UpsertAll, StepEffect;
    assert Next(w, Begin, oracle(Begin), false) == (w, Claim);
    assert Next(w, Claim, oracle(Claim), false) == (w1, CheckPayload);
    hide Next;
    UnfoldUntil(w, Begin, oracle);
    UnfoldUntil(w, Claim, oracle);
    SchemaFailureFromPayload(w1, oracle);
  }

  lemma SchemaFailureFromPayload(w: World, oracle: Oracle)
    requires OnlySchemaFails(oracle) && w.tenant.None?
    ensures UntilHandler(w, CheckPayload, oracle).1 == ReadOutcomes
  {
    var creation := RecordCreation(FreshlyCreated);
    var w1 := w.(tenant := Some(TenantProvisioning));
    var w2 := Write(w1, Provisioning, TENANT_CREATION, SucceededStep, oracle(creation).detail);
    hide UpsertAll, StepEffect;
    assert Next(w, CheckPayload, oracle(CheckPayload), false) == (w, ResolveTenant);
    assert Next(w, ResolveTenant, oracle(ResolveTenant), false) == (w, InsertTenant);
    assert Next(w, InsertTenant, oracle(InsertTenant), false) == (w1, creation);
    assert Next(w1, creation, oracle(creation), false) == (w2, DoStep(0));
    hide Next;
    UnfoldUntil(w, CheckPayload, oracle);
    UnfoldUntil(w, ResolveTenant, oracle);
    UnfoldUntil(w, InsertTenant, oracle);
    UnfoldUntil(w1, creation, oracle);
    SchemaFailureFromStep(w2, oracle);
  }

  lemma SchemaFailureFromStep(w: World, oracle: Oracle)
    requires OnlySchemaFails(oracle)
    ensures UntilHandler(w, DoStep(0), oracle).1 == ReadOutcomes
  {
    assert StepEffect(w, 0, oracle(DoStep(0))) == None;
    hide UpsertAll, StepEffect;
    UnfoldUntil(w, DoStep(0), oracle);
    UnfoldUntil(w, RecordStep(0, false), oracle);
  }

  /** A first run whose schema cannot be created meets the conditions of `FailedRunCleansUp`, and so is cleaned up. */
  lemma SchemaFailureIsCleanedUp(base: Identity, w: World, oracle: Oracle)
    requires ReferencesHold(base) && NoAdmin(base, w.tenantId) && w.identity == base
    requires w.attempt == Attempt(Accepted, []) && w.tenant.None? && w.audit.None? && !w.schema
    requires OnlySchemaFails(oracle)
    ensures Owned(base, w, Begin) && Orderly(w, Begin, oracle, Rank(Begin), false)
    ensures var (w1, pc1) := UntilHandler(w, Begin, oracle); pc1.ReadOutcomes? && CompensationWorks(w1, oracle)
    ensures var w' := Complete(w, Begin, oracle).0; Clean(base, w') && w'.attempt.status == Failed
  {
    FreshIsOwned(base, w);
    hide UntilHandler, Complete, Orderly, Next, Clean, Owned, CompensationWorks;
    SchemaFailureReachesHandler(w, oracle);
    SchemaFailureIsOrderly(w, Begin, oracle, Rank(Begin));
    HandlerAnswersWork(UntilHandler(w, Begin, oracle).0, oracle);
    assert WorkAll(w, []) == w && OrderlyJobs(w, []);
    hide WorkAll, OrderlyJobs, OnlySchemaFails;
    FailedRunCleansUp(base, w, [], Begin, oracle);
  }

  lemma FreshIsOwned(base: Identity, w: World)
    requires w.identity == base && w.attempt == Attempt(Accepted, []) && w.audit.None? && !w.schema
    ensures Owned(base, w, Begin)
  {
  }

  lemma HandlerAnswersWork(w: World, oracle: Oracle)
    requires OnlySchemaFails(oracle)
    ensures CompensationWorks(w, oracle)
  {
    var c := CompensationOf(w, oracle);
    assert c[0].Done? && c[1].Done? && (c[2].Done? || c[2].Skipped?);
  }
}
