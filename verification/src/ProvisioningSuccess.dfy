/**
 * The run that works: when every blocking action works the tenant ends
 * active, with everything it needs, whatever happens to the e-mail.
 */
module ProvisioningSuccess {
  import opened Wrappers
  import opened StepOutcomes
  import opened FirstAdmins
  import opened SetupLinks
  import opened Provisioning
  import opened ProvisioningRuns
  import opened ProvisioningCleanup
  import opened ProvisioningService

  /** All five blocking steps, the activation, the audit and their records work; the e-mail may do anything. */
  ghost predicate BlockingWorks(oracle: Oracle) {
    && (forall k: nat | k < |BLOCKING| :: oracle(DoStep(k)).ok && oracle(RecordStep(k, true)).ok)
    && oracle(Activate).ok && oracle(RecordActivation(true)).ok
    && oracle(ReadAudit(Succeeded, [])).ok && oracle(RecordAudit(Succeeded)).ok
    && forall read :: oracle(WriteAudit(Succeeded, [], read)).ok
  }

  /** The resources after the blocking steps, if the admin can be assigned and the link minted. */
  ghost function Equipped(w: World, oracle: Oracle): Option<World> {
    match Assign(w.identity, w.tenantId, w.adminEmail, oracle(DoStep(3)).ids)
    case None => None
    case Some(identity) =>
      match Generate(identity.users, w.tokens, w.tenantId, oracle(DoStep(4)).hash, oracle(DoStep(4)).now)
      case None => None
      case Some(tokens) => Some(w.(schema := true, identity := identity, tokens := tokens))
  }

  /** Midway: `w` has the resources of `target` and the first `k` steps on record. */
  ghost predicate Underway(w: World, target: World, k: nat)
    requires k <= |BLOCKING|
  {
    && w == target.(attempt := w.attempt, audit := w.audit)
    && w.attempt.status == Provisioning && DistinctSteps(w.attempt.outcomes) && FirstRecorded(w.attempt.outcomes, k)
  }

  lemma StepSucceeds(w: World, k: nat, oracle: Oracle, target: World) returns (w': World)
    requires k < |BLOCKING| && BlockingWorks(oracle) && StepEffect(w, k, oracle(DoStep(k))).Some?
    requires target == StepEffect(w, k, oracle(DoStep(k))).value && Underway(w, w, k)
    ensures Underway(w', target, k + 1)
    ensures Complete(w, DoStep(k), oracle) == Complete(w', if k + 1 < |BLOCKING| then DoStep(k + 1) else SendEmail, oracle)
  {
    var i := oracle(RecordStep(k, true));
    StepEffectTouchesResources(w, k, oracle(DoStep(k)));
    DoStepMoves(w, k, oracle);
    RecordStepMoves(target, k, true, oracle);
    hide StepEffect, Complete;
    w' := Write(target, Provisioning, BLOCKING[k], SucceededStep, i.detail);
    BlockingAreDistinct(k);
    RecordKeepsFirst(target, Provisioning, BLOCKING[k], SucceededStep, i.detail, k);
    hide UpsertAll, Recorded, DistinctSteps;
  }

  lemma BlockingAreDistinct(k: nat)
    requires k < |BLOCKING|
    ensures BLOCKING[k] !in BLOCKING[..k]
  {
  }

  /** Sent or not, recorded or not: after the e-mail the run activates. */
  lemma EmailNeverMatters(w: World, oracle: Oracle) returns (w': World)
    requires Underway(w, w, |BLOCKING|)
    ensures Underway(w', w, |BLOCKING|)
    ensures Complete(w, SendEmail, oracle) == Complete(w', Activate, oracle)
  {
    var sent := oracle(SendEmail);
    SendEmailMoves(w, oracle);
    var delivered, last := sent.ok && sent.delivered, !sent.ok;
    var i := oracle(RecordEmail(delivered, last));
    RecordEmailMoves(w, delivered, last, oracle);
    if i.ok {
      w' := EmailRecorded(w, SucceededIf(delivered), i.detail);
    } else if last {
      w' := w;
    } else {
      var j := oracle(RecordEmail(false, true));
      RecordEmailMoves(w, false, true, oracle);
      if j.ok {
        w' := EmailRecorded(w, FailedStep, j.detail);
      } else {
        w' := w;
      }
    }
    hide Complete, Underway;
  }

  lemma EmailRecorded(w: World, how: OutcomeStatus, detail: string) returns (w': World)
    requires Underway(w, w, |BLOCKING|)
    ensures w' == Write(w, Provisioning, SETUP_EMAIL_SENT, how, detail) && Underway(w', w, |BLOCKING|)
  {
    w' := Write(w, Provisioning, SETUP_EMAIL_SENT, how, detail);
    RecordKeepsFirst(w, Provisioning, SETUP_EMAIL_SENT, how, detail, |BLOCKING|);
    hide UpsertAll, Recorded, DistinctSteps;
  }

  lemma ActivationSucceeds(w: World, oracle: Oracle)
    requires Underway(w, w, |BLOCKING|) && BlockingWorks(oracle) && w.tenant.Some? && w.tenant != Some(TenantFailed)
    ensures var (w', ending) := Complete(w, Activate, oracle);
            && ending == Resolved && w' == w.(tenant := Some(TenantActive), attempt := w'.attempt, audit := w'.audit)
            && w'.attempt.status == Succeeded
            && w'.audit.Some? && w'.audit.value.finalStatus == Succeeded && AllRecorded(w'.audit.value.outcomes)
  {
    var w1 := w.(tenant := Some(TenantActive));
    var i := oracle(RecordActivation(true));
    var w2 := Write(w1, Provisioning, ACTIVATION, SucceededStep, i.detail);
    hide Complete, Next;
    ActivateMoves(w, oracle);
    RecordActivationMoves(w1, true, oracle);
    RecordKeepsFirst(w1, Provisioning, ACTIVATION, SucceededStep, i.detail, |BLOCKING|);
    hide UpsertAll, Recorded, DistinctSteps, FirstRecorded;
    AuditMoves(w2, Succeeded, [], w2.attempt.outcomes, oracle);
    AuditMoves(w2.(audit := Some(AuditRow(Succeeded, w2.attempt.outcomes, []))), Succeeded, [], w2.attempt.outcomes, oracle);
  }

  lemma SchemaStepsSucceed(w: World, oracle: Oracle) returns (w': World)
    requires Underway(w, w, 0) && BlockingWorks(oracle)
    ensures Underway(w', w.(schema := true), 3)
    ensures Complete(w, DoStep(0), oracle) == Complete(w', DoStep(3), oracle)
  {
    hide Complete, FirstRecorded, DistinctSteps;
    var w1 := StepSucceeds(w, 0, oracle, w.(schema := true));
    var w2 := StepSucceeds(w1, 1, oracle, w1);
    w' := StepSucceeds(w2, 2, oracle, w2);
  }

  lemma AdminStepsSucceed(w: World, oracle: Oracle) returns (w': World)
    requires Underway(w, w, 3) && BlockingWorks(oracle) && w.schema && Equipped(w, oracle).Some?
    ensures Underway(w', Equipped(w, oracle).value, 5)
    ensures Complete(w, DoStep(3), oracle) == Complete(w', SendEmail, oracle)
  {
    hide Complete, FirstRecorded, DistinctSteps, Assign, Generate;
    var identity := Assign(w.identity, w.tenantId, w.adminEmail, oracle(DoStep(3)).ids).value;
    var i := oracle(DoStep(4));
    var tokens := Generate(identity.users, w.tokens, w.tenantId, i.hash, i.now).value;
    var w1 := StepSucceeds(w, 3, oracle, w.(identity := identity));
    w' := StepSucceeds(w1, 4, oracle, w1.(tokens := tokens));
  }

  /** From the schema step on, with a tenant that has not failed. */
  lemma ProvisioningSucceeds(w: World, oracle: Oracle)
    requires w.attempt.status == Provisioning && DistinctSteps(w.attempt.outcomes)
    requires w.tenant.Some? && w.tenant != Some(TenantFailed)
    requires BlockingWorks(oracle) && Equipped(w, oracle).Some?
    ensures var (w', ending) := Complete(w, DoStep(0), oracle);
            && ending == Resolved
            && w' == Equipped(w, oracle).value.(tenant := Some(TenantActive), attempt := w'.attempt, audit := w'.audit)
            && w'.attempt.status == Succeeded
            && w'.audit.Some? && w'.audit.value.finalStatus == Succeeded && AllRecorded(w'.audit.value.outcomes)
  {
    assert FirstRecorded(w.attempt.outcomes, 0);
    hide Complete, Assign, Generate, FirstRecorded, DistinctSteps, AllRecorded, BlockingWorks;
    var w3 := SchemaStepsSucceed(w, oracle);
    var w5 := AdminStepsSucceed(w3, oracle);
    var w6 := EmailNeverMatters(w5, oracle);
    ActivationSucceeds(w6, oracle);
  }

  /** The answers of the steps before the schema step. */
  predicate CreationWorks(oracle: Oracle) {
    && oracle(Begin).ok && oracle(Claim).ok && oracle(CheckPayload).ok && oracle(ResolveTenant).ok
    && oracle(InsertTenant).ok && !oracle(InsertTenant).slugTaken && oracle(RecordCreation(FreshlyCreated)).ok
  }

  /**
   * A first run whose blocking actions all work ends with the tenant active,
   * its schema, First Admin and setup link made, the attempt succeeded and
   * the audit complete.
   */
  lemma FirstRunSucceeds(w: World, oracle: Oracle)
    requires w.attempt.status == Accepted && DistinctSteps(w.attempt.outcomes) && w.tenant.None?
    requires CreationWorks(oracle) && BlockingWorks(oracle) && Equipped(w, oracle).Some?
    ensures var (w', ending) := Complete(w, Begin, oracle);
            && ending == Resolved
            && w' == Equipped(w, oracle).value.(tenant := Some(TenantActive), attempt := w'.attempt, audit := w'.audit)
            && w'.attempt.status == Succeeded
            && w'.audit.Some? && w'.audit.value.finalStatus == Succeeded && AllRecorded(w'.audit.value.outcomes)
  {
    hide Complete, Next, BlockingWorks, Assign, Generate;
    var w1 := Write(w, Provisioning, PROVISIONING_START, RunningStep, oracle(Claim).detail);
    var w2 := w1.(tenant := Some(TenantProvisioning));
    var w3 := Write(w2, Provisioning, TENANT_CREATION, SucceededStep, oracle(RecordCreation(FreshlyCreated)).detail);
    EntryMoves(w, oracle);
    ClaimMoves(w, oracle);
    CreateMoves(w1, oracle);
    CreationMoves(w2, FreshlyCreated, oracle);
    UpsertAllKeepsDistinct(w.attempt.outcomes, [Outcome(PROVISIONING_START, RunningStep, oracle(Claim).detail)]);
    UpsertAllKeepsDistinct(w1.attempt.outcomes, [Outcome(TENANT_CREATION, SucceededStep, oracle(RecordCreation(FreshlyCreated)).detail)]);
    hide UpsertAll, DistinctSteps;
    ProvisioningSucceeds(w3, oracle);
  }
}
