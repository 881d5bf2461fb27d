/**
 * The service as it is written: nested try/catch blocks over the database
 * rows. Each method ends where the program points of `Provisioning` end.
 */
module ProvisioningService {
  import opened Wrappers
  import opened StepOutcomes
  import opened FirstAdmins
  import opened SetupLinks
  import opened Provisioning
  import opened ProvisioningCleanup

  class TenantProvisioningService {
    const tenantId: Id
    const adminEmail: string
    const firstAdmin: FirstAdminService
    var attempt: Attempt
    var tenant: Option<TenantStatus>
    var schema: bool
    var tokens: Tokens
    var audit: Option<AuditRow>

    constructor (w: World, firstAdmin: FirstAdminService)
      requires firstAdmin.Tables() == w.identity
      ensures State() == w && this.firstAdmin == firstAdmin
    {
      tenantId, adminEmail, this.firstAdmin := w.tenantId, w.adminEmail, firstAdmin;
      attempt, tenant, schema, tokens, audit := w.attempt, w.tenant, w.schema, w.tokens, w.audit;
    }

    ghost function State(): World
      reads this, firstAdmin
    {
      World(tenantId, adminEmail, attempt, tenant, schema, firstAdmin.Tables(), tokens, audit)
    }

    /** Replaces the first outcome of the same step, or appends. */
    method UpsertStepOutcome(list: seq<Outcome>, outcome: Outcome) returns (updated: seq<Outcome>)
      ensures updated == Upsert(list, outcome)
    {
      var i := 0;
      while i < |list| && list[i].step != outcome.step
        invariant 0 <= i <= |list|
        invariant forall j | 0 <= j < i :: list[j].step != outcome.step
      {
        i := i + 1;
      }
      updated := if i == |list| then list + [outcome] else list[i := outcome];
    }

    /** False when the transaction throws; a dropped write does not throw. */
    method UpdateAttemptSteps(status: AttemptStatus, outcomes: seq<Outcome>, commits: bool) returns (ok: bool)
      modifies this`attempt
      ensures ok == commits
      ensures attempt == if ok then UpdateSteps(old(attempt), status, outcomes) else old(attempt)
    {
      if !commits {
        return false;
      }
      if Terminal(attempt.status) && !Terminal(status) {
        return true;
      }
      var current := attempt.outcomes;
      var list := current;
      for n := 0 to |outcomes|
        invariant list == UpsertAll(current, outcomes[..n])
        invariant unchanged(this)
      {
        assert outcomes[..n + 1][..n] == outcomes[..n];
        list := UpsertStepOutcome(list, outcomes[n]);
      }
      assert outcomes[..|outcomes|] == outcomes;
      attempt := Attempt(status, list);
      ok := true;
    }

    /** False when the write throws; one that the terminal guard drops does not throw. */
    method Record(step: StepName, how: OutcomeStatus, i: Input) returns (ok: bool)
      modifies this`attempt
      ensures ok == i.ok
      ensures State() == if ok then Write(old(State()), Provisioning, step, how, i.detail) else old(State())
    {
      ok := UpdateAttemptSteps(Provisioning, [Outcome(step, how, i.detail)], i.ok);
    }

    /** The conditional update that makes a tenant active, and its record. */
    method Activation(oracle: Oracle) returns (ok: bool)
      modifies this`attempt, this`tenant
      ensures Complete(old(State()), Activate, oracle) ==
              Complete(State(), if ok then ReadAudit(Succeeded, []) else ReadOutcomes, oracle)
    {
      hide Complete, Next;
      ActivateMoves(State(), oracle);
      if oracle(Activate).ok && tenant.Some? && tenant != Some(TenantFailed) && attempt.status == Provisioning {
        tenant := Some(TenantActive);
        RecordActivationMoves(State(), true, oracle);
        ok := Record(ACTIVATION, SucceededStep, oracle(RecordActivation(true)));
        if ok {
          return;
        }
      }
      RecordActivationMoves(State(), false, oracle);
      var _ := Record(ACTIVATION, FailedStep, oracle(RecordActivation(false)));
      ok := false;
    }

    /** Schema, bootstrap, seed, first admin, setup link: the resource of one step, or a throw. */
    method RunAction(k: nat, i: Input) returns (ok: bool)
      requires k == 3 ==> ReferencesHold(firstAdmin.Tables()) && Unused(firstAdmin.Tables(), i.ids)
      modifies this, firstAdmin
      ensures match StepEffect(old(State()), k, i)
              case Some(w) => ok && State() == w
              case None => !ok && State() == old(State())
      ensures k != 3 ==> firstAdmin.Tables() == old(firstAdmin.Tables())
    {
      if !i.ok {
        return false;
      }
      ok := true;
      if k == 0 {
        schema := true;
      } else if k == 3 {
        ok := firstAdmin.AssignAdmin(tenantId, adminEmail, i.ids);
      } else if k == 4 {
        if FirstUser(firstAdmin.users, tenantId) == |firstAdmin.users| {
          return false;
        }
        tokens := Revoke(tokens, tenantId)[i.hash := SetupToken(tenantId, i.now + SETUP_TOKEN_TTL_MS, false, false)];
      }
    }

    /** A blocking step records its own outcome and rethrows. */
    method RunBlockingStep(k: nat, oracle: Oracle) returns (ok: bool)
      requires k < |BLOCKING|
      requires k == 3 ==> ReferencesHold(firstAdmin.Tables()) && Unused(firstAdmin.Tables(), oracle(DoStep(3)).ids)
      modifies this, firstAdmin
      ensures Complete(old(State()), DoStep(k), oracle) ==
              Complete(State(), if !ok then ReadOutcomes else if k + 1 < |BLOCKING| then DoStep(k + 1) else SendEmail, oracle)
      ensures k != 3 ==> firstAdmin.Tables() == old(firstAdmin.Tables())
    {
      hide Complete, Next, StepEffect, ReferencesHold, Unused;
      DoStepMoves(State(), k, oracle);
      ok := RunAction(k, oracle(DoStep(k)));
      if ok {
        RecordStepMoves(State(), k, true, oracle);
        ok := Record(BLOCKING[k], SucceededStep, oracle(RecordStep(k, true)));
        if ok {
          return;
        }
      }
      RecordStepMoves(State(), k, false, oracle);
      var _ := Record(BLOCKING[k], FailedStep, oracle(RecordStep(k, false)));
      ok := false;
    }

    /** Never throws: what happens to the e-mail is recorded if possible and then forgotten. */
    method SendBackupEmail(oracle: Oracle)
      modifies this`attempt
      ensures Complete(old(State()), SendEmail, oracle) == Complete(State(), Activate, oracle)
    {
      hide Complete, Next;
      SendEmailMoves(State(), oracle);
      var sent := oracle(SendEmail);
      if sent.ok {
        RecordEmailMoves(State(), sent.delivered, false, oracle);
        var recorded := Record(SETUP_EMAIL_SENT, SucceededIf(sent.delivered), oracle(RecordEmail(sent.delivered, false)));
        if recorded {
          return;
        }
      }
      RecordEmailMoves(State(), false, true, oracle);
      var _ := Record(SETUP_EMAIL_SENT, FailedStep, oracle(RecordEmail(false, true)));
    }

    /** Never throws. */
    method FinalizeAudit(final: FinalStatus, compensation: Compensation, oracle: Oracle)
      modifies this`attempt, this`audit
      ensures Complete(old(State()), ReadAudit(final, compensation), oracle) == (State(), AfterAudit(final).ending)
    {
      hide Complete, Next;
      AuditMoves(State(), final, compensation, attempt.outcomes, oracle);
      if !oracle(ReadAudit(final, compensation)).ok {
        return;
      }
      var read := attempt.outcomes;
      if !oracle(WriteAudit(final, compensation, read)).ok {
        return;
      }
      audit := Some(AuditRow(final, read, compensation));
      AuditMoves(State(), final, compensation, read, oracle);
      var i := oracle(RecordAudit(final));
      var _ := UpdateAttemptSteps(final, [Outcome(AUDIT_FINALIZED, SucceededStep, i.detail)], i.ok);
    }

    /** Best effort: each action is attempted whatever happened to the others. */
    method RunCompensation(read: seq<Outcome>, oracle: Oracle) returns (c: Compensation)
      modifies this, firstAdmin
      ensures Complete(old(State()), RevokeSetupTokens(read), oracle) ==
              Complete(State(), if AnyFailed(c) then ReadAudit(NeedsManualCleanup, c) else MarkFailed(c), oracle)
    {
      hide Complete, Next, Deactivate, Revoke;
      CompensationMoves(State(), read, [], oracle);
      if oracle(RevokeSetupTokens(read)).ok {
        tokens := Revoke(tokens, tenantId);
        c := [Done];
      } else {
        c := [CompensationFailed];
      }
      CompensationMoves(State(), read, c, oracle);
      if oracle(DeactivateFirstAdmin(read, c)).ok {
        firstAdmin.DeactivateAdmin(tenantId);
        c := c + [Done];
      } else {
        c := c + [CompensationFailed];
      }
      CompensationMoves(State(), read, c, oracle);
      if !Recorded(read, SCHEMA_CREATED) {
        c := c + [Skipped];
      } else if oracle(DropSchema(read, c)).ok {
        schema := false;
        c := c + [Done];
      } else {
        c := c + [CompensationFailed];
      }
    }

    /** Never throws; the caller rethrows the error that brought it here. */
    method HandleProvisioningFailure(oracle: Oracle)
      modifies this, firstAdmin
      ensures Complete(old(State()), ReadOutcomes, oracle) == (State(), Threw)
    {
      hide Complete, Next;
      ReadOutcomesMoves(State(), oracle);
      if !oracle(ReadOutcomes).ok {
        return;
      }
      var c := RunCompensation(attempt.outcomes, oracle);
      if AnyFailed(c) {
        FinalizeAudit(NeedsManualCleanup, c, oracle);
      } else {
        MarkFailedMoves(State(), c, oracle);
        if oracle(MarkFailed(c)).ok && tenant.Some? {
          tenant := Some(TenantFailed);
        }
        FinalizeAudit(Failed, c, oracle);
      }
    }

    method ProvisionTenantSchema(oracle: Oracle) returns (ending: Ending)
      requires ReferencesHold(firstAdmin.Tables()) && Unused(firstAdmin.Tables(), oracle(DoStep(3)).ids)
      modifies this, firstAdmin
      ensures Complete(old(State()), DoStep(0), oracle) == (State(), ending)
    {
      hide Complete, Next, ReferencesHold, Unused;
      var ok := RunBlockingStep(0, oracle);
      if ok {
        ok := RunBlockingStep(1, oracle);
      }
      if ok {
        ok := RunBlockingStep(2, oracle);
      }
      if ok {
        ok := RunBlockingStep(3, oracle);
      }
      if ok {
        ok := RunBlockingStep(4, oracle);
      }
      if ok {
        SendBackupEmail(oracle);
        ok := Activation(oracle);
      }
      if ok {
        FinalizeAudit(Succeeded, [], oracle);
        return Resolved;
      }
      HandleProvisioningFailure(oracle);
      ending := Threw;
    }

    /** Takes an accepted attempt; false when another run has it. */
    method ClaimAttempt(i: Input) returns (claimed: bool)
      modifies this`attempt
      ensures claimed <==> old(attempt).status == Accepted
      ensures State() == if claimed then Write(old(State()), Provisioning, PROVISIONING_START, RunningStep, i.detail)
                         else old(State())
    {
      if attempt.status != Accepted {
        return false;
      }
      var list := UpsertStepOutcome(attempt.outcomes, Outcome(PROVISIONING_START, RunningStep, i.detail));
      assert UpsertAll(attempt.outcomes, [Outcome(PROVISIONING_START, RunningStep, i.detail)]) == list;
      attempt := Attempt(Provisioning, list);
      claimed := true;
    }

    method RecordTenantCreationFailure(oracle: Oracle) returns (ending: Ending)
      modifies this`attempt
      ensures Complete(old(State()), RecordCreationFailure, oracle) == (State(), ending)
    {
      hide Complete, Next;
      CreationFailureMoves(State(), oracle);
      var i := oracle(RecordCreationFailure);
      var ok := UpdateAttemptSteps(Failed,
        [Outcome(PROVISIONING_START, FailedStep, i.detail), Outcome(TENANT_CREATION, FailedStep, i.detail)], i.ok);
      ending := if ok then Resolved else Threw;
    }

    /** Records the tenant and provisions its schema. */
    method RecordTenantCreationAndProvision(mode: CreationMode, oracle: Oracle) returns (ending: Ending)
      requires ReferencesHold(firstAdmin.Tables()) && Unused(firstAdmin.Tables(), oracle(DoStep(3)).ids)
      modifies this, firstAdmin
      ensures Complete(old(State()), RecordCreation(mode), oracle) == (State(), ending)
    {
      hide Complete, Next, ReferencesHold, Unused;
      CreationMoves(State(), mode, oracle);
      var recorded := Record(TENANT_CREATION, SucceededStep, oracle(RecordCreation(mode)));
      if recorded {
        ending := ProvisionTenantSchema(oracle);
      } else if mode.FreshlyCreated? {
        ending := RecordTenantCreationFailure(oracle);
      } else {
        ending := Threw;
      }
    }

    /** A run of a job whose timer does not fire; `rival` says whether another run inserts the tenant just before this one would. */
    method StartLifecycle(rival: bool, oracle: Oracle) returns (ending: Ending)
      requires ReferencesHold(firstAdmin.Tables()) && Unused(firstAdmin.Tables(), oracle(DoStep(3)).ids)
      modifies this, firstAdmin
      ensures (State(), ending) ==
              if rival && Inserts(old(State()), oracle) then Complete(WithRival(old(State()), oracle), InsertTenant, oracle)
              else Complete(old(State()), Begin, oracle)
    {
      hide Complete, Next, ReferencesHold, Unused;
      EntryMoves(State(), oracle);
      if !oracle(Begin).ok {
        return Threw;
      }
      if tenant.Some? {
        ending := ResumeLifecycle(oracle);
      } else {
        ending := FirstLifecycle(rival, oracle);
      }
    }

    method ResumeLifecycle(oracle: Oracle) returns (ending: Ending)
      requires ReferencesHold(firstAdmin.Tables()) && Unused(firstAdmin.Tables(), oracle(DoStep(3)).ids)
      modifies this, firstAdmin
      ensures Complete(old(State()), ReadStatus, oracle) == (State(), ending)
    {
      hide Complete, Next, ReferencesHold, Unused;
      ResumeMoves(State(), oracle);
      if !oracle(ReadStatus).ok || attempt.status == NeedsManualCleanup {
        return Threw;
      }
      if attempt.status == Succeeded {
        return Resolved;
      }
      if attempt.status == Failed {
        if !oracle(ResetStatus).ok {
          return Threw;
        }
        attempt := attempt.(status := Provisioning);
      }
      ending := RecordTenantCreationAndProvision(Resuming, oracle);
    }

    method FirstLifecycle(rival: bool, oracle: Oracle) returns (ending: Ending)
      requires ReferencesHold(firstAdmin.Tables()) && Unused(firstAdmin.Tables(), oracle(DoStep(3)).ids)
      requires tenant.None? && oracle(Begin).ok
      modifies this, firstAdmin
      ensures (State(), ending) ==
              if rival && Inserts(old(State()), oracle) then Complete(WithRival(old(State()), oracle), InsertTenant, oracle)
              else Complete(old(State()), Claim, oracle)
    {
      hide Complete, Next, ReferencesHold, Unused;
      ClaimMoves(State(), oracle);
      if !oracle(Claim).ok {
        return Threw;
      }
      var claimed := ClaimAttempt(oracle(Claim));
      if !claimed {
        return Resolved;
      }
      CreateMoves(State(), oracle);
      if !oracle(CheckPayload).ok || !oracle(ResolveTenant).ok {
        ending := RecordTenantCreationFailure(oracle);
      } else if rival {
        tenant := Some(TenantProvisioning);
        AdoptionMoves(State(), oracle);
        if oracle(InsertTenant).ok {
          ending := RecordTenantCreationAndProvision(Adopted, oracle);
        } else {
          ending := RecordTenantCreationFailure(oracle);
        }
      } else if !oracle(InsertTenant).ok || oracle(InsertTenant).slugTaken {
        ending := RecordTenantCreationFailure(oracle);
      } else {
        tenant := Some(TenantProvisioning);
        ending := RecordTenantCreationAndProvision(FreshlyCreated, oracle);
      }
    }

    /** The handler of a job whose timer has fired. */
    method RecordProvisioningTimeout(oracle: Oracle)
      modifies this, firstAdmin
      ensures Complete(old(State()), TimeoutStart, oracle) == (State(), Threw)
    {
      hide Complete, Next;
      TimeoutMoves(State(), oracle);
      var i := oracle(TimeoutStart);
      var ok := UpdateAttemptSteps(Failed, [Outcome(PROVISIONING_START, FailedStep, i.detail)], i.ok);
      if !ok {
        return;
      }
      FindTenantMoves(State(), oracle);
      if !oracle(FindTenant).ok {
        return;
      }
      if tenant.None? {
        FinalizeAudit(Failed, [], oracle);
      } else {
        HandleProvisioningFailure(oracle);
      }
    }
  }

  /** The first run of a job goes as far as the insert of its tenant. */
  predicate Inserts(w: World, oracle: Oracle) {
    && w.tenant.None? && w.attempt.status == Accepted
    && oracle(Begin).ok && oracle(Claim).ok && oracle(CheckPayload).ok && oracle(ResolveTenant).ok
  }

  /** The attempt is claimed, and another run of it has inserted the tenant just before this one's insert. */
  function WithRival(w: World, oracle: Oracle): World {
    Write(w, Provisioning, PROVISIONING_START, RunningStep, oracle(Claim).detail).(tenant := Some(TenantProvisioning))
  }

  // ----- single moves of the program points ----------------------------

  lemma AdoptionMoves(w: World, oracle: Oracle)
    requires w.tenant.Some?
    ensures Complete(w, InsertTenant, oracle) ==
            Complete(w, if oracle(InsertTenant).ok then RecordCreation(Adopted) else RecordCreationFailure, oracle)
  {
    hide Complete;
    Unfold(w, InsertTenant, oracle);
  }

  lemma ActivateMoves(w: World, oracle: Oracle)
    ensures Complete(w, Activate, oracle) ==
            if oracle(Activate).ok && CanActivate(w)
            then Complete(w.(tenant := Some(TenantActive)), RecordActivation(true), oracle)
            else Complete(w, RecordActivation(false), oracle)
  {
    hide Complete;
    Unfold(w, Activate, oracle);
  }

  lemma RecordActivationMoves(w: World, done: bool, oracle: Oracle)
    ensures var i := oracle(RecordActivation(done));
            Complete(w, RecordActivation(done), oracle) ==
            if i.ok
            then Complete(Write(w, Provisioning, ACTIVATION, SucceededIf(done), i.detail),
                          if done then ReadAudit(Succeeded, []) else ReadOutcomes, oracle)
            else Complete(w, if done then RecordActivation(false) else ReadOutcomes, oracle)
  {
    hide Complete, UpsertAll;
    Unfold(w, RecordActivation(done), oracle);
  }

  lemma DoStepMoves(w: World, k: nat, oracle: Oracle)
    ensures Complete(w, DoStep(k), oracle) ==
            match StepEffect(w, k, oracle(DoStep(k)))
            case Some(w') => Complete(w', RecordStep(k, true), oracle)
            case None => Complete(w, RecordStep(k, false), oracle)
  {
    hide Complete, StepEffect;
    Unfold(w, DoStep(k), oracle);
  }

  lemma RecordStepMoves(w: World, k: nat, done: bool, oracle: Oracle)
    requires k < |BLOCKING|
    ensures var i := oracle(RecordStep(k, done));
            Complete(w, RecordStep(k, done), oracle) ==
            if i.ok
            then Complete(Write(w, Provisioning, BLOCKING[k], SucceededIf(done), i.detail),
                          if !done then ReadOutcomes else if k + 1 < |BLOCKING| then DoStep(k + 1) else SendEmail, oracle)
            else Complete(w, if done then RecordStep(k, false) else ReadOutcomes, oracle)
  {
    hide Complete, UpsertAll;
    Unfold(w, RecordStep(k, done), oracle);
  }

  lemma SendEmailMoves(w: World, oracle: Oracle)
    ensures var i := oracle(SendEmail);
            Complete(w, SendEmail, oracle) == Complete(w, RecordEmail(i.ok && i.delivered, !i.ok), oracle)
  {
    hide Complete;
    Unfold(w, SendEmail, oracle);
  }

  lemma RecordEmailMoves(w: World, delivered: bool, last: bool, oracle: Oracle)
    ensures var i := oracle(RecordEmail(delivered, last));
            Complete(w, RecordEmail(delivered, last), oracle) ==
            if i.ok then Complete(Write(w, Provisioning, SETUP_EMAIL_SENT, SucceededIf(delivered), i.detail), Activate, oracle)
            else Complete(w, if last then Activate else RecordEmail(false, true), oracle)
  {
    hide Complete, UpsertAll;
    Unfold(w, RecordEmail(delivered, last), oracle);
  }

  lemma EntryMoves(w: World, oracle: Oracle)
    ensures Complete(w, Begin, oracle) ==
            if !oracle(Begin).ok then (w, Threw)
            else if w.tenant.Some? then Complete(w, ReadStatus, oracle) else Complete(w, Claim, oracle)
  {
    Unfold(w, Begin, oracle);
  }

  lemma ResumeMoves(w: World, oracle: Oracle)
    ensures Complete(w, ReadStatus, oracle) ==
            if !oracle(ReadStatus).ok || w.attempt.status == NeedsManualCleanup then (w, Threw)
            else if w.attempt.status == Succeeded then (w, Resolved)
            else if w.attempt.status == Failed && !oracle(ResetStatus).ok then (w, Threw)
            else Complete(if w.attempt.status == Failed then w.(attempt := w.attempt.(status := Provisioning)) else w,
                          RecordCreation(Resuming), oracle)
  {
    Unfold(w, ReadStatus, oracle);
    Unfold(w, ResetStatus, oracle);
  }

  lemma ClaimMoves(w: World, oracle: Oracle)
    ensures Complete(w, Claim, oracle) ==
            if !oracle(Claim).ok then (w, Threw)
            else if w.attempt.status != Accepted then (w, Resolved)
            else Complete(Write(w, Provisioning, PROVISIONING_START, RunningStep, oracle(Claim).detail), CheckPayload, oracle)
  {
    hide UpsertAll;
    Unfold(w, Claim, oracle);
  }

  lemma CreateMoves(w: World, oracle: Oracle)
    ensures Complete(w, CheckPayload, oracle) ==
            if !oracle(CheckPayload).ok || !oracle(ResolveTenant).ok then Complete(w, RecordCreationFailure, oracle)
            else if w.tenant.Some? then Complete(w, RecordCreation(FreshlyCreated), oracle)
            else if !oracle(InsertTenant).ok || oracle(InsertTenant).slugTaken then Complete(w, RecordCreationFailure, oracle)
            else Complete(w.(tenant := Some(TenantProvisioning)), RecordCreation(FreshlyCreated), oracle)
  {
    hide Complete;
    Unfold(w, CheckPayload, oracle);
    Unfold(w, ResolveTenant, oracle);
    Unfold(w, InsertTenant, oracle);
  }

  lemma CreationFailureMoves(w: World, oracle: Oracle)
    ensures var i := oracle(RecordCreationFailure);
            Complete(w, RecordCreationFailure, oracle) ==
            if !i.ok then (w, Threw)
            else (w.(attempt := UpdateSteps(w.attempt, Failed,
                    [Outcome(PROVISIONING_START, FailedStep, i.detail), Outcome(TENANT_CREATION, FailedStep, i.detail)])),
                  Resolved)
  {
    hide UpsertAll;
    Unfold(w, RecordCreationFailure, oracle);
  }

  lemma CreationMoves(w: World, mode: CreationMode, oracle: Oracle)
    ensures var i := oracle(RecordCreation(mode));
            Complete(w, RecordCreation(mode), oracle) ==
            if i.ok then Complete(Write(w, Provisioning, TENANT_CREATION, SucceededStep, i.detail), DoStep(0), oracle)
            else if mode.FreshlyCreated? then Complete(w, RecordCreationFailure, oracle)
            else (w, Threw)
  {
    hide UpsertAll;
    Unfold(w, RecordCreation(mode), oracle);
  }

  lemma TimeoutMoves(w: World, oracle: Oracle)
    ensures var i := oracle(TimeoutStart);
            Complete(w, TimeoutStart, oracle) ==
            if !i.ok then (w, Threw)
            else Complete(Write(w, Failed, PROVISIONING_START, FailedStep, i.detail), FindTenant, oracle)
  {
    hide UpsertAll;
    Unfold(w, TimeoutStart, oracle);
  }

  lemma FindTenantMoves(w: World, oracle: Oracle)
    ensures Complete(w, FindTenant, oracle) ==
            if !oracle(FindTenant).ok then (w, Threw)
            else if w.tenant.None? then Complete(w, ReadAudit(Failed, []), oracle) else Complete(w, ReadOutcomes, oracle)
  {
    Unfold(w, FindTenant, oracle);
  }
}
