/**
 * The tenant provisioning saga, one atomic database action per program point:
 * lifecycle, failure handler with compensation, and the timeout handler.
 */
module Provisioning {
  import opened Wrappers
  import opened StepOutcomes
  import opened FirstAdmins
  import opened SetupLinks

  datatype TenantStatus = TenantProvisioning | TenantActive | TenantFailed

  datatype CompensationStatus = Done | CompensationFailed | Skipped

  /** Outcomes of the three compensation actions, in order: tokens, First Admin, schema. */
  type Compensation = seq<CompensationStatus>

  datatype AuditRow = AuditRow(finalStatus: FinalStatus, outcomes: seq<Outcome>, compensation: Compensation)

  /** Everything one onboarding attempt reads and writes. */
  datatype World = World(
    tenantId: Id,
    adminEmail: string,
    attempt: Attempt,
    tenant: Option<TenantStatus>,
    schema: bool,
    identity: Identity,
    tokens: Tokens,
    audit: Option<AuditRow>)

  /** The environment's answer to one action: whether it works, and generated values. */
  datatype Input = Input(ok: bool, delivered: bool, slugTaken: bool, ids: NewIds, hash: string, now: int, detail: string)

  /** The statuses an audit can close an attempt with. */
  type FinalStatus = s: AttemptStatus | Terminal(s) witness Failed

  datatype Ending = Resolved | Threw | Cancelled

  datatype CreationMode = Resuming | FreshlyCreated | Adopted

  /** Program points of a run. `k` counts the blocking steps of `BLOCKING`. */
  datatype Pc =
    | Begin | ReadStatus | ResetStatus
    | Claim | CheckPayload | ResolveTenant | InsertTenant
    | RecordCreation(mode: CreationMode) | RecordCreationFailure
    | DoStep(k: nat) | RecordStep(k: nat, done: bool)
    | SendEmail | RecordEmail(delivered: bool, last: bool)
    | Activate | RecordActivation(done: bool)
    | ReadOutcomes
    | RevokeSetupTokens(read: seq<Outcome>)
    | DeactivateFirstAdmin(read: seq<Outcome>, compensation: Compensation)
    | DropSchema(read: seq<Outcome>, compensation: Compensation)
    | MarkFailed(compensation: Compensation)
    | ReadAudit(final: FinalStatus, compensation: Compensation)
    | WriteAudit(final: FinalStatus, compensation: Compensation, read: seq<Outcome>)
    | RecordAudit(final: FinalStatus)
    | TimeoutStart | FindTenant
    | Finished(ending: Ending)

  const BLOCKING: seq<StepName> :=
    [SCHEMA_CREATED, BOOTSTRAP_MIGRATED, BOOTSTRAP_SEEDED, FIRST_ADMIN_ASSIGNED, SETUP_LINK_GENERATED]

  /** The points whose action is not directly preceded by an abort check. */
  predicate Unchecked(pc: Pc) {
    || pc.ResetStatus? || pc.InsertTenant? || pc.RecordCreationFailure? || pc == RecordCreation(Adopted)
    || pc.CheckPayload?
    || pc.WriteAudit?
    || (pc.ReadAudit? && pc.final != Succeeded) || (pc.RecordAudit? && pc.final != Succeeded)
    || InHandler(pc)
    || pc.Finished?
  }

  /** Compensation and timeout handling run without an abort signal. */
  predicate InHandler(pc: Pc) {
    || pc.ReadOutcomes? || pc.RevokeSetupTokens? || pc.DeactivateFirstAdmin? || pc.DropSchema? || pc.MarkFailed?
    || pc.TimeoutStart? || pc.FindTenant?
  }

  function Write(w: World, status: AttemptStatus, step: StepName, how: OutcomeStatus, detail: string): World {
    w.(attempt := UpdateSteps(w.attempt, status, [Outcome(step, how, detail)]))
  }

  function SucceededIf(done: bool): OutcomeStatus {
    if done then SucceededStep else FailedStep
  }

  /** The resource a blocking step creates; `None` when the step throws. */
  ghost function StepEffect(w: World, k: nat, i: Input): Option<World> {
    if !i.ok then None
    else if k == 0 then Some(w.(schema := true))
    else if k == 3 then
      match Assign(w.identity, w.tenantId, w.adminEmail, i.ids)
      case Some(s) => Some(w.(identity := s))
      case None => None
    else if k == 4 then
      match Generate(w.identity.users, w.tokens, w.tenantId, i.hash, i.now)
      case Some(ts) => Some(w.(tokens := ts))
      case None => None
    else Some(w)
  }

  predicate CanActivate(w: World) {
    w.tenant.Some? && w.tenant != Some(TenantFailed) && w.attempt.status == Provisioning
  }

  predicate AnyFailed(c: Compensation) {
    CompensationFailed in c
  }

  function Outcome3(ok: bool): CompensationStatus {
    if ok then Done else CompensationFailed
  }

  /** Where the audit ends: a success resolves the job, a failure rethrows. */
  function AfterAudit(final: FinalStatus): Pc {
    Finished(if final == Succeeded then Resolved else Threw)
  }

  /** One action of a run whose abort signal has fired iff `aborted`. */
  ghost function Next(w: World, pc: Pc, i: Input, aborted: bool): (World, Pc) {
    if aborted && !Unchecked(pc) then (w, Finished(Cancelled))
    else if InHandler(pc) then NextHandler(w, pc, i)
    else
      match pc
      case Begin =>
        (w, if !i.ok then Finished(Threw) else if w.tenant.Some? then ReadStatus else Claim)
      case ReadStatus =>
        (w, if !i.ok then Finished(Threw)
            else match w.attempt.status
              case Succeeded => Finished(Resolved)
              case NeedsManualCleanup => Finished(Threw)
              case Failed => ResetStatus
              case _ => RecordCreation(Resuming))
      case ResetStatus =>
        if !i.ok then (w, Finished(Threw))
        else (if w.attempt.status == Failed then w.(attempt := w.attempt.(status := Provisioning)) else w,
              RecordCreation(Resuming))
      case Claim =>
        if !i.ok then (w, Finished(Threw))
        else if w.attempt.status != Accepted then (w, Finished(Resolved))
        else (Write(w, Provisioning, PROVISIONING_START, RunningStep, i.detail), CheckPayload)
      case CheckPayload =>
        (w, if i.ok then ResolveTenant else RecordCreationFailure)
      case ResolveTenant =>
        (w, if !i.ok then RecordCreationFailure
            else if w.tenant.Some? then RecordCreation(FreshlyCreated) else InsertTenant)
      case InsertTenant =>
        if w.tenant.Some? && i.ok then (w, RecordCreation(Adopted))
        else if !i.ok || i.slugTaken then (w, RecordCreationFailure)
        else (w.(tenant := Some(TenantProvisioning)), RecordCreation(FreshlyCreated))
      case RecordCreation(mode) =>
        if !i.ok then (w, if mode.FreshlyCreated? then RecordCreationFailure else Finished(Threw))
        else (Write(w, Provisioning, TENANT_CREATION, SucceededStep, i.detail), DoStep(0))
      case RecordCreationFailure =>
        if !i.ok then (w, Finished(Threw))
        else (w.(attempt := UpdateSteps(w.attempt, Failed,
                [Outcome(PROVISIONING_START, FailedStep, i.detail), Outcome(TENANT_CREATION, FailedStep, i.detail)])),
              Finished(Resolved))
      case DoStep(k) =>
        (match StepEffect(w, k, i)
         case Some(w') => (w', RecordStep(k, true))
         case None => (w, RecordStep(k, false)))
      case RecordStep(k, done) =>
        if !i.ok || k >= |BLOCKING| then (w, if done then RecordStep(k, false) else ReadOutcomes)
        else (Write(w, Provisioning, BLOCKING[k], SucceededIf(done), i.detail),
              if !done then ReadOutcomes else if k + 1 < |BLOCKING| then DoStep(k + 1) else SendEmail)
      case SendEmail => (w, RecordEmail(i.ok && i.delivered, !i.ok))
      case RecordEmail(delivered, last) =>
        if i.ok then (Write(w, Provisioning, SETUP_EMAIL_SENT, SucceededIf(delivered), i.detail), Activate)
        else (w, if last then Activate else RecordEmail(false, true))
      case Activate =>
        if i.ok && CanActivate(w) then (w.(tenant := Some(TenantActive)), RecordActivation(true))
        else (w, RecordActivation(false))
      case RecordActivation(done) =>
        if !i.ok then (w, if done then RecordActivation(false) else ReadOutcomes)
        else (Write(w, Provisioning, ACTIVATION, SucceededIf(done), i.detail),
              if done then ReadAudit(Succeeded, []) else ReadOutcomes)
      case ReadAudit(final, c) =>
        (w, if i.ok then WriteAudit(final, c, w.attempt.outcomes) else AfterAudit(final))
      case WriteAudit(final, c, read) =>
        if i.ok then (w.(audit := Some(AuditRow(final, read, c))), RecordAudit(final)) else (w, AfterAudit(final))
      case RecordAudit(final) =>
        (if i.ok then Write(w, final, AUDIT_FINALIZED, SucceededStep, i.detail) else w, AfterAudit(final))
      case Finished(_) => (w, pc)
  }

  /** Compensation, each action attempted whatever happened to the ones before it. */
  function NextHandler(w: World, pc: Pc, i: Input): (World, Pc)
    requires InHandler(pc)
  {
    match pc
    case TimeoutStart =>
      if !i.ok then (w, Finished(Threw))
      else (Write(w, Failed, PROVISIONING_START, FailedStep, i.detail), FindTenant)
    case FindTenant =>
      (w, if !i.ok then Finished(Threw) else if w.tenant.None? then ReadAudit(Failed, []) else ReadOutcomes)
    case ReadOutcomes =>
      (w, if i.ok then RevokeSetupTokens(w.attempt.outcomes) else Finished(Threw))
    case RevokeSetupTokens(read) =>
      (if i.ok then w.(tokens := Revoke(w.tokens, w.tenantId)) else w,
       DeactivateFirstAdmin(read, [Outcome3(i.ok)]))
    case DeactivateFirstAdmin(read, c) =>
      (if i.ok then w.(identity := Deactivate(w.identity, w.tenantId)) else w,
       DropSchema(read, c + [Outcome3(i.ok)]))
    case DropSchema(read, c) =>
      var c3 := c + [if !Recorded(read, SCHEMA_CREATED) then Skipped else Outcome3(i.ok)];
      (if Recorded(read, SCHEMA_CREATED) && i.ok then w.(schema := false) else w,
       if AnyFailed(c3) then ReadAudit(NeedsManualCleanup, c3) else MarkFailed(c3))
    case MarkFailed(c) =>
      (if i.ok && w.tenant.Some? then w.(tenant := Some(TenantFailed)) else w, ReadAudit(Failed, c))
  }
}
