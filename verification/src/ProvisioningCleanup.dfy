/**
 * One run of the lifecycle to its end, whatever its actions meet: what the
 * failure handler does with the resources, the tenant and the audit.
 */
module ProvisioningCleanup {
  import opened Wrappers
  import opened StepOutcomes
  import opened FirstAdmins
  import opened SetupLinks
  import opened Provisioning
  import opened ProvisioningRuns

  /** The environment of one run: what each action meets. A run visits a point at most once. */
  type Oracle = Pc -> Input

  function Rank(pc: Pc): nat {
    match pc
    case Finished(_) => 0
    case RecordAudit(_) | RecordCreationFailure => 1
    case WriteAudit(_, _, _) => 2
    case ReadAudit(_, _) => 3
    case MarkFailed(_) => 4
    case DropSchema(_, _) => 5
    case DeactivateFirstAdmin(_, _) => 6
    case RevokeSetupTokens(_) => 7
    case ReadOutcomes => 8
    case FindTenant => 9
    case TimeoutStart => 10
    case RecordActivation(done) => if done then 12 else 11
    case Activate => 13
    case RecordEmail(_, last) => if last then 14 else 15
    case SendEmail => 16
    case RecordStep(k, done) => StepRank(k) + if done then 1 else 0
    case DoStep(k) => StepRank(k) + 2
    case RecordCreation(_) => 40
    case InsertTenant | ResetStatus => 41
    case ResolveTenant | ReadStatus => 42
    case CheckPayload => 43
    case Claim => 44
    case Begin => 45
  }

  function StepRank(k: nat): nat {
    20 + if k < 5 then 3 * (5 - k) else 0
  }

  lemma NextDescends(w: World, pc: Pc, i: Input)
    requires !pc.Finished?
    ensures Rank(Next(w, pc, i, false).1) < Rank(pc)
  {
    if InHandler(pc) {
      HandlerDescends(w, pc, i);
    } else {
      LifecycleDescends(w, pc, i);
    }
  }

  lemma HandlerDescends(w: World, pc: Pc, i: Input)
    requires InHandler(pc)
    ensures Rank(Next(w, pc, i, false).1) < Rank(pc)
  {
    hide UpsertAll, Deactivate, Revoke, Recorded;
  }

  lemma LifecycleDescends(w: World, pc: Pc, i: Input)
    requires !pc.Finished? && !InHandler(pc)
    ensures Rank(Next(w, pc, i, false).1) < Rank(pc)
  {
    hide UpsertAll, StepEffect, Recorded;
  }

  /** Runs to the end. */
  ghost function Complete(w: World, pc: Pc, oracle: Oracle): (World, Ending)
    decreases Rank(pc)
  {
    if pc.Finished? then (w, pc.ending)
    else
      var (w', pc') := Next(w, pc, oracle(pc), false);
      NextDescends(w, pc, oracle(pc));
      Complete(w', pc', oracle)
  }

  /** Runs to the end or to the start of the failure handler. */
  ghost function UntilHandler(w: World, pc: Pc, oracle: Oracle): (World, Pc)
    decreases Rank(pc)
  {
    if pc.Finished? || pc.ReadOutcomes? then (w, pc)
    else
      var (w', pc') := Next(w, pc, oracle(pc), false);
      NextDescends(w, pc, oracle(pc));
      UntilHandler(w', pc', oracle)
  }

  lemma {:induction false} CompleteViaHandler(w: World, pc: Pc, oracle: Oracle)
    ensures var (w1, pc1) := UntilHandler(w, pc, oracle);
            Complete(w, pc, oracle) == Complete(w1, pc1, oracle)
    decreases Rank(pc)
  {
    hide Next;
    if !pc.Finished? && !pc.ReadOutcomes? {
      NextDescends(w, pc, oracle(pc));
      CompleteViaHandler(Next(w, pc, oracle(pc), false).0, Next(w, pc, oracle(pc), false).1, oracle);
    }
  }

  lemma Unfold(w: World, pc: Pc, oracle: Oracle)
    requires !pc.Finished?
    ensures var (w', pc') := Next(w, pc, oracle(pc), false); Complete(w, pc, oracle) == Complete(w', pc', oracle)
  {
    hide Next;
  }

  /** A retry that finds the attempt in manual cleanup ends with an error and changes nothing, whatever its actions meet. */
  lemma ManualCleanupStopsRetry(w: World, oracle: Oracle)
    requires w.attempt.status == NeedsManualCleanup && w.tenant.Some?
    ensures Complete(w, Begin, oracle) == (w, Threw)
  {
    Unfold(w, Begin, oracle);
    Unfold(w, ReadStatus, oracle);
  }

  // ----- single moves of the handler and the audit ---------------------

  lemma AuditMoves(w: World, final: FinalStatus, c: Compensation, read: seq<Outcome>, oracle: Oracle)
    ensures Complete(w, ReadAudit(final, c), oracle) ==
            if oracle(ReadAudit(final, c)).ok then Complete(w, WriteAudit(final, c, w.attempt.outcomes), oracle)
            else (w, AfterAudit(final).ending)
    ensures Complete(w, WriteAudit(final, c, read), oracle) ==
            if oracle(WriteAudit(final, c, read)).ok
            then Complete(w.(audit := Some(AuditRow(final, read, c))), RecordAudit(final), oracle)
            else (w, AfterAudit(final).ending)
    ensures var i := oracle(RecordAudit(final));
            Complete(w, RecordAudit(final), oracle) ==
            (if i.ok then Write(w, final, AUDIT_FINALIZED, SucceededStep, i.detail) else w, AfterAudit(final).ending)
  {
    hide UpsertAll;
    Unfold(w, ReadAudit(final, c), oracle);
    Unfold(w, WriteAudit(final, c, read), oracle);
    Unfold(w, RecordAudit(final), oracle);
  }

  lemma CompensationMoves(w: World, read: seq<Outcome>, c: Compensation, oracle: Oracle)
    ensures var i := oracle(RevokeSetupTokens(read));
            Complete(w, RevokeSetupTokens(read), oracle) ==
            Complete(if i.ok then w.(tokens := Revoke(w.tokens, w.tenantId)) else w,
                     DeactivateFirstAdmin(read, [Outcome3(i.ok)]), oracle)
    ensures var i := oracle(DeactivateFirstAdmin(read, c));
            Complete(w, DeactivateFirstAdmin(read, c), oracle) ==
            Complete(if i.ok then w.(identity := Deactivate(w.identity, w.tenantId)) else w,
                     DropSchema(read, c + [Outcome3(i.ok)]), oracle)
    ensures var i := oracle(DropSchema(read, c));
            var c3 := c + [if !Recorded(read, SCHEMA_CREATED) then Skipped else Outcome3(i.ok)];
            Complete(w, DropSchema(read, c), oracle) ==
            Complete(if Recorded(read, SCHEMA_CREATED) && i.ok then w.(schema := false) else w,
                     if AnyFailed(c3) then ReadAudit(NeedsManualCleanup, c3) else MarkFailed(c3), oracle)
  {
    hide Complete, Deactivate, Revoke, Recorded;
    Unfold(w, RevokeSetupTokens(read), oracle);
    Unfold(w, DeactivateFirstAdmin(read, c), oracle);
    Unfold(w, DropSchema(read, c), oracle);
  }

  lemma ReadOutcomesMoves(w: World, oracle: Oracle)
    ensures Complete(w, ReadOutcomes, oracle) ==
            if oracle(ReadOutcomes).ok then Complete(w, RevokeSetupTokens(w.attempt.outcomes), oracle) else (w, Threw)
  {
    Unfold(w, ReadOutcomes, oracle);
  }

  lemma MarkFailedMoves(w: World, c: Compensation, oracle: Oracle)
    ensures Complete(w, MarkFailed(c), oracle) ==
            Complete(if oracle(MarkFailed(c)).ok && w.tenant.Some? then w.(tenant := Some(TenantFailed)) else w,
                     ReadAudit(Failed, c), oracle)
  {
    hide Complete;
    Unfold(w, MarkFailed(c), oracle);
  }

  // ----- the failure handler -------------------------------------------

  /** The three compensation results when nothing keeps the handler itself from running. */
  function CompensationOf(w: World, oracle: Oracle): Compensation {
    var read := w.attempt.outcomes;
    var c1 := [Outcome3(oracle(RevokeSetupTokens(read)).ok)];
    var c2 := c1 + [Outcome3(oracle(DeactivateFirstAdmin(read, c1)).ok)];
    c2 + [if !Recorded(read, SCHEMA_CREATED) then Skipped else Outcome3(oracle(DropSchema(read, c2)).ok)]
  }

  function FinalOf(c: Compensation): FinalStatus {
    if AnyFailed(c) then NeedsManualCleanup else Failed
  }

  /** The handler reads the outcome list, and its bookkeeping writes work. Compensation itself may fail. */
  predicate HandlerRuns(w: World, oracle: Oracle) {
    var c := CompensationOf(w, oracle);
    && oracle(ReadOutcomes).ok
    && (!AnyFailed(c) ==> oracle(MarkFailed(c)).ok)
    && oracle(ReadAudit(FinalOf(c), c)).ok
    && oracle(WriteAudit(FinalOf(c), c, w.attempt.outcomes)).ok
    && oracle(RecordAudit(FinalOf(c))).ok
  }

  /**
   * Every compensation action is attempted whatever happened to the others,
   * the schema is dropped only when its creation is recorded as succeeded, the
   * tenant fails only if nothing is left to clean up, and the audit says which.
   */
  lemma HandlerResult(w: World, oracle: Oracle)
    requires HandlerRuns(w, oracle) && w.tenant.Some?
    ensures var c := CompensationOf(w, oracle);
            var (w', ending) := Complete(w, ReadOutcomes, oracle);
            && ending == Threw
            && |c| == 3
            && w'.tokens == (if c[0].Done? then Revoke(w.tokens, w.tenantId) else w.tokens)
            && w'.identity == (if c[1].Done? then Deactivate(w.identity, w.tenantId) else w.identity)
            && w'.schema == (w.schema && !c[2].Done?)
            && (c[2].Skipped? <==> !Recorded(w.attempt.outcomes, SCHEMA_CREATED))
            && w'.tenant == (if AnyFailed(c) then w.tenant else Some(TenantFailed))
            && w'.attempt.status == FinalOf(c)
            && w'.audit == Some(AuditRow(FinalOf(c), w.attempt.outcomes, c))
            && w'.tenantId == w.tenantId && w'.adminEmail == w.adminEmail
  {
    var c := CompensationOf(w, oracle);
    hide Complete, Deactivate, Revoke;
    CompensationRuns(w, oracle);
    HandlerTail(Compensated(w, c), c, oracle, w.attempt.outcomes);
  }

  /** The resources after the compensation actions that worked. */
  function Compensated(w: World, c: Compensation): World
    requires |c| == 3
  {
    w.(tokens := if c[0].Done? then Revoke(w.tokens, w.tenantId) else w.tokens,
       identity := if c[1].Done? then Deactivate(w.identity, w.tenantId) else w.identity,
       schema := w.schema && !c[2].Done?)
  }

  lemma CompensationRuns(w: World, oracle: Oracle)
    requires oracle(ReadOutcomes).ok
    ensures var c := CompensationOf(w, oracle);
            |c| == 3 &&
            Complete(w, ReadOutcomes, oracle) ==
            Complete(Compensated(w, c), if AnyFailed(c) then ReadAudit(NeedsManualCleanup, c) else MarkFailed(c), oracle)
  {
    var read, c := w.attempt.outcomes, CompensationOf(w, oracle);
    var c1, c2 := [c[0]], [c[0], c[1]];
    assert c1 + [c[1]] == c2 && c2 + [c[2]] == c;
    var w2 := w.(tokens := if c[0].Done? then Revoke(w.tokens, w.tenantId) else w.tokens);
    var w3 := w2.(identity := if c[1].Done? then Deactivate(w.identity, w.tenantId) else w.identity);
    hide Complete, Deactivate, Revoke, Next;
    ReadOutcomesMoves(w, oracle);
    CompensationMoves(w, read, [], oracle);
    CompensationMoves(w2, read, c1, oracle);
    CompensationMoves(w3, read, c2, oracle);
  }

  lemma HandlerTail(w: World, c: Compensation, oracle: Oracle, read: seq<Outcome>)
    requires w.tenant.Some? && w.attempt.outcomes == read
    requires !AnyFailed(c) ==> oracle(MarkFailed(c)).ok
    requires oracle(ReadAudit(FinalOf(c), c)).ok && oracle(WriteAudit(FinalOf(c), c, read)).ok
    requires oracle(RecordAudit(FinalOf(c))).ok
    ensures var (w', ending) := Complete(w, if AnyFailed(c) then ReadAudit(NeedsManualCleanup, c) else MarkFailed(c), oracle);
            && ending == Threw
            && w' == Write(w, FinalOf(c), AUDIT_FINALIZED, SucceededStep, oracle(RecordAudit(FinalOf(c))).detail)
                     .(tenant := if AnyFailed(c) then w.tenant else Some(TenantFailed),
                       audit := Some(AuditRow(FinalOf(c), read, c)))
  {
    var start := if AnyFailed(c) then ReadAudit(NeedsManualCleanup, c) else MarkFailed(c);
    var w1 := w.(tenant := if AnyFailed(c) then w.tenant else Some(TenantFailed));
    var final := FinalOf(c);
    var w2 := w1.(audit := Some(AuditRow(final, read, c)));
    hide Complete, Next;
    MarkFailedMoves(w, c, oracle);
    AuditMoves(w1, final, c, read, oracle);
    AuditMoves(w2, final, c, read, oracle);
  }
}
