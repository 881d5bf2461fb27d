/**
 * Many lifecycle runs, timeouts and handlers interleaved over one attempt:
 * what every interleaving keeps, and what holds with one worker at a time.
 */
module ProvisioningRuns {
  import opened Wrappers
  import opened StepOutcomes
  import opened FirstAdmins
  import opened SetupLinks
  import opened Provisioning

  datatype Thread = Thread(pc: Pc, aborted: bool, handler: bool)

  datatype System = System(world: World, threads: map<nat, Thread>)

  datatype RunEvent =
    | StartRun(id: nat)
    | Advance(id: nat, input: Input)
    /** The timer of run `id` fires: abort first, then the handler starts. */
    | Timeout(id: nat, handlerId: nat)

  /** Events that are not possible leave the system as it is. */
  ghost function FireRun(s: System, e: RunEvent): System {
    match e
    case StartRun(id) =>
      if id in s.threads then s else s.(threads := s.threads[id := Thread(Begin, false, false)])
    case Advance(id, input) =>
      if id !in s.threads then s
      else
        var (w, pc) := Next(s.world, s.threads[id].pc, input, s.threads[id].aborted);
        System(w, s.threads[id := s.threads[id].(pc := pc)])
    case Timeout(id, handlerId) =>
      if id in s.threads && handlerId !in s.threads
         && !s.threads[id].handler && !s.threads[id].aborted && !s.threads[id].pc.Finished?
      then s.(threads := s.threads[id := s.threads[id].(aborted := true)][handlerId := Thread(TimeoutStart, false, true)])
      else s
  }

  ghost function FireRuns(s: System, es: seq<RunEvent>): System
    decreases |es|
  {
    if es == [] then s else FireRuns(FireRun(s, es[0]), es[1..])
  }

  // ----- FAILED is absorbing -------------------------------------------

  lemma NextKeepsFailed(w: World, pc: Pc, i: Input, aborted: bool)
    requires w.tenant == Some(TenantFailed)
    ensures Next(w, pc, i, aborted).0.tenant == Some(TenantFailed)
  {
  }

  /** A failed tenant is never anything else again, whatever runs, handlers and timeouts interleave. */
  lemma {:induction false} FailedIsAbsorbing(s: System, es: seq<RunEvent>)
    requires s.world.tenant == Some(TenantFailed)
    ensures FireRuns(s, es).world.tenant == Some(TenantFailed)
    decreases |es|
  {
    if es != [] {
      match es[0] {
        case Advance(id, input) =>
          if id in s.threads {
            NextKeepsFailed(s.world, s.threads[id].pc, input, s.threads[id].aborted);
          }
        case _ =>
      }
      FailedIsAbsorbing(FireRun(s, es[0]), es[1..]);
    }
  }

  /** The only event that makes a tenant active is the activation step of a run that was not aborted. */
  lemma OnlyUnabortedRunsActivate(s: System, e: RunEvent)
    requires s.world.tenant != Some(TenantActive) && FireRun(s, e).world.tenant == Some(TenantActive)
    ensures e.Advance? && e.id in s.threads && s.threads[e.id].pc == Activate && !s.threads[e.id].aborted
    ensures s.world.tenant == Some(TenantProvisioning) && s.world.attempt.status == Provisioning
  {
    assert CanActivate(s.world);
    match s.world.tenant.value
    case TenantProvisioning =>
    case _ =>
  }

  /** The abort signal of a run is never taken back. */
  lemma {:induction false} AbortIsPermanent(s: System, es: seq<RunEvent>, id: nat)
    requires id in s.threads && s.threads[id].aborted
    ensures id in FireRuns(s, es).threads && FireRuns(s, es).threads[id].aborted
    decreases |es|
  {
    if es != [] {
      AbortIsPermanent(FireRun(s, es[0]), es[1..], id);
    }
  }

  /** After its abort, no later action of a run activates its tenant. */
  lemma AbortedRunNeverActivates(s: System, es: seq<RunEvent>, id: nat, input: Input)
    requires id in s.threads && s.threads[id].aborted
    ensures var late := FireRuns(s, es);
            late.world.tenant != Some(TenantActive) ==>
              FireRun(late, Advance(id, input)).world.tenant != Some(TenantActive)
  {
    AbortIsPermanent(s, es, id);
  }

  // ----- the attempt as a guarded state machine ------------------------

  /** Which status may follow which in one action. */
  predicate StatusStep(before: AttemptStatus, after: AttemptStatus) {
    || before == after
    || (before == Accepted && after == Provisioning)
    || (Terminal(after) && before != after)
    || (before == Failed && after == Provisioning)
  }

  lemma NextStatusStep(w: World, pc: Pc, i: Input, aborted: bool)
    ensures StatusStep(w.attempt.status, Next(w, pc, i, aborted).0.attempt.status)
  {
  }

  /**
   * In every interleaving each event moves the attempt along `StatusStep`:
   * `Accepted` is never re-entered, and `Provisioning` is entered only from
   * `Accepted` and `Failed`, never from `Succeeded` or `NeedsManualCleanup`.
   */
  lemma AttemptIsGuarded(s: System, es: seq<RunEvent>, e: RunEvent)
    ensures var before := FireRuns(s, es).world.attempt.status;
            var after := FireRun(FireRuns(s, es), e).world.attempt.status;
            && (after == Accepted ==> before == Accepted)
            && (after == Provisioning ==> before == Provisioning || before == Accepted || before == Failed)
  {
    var m := FireRuns(s, es);
    if e.Advance? && e.id in m.threads {
      NextStatusStep(m.world, m.threads[e.id].pc, e.input, m.threads[e.id].aborted);
    }
  }

  // ----- the outcome list over whole runs ------------------------------

  lemma {:induction false} UpsertAllConcat(list: seq<Outcome>, a: seq<Outcome>, b: seq<Outcome>)
    ensures UpsertAll(list, a + b) == UpsertAll(UpsertAll(list, a), b)
  {
    if b == [] {
      assert a + b == a;
    } else {
      var n := |b| - 1;
      assert (a + b)[..|a + b| - 1] == a + b[..n];
      UpsertAllConcat(list, a, b[..n]);
    }
  }

  /** What the action at `pc` writes to the attempt, if it writes. */
  function Writes(pc: Pc, i: Input): seq<Outcome> {
    match pc
    case Claim => [Outcome(PROVISIONING_START, RunningStep, i.detail)]
    case RecordCreation(_) => [Outcome(TENANT_CREATION, SucceededStep, i.detail)]
    case RecordCreationFailure =>
      [Outcome(PROVISIONING_START, FailedStep, i.detail), Outcome(TENANT_CREATION, FailedStep, i.detail)]
    case RecordStep(k, done) =>
      if k < |BLOCKING| then [Outcome(BLOCKING[k], SucceededIf(done), i.detail)] else []
    case RecordEmail(delivered, _) => [Outcome(SETUP_EMAIL_SENT, SucceededIf(delivered), i.detail)]
    case RecordActivation(done) => [Outcome(ACTIVATION, SucceededIf(done), i.detail)]
    case RecordAudit(_) => [Outcome(AUDIT_FINALIZED, SucceededStep, i.detail)]
    case TimeoutStart => [Outcome(PROVISIONING_START, FailedStep, i.detail)]
    case _ => []
  }

  lemma NextWrites(w: World, pc: Pc, i: Input, aborted: bool)
    ensures var list := Next(w, pc, i, aborted).0.attempt.outcomes;
            list == w.attempt.outcomes || list == UpsertAll(w.attempt.outcomes, Writes(pc, i))
  {
  }

  /** The writes of an event that were accepted. */
  ghost function EventWrites(s: System, e: RunEvent): seq<Outcome> {
    if e.Advance? && e.id in s.threads && FireRun(s, e).world.attempt.outcomes != s.world.attempt.outcomes
    then Writes(s.threads[e.id].pc, e.input) else []
  }

  lemma FireRunWrites(s: System, e: RunEvent)
    ensures FireRun(s, e).world.attempt.outcomes == UpsertAll(s.world.attempt.outcomes, EventWrites(s, e))
  {
    if e.Advance? && e.id in s.threads {
      NextWrites(s.world, s.threads[e.id].pc, e.input, s.threads[e.id].aborted);
    }
  }

  ghost function AcceptedWrites(s: System, es: seq<RunEvent>): seq<Outcome>
    decreases |es|
  {
    if es == [] then [] else EventWrites(s, es[0]) + AcceptedWrites(FireRun(s, es[0]), es[1..])
  }

  lemma {:induction false} OutcomesAreLogged(s: System, es: seq<RunEvent>, log: seq<Outcome>)
    requires s.world.attempt.outcomes == UpsertAll([], log)
    ensures FireRuns(s, es).world.attempt.outcomes == UpsertAll([], log + AcceptedWrites(s, es))
    decreases |es|
  {
    hide FireRun, EventWrites;
    if es == [] {
      assert log + [] == log;
    } else {
      var accepted := EventWrites(s, es[0]);
      FireRunWrites(s, es[0]);
      UpsertAllConcat([], log, accepted);
      OutcomesAreLogged(FireRun(s, es[0]), es[1..], log + accepted);
      assert (log + accepted) + AcceptedWrites(FireRun(s, es[0]), es[1..]) == log + AcceptedWrites(s, es);
    }
  }

  /**
   * Over every interleaving the stored list is the insertion-ordered map of
   * the accepted writes: one entry per step, the latest, in first-write order.
   */
  lemma OutcomesRefineMap(s: System, es: seq<RunEvent>, log: seq<Outcome>)
    requires s.world.attempt.outcomes == UpsertAll([], log)
    ensures RefinesLog(FireRuns(s, es).world.attempt.outcomes, log + AcceptedWrites(s, es))
  {
    OutcomesAreLogged(s, es, log);
    UpsertAllRefinesLog(log + AcceptedWrites(s, es));
  }

  // ----- one worker at a time ------------------------------------------

  /** A run that can still act: not finished, and not stopped by its abort at the next check. */
  predicate CanAct(t: Thread) {
    !t.pc.Finished? && (t.aborted ==> Unchecked(t.pc))
  }

  ghost predicate OneWorker(s: System) {
    forall a, b | a in s.threads && b in s.threads && CanAct(s.threads[a]) && CanAct(s.threads[b]) :: a == b
  }

  ghost predicate OneWorkerThroughout(s: System, es: seq<RunEvent>)
    decreases |es|
  {
    OneWorker(s) && (es == [] || OneWorkerThroughout(FireRun(s, es[0]), es[1..]))
  }

  /** The first `k` blocking steps are recorded as succeeded. */
  predicate FirstRecorded(list: seq<Outcome>, k: nat)
    requires k <= |BLOCKING|
  {
    forall j | 0 <= j < k :: Recorded(list, BLOCKING[j])
  }

  predicate AllRecorded(list: seq<Outcome>) {
    FirstRecorded(list, |BLOCKING|) && Recorded(list, ACTIVATION)
  }

  /** What holds of the world whenever the acting run is at `pc`. */
  ghost predicate Outline(w: World, pc: Pc) {
    match pc
    case ResetStatus => w.attempt.status == Failed
    case CheckPayload | ResolveTenant | InsertTenant => w.attempt.status == Provisioning
    case RecordCreation(_) => !Terminal(w.attempt.status)
    case DoStep(k) => w.attempt.status == Provisioning && k < |BLOCKING| && FirstRecorded(w.attempt.outcomes, k)
    case RecordStep(k, _) => w.attempt.status == Provisioning && k < |BLOCKING| && FirstRecorded(w.attempt.outcomes, k)
    case SendEmail | RecordEmail(_, _) | Activate | RecordActivation(_) =>
      w.attempt.status == Provisioning && FirstRecorded(w.attempt.outcomes, |BLOCKING|)
    case ReadAudit(final, _) => final == Succeeded ==> AllRecorded(w.attempt.outcomes)
    case WriteAudit(final, _, read) => final == Succeeded ==> AllRecorded(read)
    case _ => true
  }

  ghost predicate AuditEarned(w: World) {
    w.audit.Some? && w.audit.value.finalStatus == Succeeded ==> AllRecorded(w.audit.value.outcomes)
  }

  lemma WriteRecords(list: seq<Outcome>, step: StepName, how: OutcomeStatus, detail: string)
    requires DistinctSteps(list)
    ensures forall s :: Recorded(UpsertAll(list, [Outcome(step, how, detail)]), s) <==>
                          if s == step then how == SucceededStep else Recorded(list, s)
    ensures DistinctSteps(UpsertAll(list, [Outcome(step, how, detail)]))
  {
    var o := Outcome(step, how, detail);
    assert UpsertAll(list, [o]) == Upsert(list, o);
    UpsertKeepsDistinct(list, o);
    forall s {
      RecordedAfterUpsert(list, o, s);
    }
  }

  lemma StepEffectTouchesResources(w: World, k: nat, i: Input)
    requires StepEffect(w, k, i).Some?
    ensures var w' := StepEffect(w, k, i).value;
            w'.attempt == w.attempt && w'.audit == w.audit && w'.tenant == w.tenant && w'.tenantId == w.tenantId
  {
  }

  /** The points that write the attempt's outcome list. */
  predicate Records(pc: Pc) {
    || pc.Claim? || pc.RecordCreation? || pc.RecordCreationFailure? || pc.RecordStep? || pc.RecordEmail?
    || pc.RecordActivation? || pc.RecordAudit? || pc.TimeoutStart?
  }

  lemma RecordKeepsFirst(w: World, status: AttemptStatus, step: StepName, how: OutcomeStatus, detail: string, k: nat)
    requires DistinctSteps(w.attempt.outcomes) && k <= |BLOCKING| && FirstRecorded(w.attempt.outcomes, k)
    requires step !in BLOCKING[..k]
    ensures var w' := Write(w, status, step, how, detail);
            && FirstRecorded(w'.attempt.outcomes, k) && DistinctSteps(w'.attempt.outcomes)
            && w'.audit == w.audit && w'.tenant == w.tenant
            && (how == SucceededStep && w'.attempt.status == status && !Terminal(w.attempt.status) ==>
                  Recorded(w'.attempt.outcomes, step))
  {
    WriteRecords(w.attempt.outcomes, step, how, detail);
    forall j | 0 <= j < k
      ensures BLOCKING[j] != step
    {
      assert BLOCKING[..k][j] == BLOCKING[j];
    }
  }

  ghost predicate OutlineAfter(w: World, pc: Pc, i: Input) {
    var (w', pc') := Next(w, pc, i, false);
    Outline(w', pc') && AuditEarned(w') && DistinctSteps(w'.attempt.outcomes)
  }

  lemma BlockingRecordKeepsOutline(w: World, pc: Pc, i: Input)
    requires pc.RecordStep?
    requires Outline(w, pc) && AuditEarned(w) && DistinctSteps(w.attempt.outcomes)
    ensures OutlineAfter(w, pc, i)
  {
    RecordKeepsFirst(w, Provisioning, BLOCKING[pc.k], SucceededIf(pc.done), i.detail, pc.k);
    hide UpsertAll, Recorded, DistinctSteps;
  }

  lemma LateRecordKeepsOutline(w: World, pc: Pc, i: Input)
    requires pc.RecordEmail? || pc.RecordActivation?
    requires Outline(w, pc) && AuditEarned(w) && DistinctSteps(w.attempt.outcomes)
    ensures OutlineAfter(w, pc, i)
  {
    var o := Writes(pc, i)[0];
    RecordKeepsFirst(w, Provisioning, o.step, o.status, i.detail, |BLOCKING|);
    hide UpsertAll, Recorded, DistinctSteps;
  }

  lemma CreationRecordKeepsOutline(w: World, pc: Pc, i: Input)
    requires pc.RecordCreation? || pc.RecordCreationFailure?
    requires Outline(w, pc) && AuditEarned(w) && DistinctSteps(w.attempt.outcomes)
    ensures OutlineAfter(w, pc, i)
  {
    UpsertAllKeepsDistinct(w.attempt.outcomes, Writes(pc, i));
    hide UpsertAll, Recorded, DistinctSteps;
  }

  lemma EdgeRecordKeepsOutline(w: World, pc: Pc, i: Input)
    requires pc.Claim? || pc.RecordAudit? || pc.TimeoutStart?
    requires Outline(w, pc) && AuditEarned(w) && DistinctSteps(w.attempt.outcomes)
    ensures OutlineAfter(w, pc, i)
  {
    UpsertAllKeepsDistinct(w.attempt.outcomes, Writes(pc, i));
    hide UpsertAll, Recorded, DistinctSteps;
  }

  lemma StepKeepsOutline(w: World, pc: Pc, i: Input)
    requires pc.DoStep?
    requires Outline(w, pc) && AuditEarned(w) && DistinctSteps(w.attempt.outcomes)
    ensures OutlineAfter(w, pc, i)
  {
    if StepEffect(w, pc.k, i).Some? {
      StepEffectTouchesResources(w, pc.k, i);
    }
    hide StepEffect, Recorded, DistinctSteps;
  }

  lemma OtherPointsKeepOutline(w: World, pc: Pc, i: Input)
    requires !Records(pc) && !pc.DoStep?
    requires Outline(w, pc) && AuditEarned(w) && DistinctSteps(w.attempt.outcomes)
    ensures OutlineAfter(w, pc, i)
  {
    hide Recorded, DistinctSteps;
  }

  lemma NextKeepsOutline(w: World, pc: Pc, i: Input, aborted: bool)
    requires Outline(w, pc) && AuditEarned(w) && DistinctSteps(w.attempt.outcomes)
    ensures var (w', pc') := Next(w, pc, i, aborted);
            Outline(w', pc') && AuditEarned(w') && DistinctSteps(w'.attempt.outcomes)
  {
    hide Outline, AuditEarned, DistinctSteps;
    if aborted && !Unchecked(pc) {
      StoppedOutline(w);
    } else {
      assert Next(w, pc, i, aborted) == Next(w, pc, i, false);
      if pc.RecordStep? {
        BlockingRecordKeepsOutline(w, pc, i);
      } else if pc.RecordEmail? || pc.RecordActivation? {
        LateRecordKeepsOutline(w, pc, i);
      } else if pc.RecordCreation? || pc.RecordCreationFailure? {
        CreationRecordKeepsOutline(w, pc, i);
      } else if Records(pc) {
        EdgeRecordKeepsOutline(w, pc, i);
      } else if pc.DoStep? {
        StepKeepsOutline(w, pc, i);
      } else {
        OtherPointsKeepOutline(w, pc, i);
      }
    }
  }

  lemma StoppedOutline(w: World)
    ensures Outline(w, Finished(Cancelled))
  {
  }

  ghost predicate WorkerInv(s: System) {
    && AuditEarned(s.world) && DistinctSteps(s.world.attempt.outcomes)
    && forall id | id in s.threads && CanAct(s.threads[id]) :: Outline(s.world, s.threads[id].pc)
  }

  lemma StoppedRunChangesNothing(w: World, t: Thread, i: Input)
    requires !CanAct(t)
    ensures Next(w, t.pc, i, t.aborted).0 == w && Next(w, t.pc, i, t.aborted).1.Finished?
  {
  }

  lemma FireRunKeepsWorkerInv(s: System, e: RunEvent)
    requires WorkerInv(s) && OneWorker(s)
    ensures WorkerInv(FireRun(s, e))
  {
    if e.Advance? && e.id in s.threads {
      var t := s.threads[e.id];
      if CanAct(t) {
        NextKeepsOutline(s.world, t.pc, e.input, t.aborted);
      } else {
        StoppedRunChangesNothing(s.world, t, e.input);
      }
    }
  }

  lemma {:induction false} RunsKeepWorkerInv(s: System, es: seq<RunEvent>)
    requires WorkerInv(s) && OneWorkerThroughout(s, es)
    ensures WorkerInv(FireRuns(s, es)) && OneWorker(FireRuns(s, es))
    decreases |es|
  {
    if es != [] {
      FireRunKeepsWorkerInv(s, es[0]);
      RunsKeepWorkerInv(FireRun(s, es[0]), es[1..]);
    }
  }

  /** The blocking step that run `id` records as succeeded in this event, if its write is accepted. */
  ghost function OwnRecord(s: System, e: RunEvent, id: nat): set<StepName> {
    if e.Advance? && e.id == id && id in s.threads && !s.threads[id].aborted && e.input.ok
       && s.threads[id].pc.RecordStep? && s.threads[id].pc.done && s.threads[id].pc.k < |BLOCKING|
       && !Terminal(s.world.attempt.status)
    then {BLOCKING[s.threads[id].pc.k]} else {}
  }

  /** The blocking steps that run `id` itself records as succeeded. */
  ghost function OwnRecords(s: System, es: seq<RunEvent>, id: nat): set<StepName>
    decreases |es|
  {
    if es == [] then {} else OwnRecord(s, es[0], id) + OwnRecords(FireRun(s, es[0]), es[1..], id)
  }

  function Steps(k: nat): set<StepName>
    requires k <= |BLOCKING|
  {
    set j | 0 <= j < k :: BLOCKING[j]
  }

  /** What a run has recorded itself by the time it is at `pc`. */
  ghost predicate OwnOutline(pc: Pc, own: set<StepName>) {
    match pc
    case DoStep(k) => k < |BLOCKING| && Steps(k) <= own
    case RecordStep(k, _) => k < |BLOCKING| && Steps(k) <= own
    case SendEmail | RecordEmail(_, _) | Activate | RecordActivation(_) => Steps(|BLOCKING|) <= own
    case _ => true
  }

  ghost predicate RecordsOwn(s: System, id: nat, own: set<StepName>) {
    id in s.threads && CanAct(s.threads[id]) ==> OwnOutline(s.threads[id].pc, own)
  }

  /** A record that is accepted is the run's own; the other points add nothing to what they need. */
  lemma NextKeepsOwn(w: World, pc: Pc, i: Input, own: set<StepName>)
    requires OwnOutline(pc, own) && Outline(w, pc)
    ensures var recorded := if pc.RecordStep? && pc.done && i.ok then {BLOCKING[pc.k]} else {};
            OwnOutline(Next(w, pc, i, false).1, own + recorded)
  {
    if pc.RecordStep? {
      assert Steps(pc.k + 1) == Steps(pc.k) + {BLOCKING[pc.k]};
    }
    hide UpsertAll, StepEffect, FirstRecorded, AllRecorded, Steps;
  }

  lemma FireRunKeepsOwn(s: System, e: RunEvent, id: nat, own: set<StepName>)
    requires WorkerInv(s) && RecordsOwn(s, id, own)
    ensures RecordsOwn(FireRun(s, e), id, own + OwnRecord(s, e, id))
  {
    if e.Advance? && e.id == id && id in s.threads {
      var t := s.threads[id];
      if CanAct(t) && !t.aborted {
        NextKeepsOwn(s.world, t.pc, e.input, own);
        assert t.pc.RecordStep? ==> s.world.attempt.status == Provisioning;
      } else {
        AbortedRunHasNoStepsLeft(s.world, t, e.input, own);
        assert own + OwnRecord(s, e, id) == own;
      }
      hide Outline, AuditEarned, DistinctSteps, Steps, Next;
    } else {
      hide Outline, AuditEarned, DistinctSteps, Next;
      assert own + OwnRecord(s, e, id) == own;
    }
  }

  /** From a point it still reaches after its abort, a run goes nowhere that needs recorded steps. */
  lemma AbortedRunHasNoStepsLeft(w: World, t: Thread, i: Input, own: set<StepName>)
    requires t.aborted || !CanAct(t)
    ensures var pc' := Next(w, t.pc, i, t.aborted).1; CanAct(t.(pc := pc')) ==> OwnOutline(pc', own)
  {
    hide UpsertAll, StepEffect, Recorded;
  }

  lemma {:induction false} RunsKeepOwn(s: System, es: seq<RunEvent>, id: nat, own: set<StepName>)
    requires WorkerInv(s) && OneWorkerThroughout(s, es) && RecordsOwn(s, id, own)
    ensures RecordsOwn(FireRuns(s, es), id, own + OwnRecords(s, es, id))
    decreases |es|
  {
    hide FireRun, WorkerInv, OneWorker, RecordsOwn, OwnRecord;
    if es == [] {
      assert own + OwnRecords(s, es, id) == own;
    } else {
      var first := OwnRecord(s, es[0], id);
      FireRunKeepsWorkerInv(s, es[0]);
      FireRunKeepsOwn(s, es[0], id, own);
      RunsKeepOwn(FireRun(s, es[0]), es[1..], id, own + first);
      assert own + OwnRecords(s, es, id) == own + first + OwnRecords(FireRun(s, es[0]), es[1..], id);
    }
  }

  /**
   * Active is earned: with one worker at a time, whenever an event activates
   * the tenant, schema, migration, seed, first admin and setup link are all
   * recorded as succeeded and the attempt is in `Provisioning`; and a run that
   * had recorded nothing at the start has recorded all five itself.
   */
  lemma ActiveIsEarned(s: System, es: seq<RunEvent>, e: RunEvent)
    requires WorkerInv(s) && OneWorkerThroughout(s, es)
    requires var m := FireRuns(s, es);
             m.world.tenant != Some(TenantActive) && FireRun(m, e).world.tenant == Some(TenantActive)
    ensures FirstRecorded(FireRuns(s, es).world.attempt.outcomes, |BLOCKING|)
    ensures FireRuns(s, es).world.attempt.status == Provisioning
    ensures e.id !in s.threads || s.threads[e.id].pc == Begin ==> forall step | step in BLOCKING :: step in OwnRecords(s, es, e.id)
  {
    RunsKeepWorkerInv(s, es);
    var m := FireRuns(s, es);
    OnlyUnabortedRunsActivate(m, e);
    assert CanAct(m.threads[e.id]);
    if e.id !in s.threads || s.threads[e.id].pc == Begin {
      RunsKeepOwn(s, es, e.id, {});
      assert {} + OwnRecords(s, es, e.id) == OwnRecords(s, es, e.id);
      assert OwnOutline(Activate, OwnRecords(s, es, e.id));
    }
  }

  /** An audit row that says `Succeeded` lists all blocking steps and the activation as succeeded. */
  lemma SucceededAuditIsComplete(s: System, es: seq<RunEvent>)
    requires WorkerInv(s) && OneWorkerThroughout(s, es)
    ensures AuditEarned(FireRuns(s, es).world)
  {
    RunsKeepWorkerInv(s, es);
  }
}
