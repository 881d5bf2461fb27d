/**
 * A lifecycle whose timer has fired goes on beside the timeout handler: the
 * action that was under way commits late, and unchecked points act. Exactly
 * when the handler still leaves everything clean.
 */
module ProvisioningRaces {
  import opened Wrappers
  import opened StepOutcomes
  import opened FirstAdmins
  import opened SetupLinks
  import opened Provisioning
  import opened ProvisioningRuns
  import opened ProvisioningCleanup
  import opened ProvisioningRetries

  /**
   * The timed-out lifecycle at `run` and the handler beside it. `underWay`:
   * the action at `run` had passed its abort check when the timer fired.
   */
  datatype Race = Race(w: World, run: Pc, underWay: bool, handler: Pc)

  datatype Turn = RunTurn | HandlerTurn

  ghost function Take(r: Race, turn: Turn, lifecycle: Oracle, handler: Oracle): Race {
    match turn
    case RunTurn =>
      var (w, pc) := Next(r.w, r.run, lifecycle(r.run), !r.underWay);
      Race(w, pc, false, r.handler)
    case HandlerTurn =>
      var (w, pc) := Next(r.w, r.handler, handler(r.handler), false);
      r.(w := w, handler := pc)
  }

  ghost function TakeAll(r: Race, turns: seq<Turn>, lifecycle: Oracle, handler: Oracle): Race
    decreases |turns|
  {
    if turns == [] then r else TakeAll(Take(r, turns[0], lifecycle, handler), turns[1..], lifecycle, handler)
  }

  /** Every action of the handler works, up to its audit. */
  ghost predicate Compensates(handler: Oracle) {
    forall pc | InHandler(pc) :: handler(pc).ok
  }

  /** Generated ids are new when they are used. */
  ghost predicate FreshIds(r: Race, turns: seq<Turn>, lifecycle: Oracle, handler: Oracle)
    decreases |turns|
  {
    turns == [] ||
    (&& (turns[0].RunTurn? && r.run == DoStep(3) ==> Unused(r.w.identity, lifecycle(r.run).ids))
     && FreshIds(Take(r, turns[0], lifecycle, handler), turns[1..], lifecycle, handler))
  }

  // ----- the condition -------------------------------------------------

  /** How far the handler is. */
  function Stage(pc: Pc): nat {
    match pc
    case TimeoutStart => 0
    case FindTenant => 1
    case ReadOutcomes => 2
    case RevokeSetupTokens(_) => 3
    case DeactivateFirstAdmin(_, _) => 4
    case DropSchema(_, _) => 5
    case MarkFailed(_) => 6
    case _ => 7
  }

  predicate HasRead(pc: Pc) {
    pc.RevokeSetupTokens? || pc.DeactivateFirstAdmin? || pc.DropSchema?
  }

  /** The handler will not drop a schema: it is past that, or has read that there is none. */
  predicate KeepsSchema(pc: Pc) {
    Stage(pc) > 5 || (HasRead(pc) && !Recorded(pc.read, SCHEMA_CREATED))
  }

  /** The action that was under way makes something the handler has already dealt with. */
  ghost predicate CommitsTooLate(r: Race, i: Input) {
    && r.underWay && r.run.DoStep? && StepEffect(r.w, r.run.k, i).Some?
    && ((r.run.k == 0 && KeepsSchema(r.handler))
        || (r.run.k == 3 && Stage(r.handler) > 4)
        || (r.run.k == 4 && Stage(r.handler) > 3))
  }

  /** The handler looks too early, or at a list that does not tell: no tenant yet, or a schema that is not recorded. */
  predicate Overlooks(r: Race) {
    || (r.handler.FindTenant? && r.w.tenant.None?)
    || (r.handler.ReadOutcomes? && r.w.schema && !Recorded(r.w.attempt.outcomes, SCHEMA_CREATED))
  }

  ghost predicate Spoils(r: Race, turn: Turn, lifecycle: Oracle) {
    match turn
    case RunTurn => CommitsTooLate(r, lifecycle(r.run))
    case HandlerTurn => Overlooks(r)
  }

  ghost predicate EverSpoils(r: Race, turns: seq<Turn>, lifecycle: Oracle, handler: Oracle)
    decreases |turns|
  {
    turns != [] &&
    (Spoils(r, turns[0], lifecycle) || EverSpoils(Take(r, turns[0], lifecycle, handler), turns[1..], lifecycle, handler))
  }

  // ----- as long as nothing is spoiled ---------------------------------

  predicate TokensGone(w: World) {
    forall h | h in w.tokens && w.tokens[h].tenantId == w.tenantId :: !Live(w.tokens[h])
  }

  /** The attempt is terminal, or a reset that came late has just reopened it. */
  predicate StatusFenced(r: Race) {
    Terminal(r.w.attempt.status) || (!r.underWay && (r.run == RecordCreation(Resuming) || r.run.Finished?))
  }

  /** What does not depend on the handler's progress. */
  ghost predicate Racing(base: Identity, r: Race) {
    && AtMostAdminAdded(base, r.w.identity, r.w.tenantId)
    && DistinctSteps(r.w.attempt.outcomes)
    && !r.run.TimeoutStart? && !r.run.FindTenant?
    && (NeedsTenant(r.run) ==> r.w.tenant.Some?)
    && (HasRead(r.run) ==> (Recorded(r.run.read, SCHEMA_CREATED) <==> Recorded(r.w.attempt.outcomes, SCHEMA_CREATED)))
    && (r.handler != TimeoutStart ==> StatusFenced(r))
  }

  /** The compensation results so far. */
  predicate AllDone(pc: Pc) {
    match pc
    case DeactivateFirstAdmin(_, c) => c == [Done]
    case DropSchema(_, c) => c == [Done, Done]
    case _ => true
  }

  /** What the handler has done so far is still done. */
  predicate Tidy(base: Identity, r: Race) {
    var s := Stage(r.handler);
    && (s >= 2 ==> r.w.tenant.Some?)
    && (HasRead(r.handler) && r.w.schema ==> Recorded(r.handler.read, SCHEMA_CREATED))
    && AllDone(r.handler)
    && (s > 3 ==> TokensGone(r.w))
    && (s > 4 ==> r.w.identity == base)
    && (s > 5 ==> !r.w.schema)
    && (s > 6 ==> r.w.tenant == Some(TenantFailed))
  }

  /** Only the audit or nothing is left for a handler at this point. */
  predicate IsHandlerPoint(pc: Pc) {
    InHandler(pc) || pc.ReadAudit? || pc.WriteAudit? || pc.RecordAudit? || pc.Finished?
  }

  // ----- when something is spoiled -------------------------------------

  /** The lifecycle is about to notice its abort, if it is not over. */
  predicate Fenced(r: Race) {
    !r.underWay && (r.run.RecordStep? || r.run.Finished?)
  }

  /** Nobody has read, or will read, that the schema was created. */
  ghost predicate Unrecorded(r: Race) {
    && StatusFenced(r) && DistinctSteps(r.w.attempt.outcomes)
    && !Recorded(r.w.attempt.outcomes, SCHEMA_CREATED)
    && (HasRead(r.run) ==> !Recorded(r.run.read, SCHEMA_CREATED))
  }

  /** The tenant was missed, and whoever inserts it does nothing after that. */
  predicate Missed(r: Race) {
    && Stage(r.handler) == 7
    && !r.run.TimeoutStart? && !r.run.FindTenant?
    && if r.w.tenant.None? then !NeedsTenant(r.run)
       else r.w.tenant == Some(TenantProvisioning) && !r.underWay && (r.run == RecordCreation(FreshlyCreated) || r.run.Finished?)
  }

  ghost predicate Spoilt(base: Identity, r: Race) {
    || (Stage(r.handler) > 3 && !TokensGone(r.w) && Fenced(r))
    || (Stage(r.handler) > 4 && r.w.identity != base && Fenced(r))
    || (KeepsSchema(r.handler) && r.w.schema && (Fenced(r) || Unrecorded(r)))
    || Missed(r)
  }

  // ----- turns of the lifecycle ----------------------------------------

  lemma TurnIsNext(r: Race, lifecycle: Oracle, handler: Oracle)
    ensures var r', i := Take(r, RunTurn, lifecycle, handler), lifecycle(r.run);
            && r'.handler == r.handler && !r'.underWay
            && (r.underWay || Unchecked(r.run) ==> (r'.w, r'.run) == Next(r.w, r.run, i, false))
            && (!r.underWay && !Unchecked(r.run) ==> r'.w == r.w && r'.run == Finished(Cancelled))
  {
  }

  lemma NextKeepsDistinct(w: World, pc: Pc, i: Input)
    requires DistinctSteps(w.attempt.outcomes)
    ensures DistinctSteps(Next(w, pc, i, false).0.attempt.outcomes)
  {
    NextWrites(w, pc, i, false);
    UpsertAllKeepsDistinct(w.attempt.outcomes, Writes(pc, i));
    hide Next, Writes, DistinctSteps;
  }

  /** What a handler point has read is what is stored when it gets there. */
  lemma NextKeepsRead(w: World, pc: Pc, i: Input)
    requires HasRead(pc) ==> (Recorded(pc.read, SCHEMA_CREATED) <==> Recorded(w.attempt.outcomes, SCHEMA_CREATED))
    ensures var (w', pc') := Next(w, pc, i, false);
            HasRead(pc') ==> (Recorded(pc'.read, SCHEMA_CREATED) <==> Recorded(w'.attempt.outcomes, SCHEMA_CREATED))
  {
    hide Recorded, UpsertAll, StepEffect, Deactivate;
  }

  lemma NextKeepsFence(w: World, pc: Pc, i: Input)
    requires Terminal(w.attempt.status)
    ensures var (w', pc') := Next(w, pc, i, false); Terminal(w'.attempt.status) || pc' == RecordCreation(Resuming)
  {
    if pc.DoStep? && StepEffect(w, pc.k, i).Some? {
      StepEffectTouchesResources(w, pc.k, i);
    }
    hide Recorded, UpsertAll, StepEffect, Deactivate, Revoke;
  }

  lemma RunKeepsRacing(base: Identity, r: Race, lifecycle: Oracle, handler: Oracle)
    requires ReferencesHold(base) && NoAdmin(base, r.w.tenantId) && Racing(base, r)
    requires r.run == DoStep(3) ==> Unused(r.w.identity, lifecycle(r.run).ids)
    ensures var r' := Take(r, RunTurn, lifecycle, handler); Racing(base, r') && r'.w.tenantId == r.w.tenantId
  {
    var i := lifecycle(r.run);
    TurnIsNext(r, lifecycle, handler);
    hide AtMostAdminAdded, DistinctSteps, Recorded, Take;
    if r.underWay || Unchecked(r.run) {
      NextKeepsIdentity(base, r.w, r.run, i);
      NextKeepsDistinct(r.w, r.run, i);
      NextKeepsTenant(r.w, r.run, i);
      NextKeepsRead(r.w, r.run, i);
      StaysInLifecycle(r.w, r.run, i);
      if Terminal(r.w.attempt.status) {
        NextKeepsFence(r.w, r.run, i);
      } else if r.run.Finished? {
        assert Next(r.w, r.run, i, false) == (r.w, r.run);
      }
      hide Next;
    }
  }

  lemma StaysInLifecycle(w: World, pc: Pc, i: Input)
    requires !pc.TimeoutStart? && !pc.FindTenant?
    ensures !Next(w, pc, i, false).1.TimeoutStart? && !Next(w, pc, i, false).1.FindTenant?
  {
    hide Recorded, UpsertAll, StepEffect, Deactivate, Revoke;
  }

  /** An action makes a resource only at its own step; everything else at most takes resources away. */
  lemma NextTakesAway(base: Identity, w: World, pc: Pc, i: Input)
    requires ReferencesHold(base) && NoAdmin(base, w.tenantId)
    ensures var (w', made) := (Next(w, pc, i, false).0, pc.DoStep? && StepEffect(w, pc.k, i).Some?);
            && w'.tenantId == w.tenantId
            && (TokensGone(w) && !(made && pc.k == 4) ==> TokensGone(w'))
            && (w.identity == base && !(made && pc.k == 3) ==> w'.identity == base)
            && (w'.schema && !(made && pc.k == 0) ==> w.schema)
            && (w.tenant.Some? ==> w'.tenant.Some?)
            && (w.tenant == Some(TenantFailed) ==> w'.tenant == Some(TenantFailed))
  {
    if pc.DeactivateFirstAdmin? && w.identity == base {
      RestoredIsOwned(base, w.tenantId);
      DeactivateRestores(base, base, w.tenantId);
    }
    hide Deactivate, UpsertAll, Recorded, Assign, Generate;
  }

  lemma RunKeepsTidy(base: Identity, r: Race, lifecycle: Oracle, handler: Oracle)
    requires ReferencesHold(base) && NoAdmin(base, r.w.tenantId)
    requires Tidy(base, r) && !CommitsTooLate(r, lifecycle(r.run))
    ensures Tidy(base, Take(r, RunTurn, lifecycle, handler))
  {
    TurnIsNext(r, lifecycle, handler);
    NextTakesAway(base, r.w, r.run, lifecycle(r.run));
    assert r.run.DoStep? ==> !Unchecked(r.run);
    hide Take, Next, Recorded, TokensGone, StepEffect;
  }

  // ----- turns of the handler ------------------------------------------

  lemma HandlerKeepsRacing(base: Identity, r: Race, lifecycle: Oracle, handler: Oracle)
    requires ReferencesHold(base) && NoAdmin(base, r.w.tenantId) && Racing(base, r)
    requires IsHandlerPoint(r.handler) && Compensates(handler)
    ensures var r' := Take(r, HandlerTurn, lifecycle, handler);
            Racing(base, r') && IsHandlerPoint(r'.handler) && r'.w.tenantId == r.w.tenantId
  {
    var i := handler(r.handler);
    hide AtMostAdminAdded, DistinctSteps, Recorded;
    NextKeepsIdentity(base, r.w, r.handler, i);
    NextKeepsDistinct(r.w, r.handler, i);
    HandlerPointNext(r.w, r.handler, i);
    HandlerKeepsRecord(r.w, r.handler, i);
    assert InHandler(r.handler) ==> i.ok;
    hide Next;
  }

  lemma HandlerPointNext(w: World, pc: Pc, i: Input)
    requires IsHandlerPoint(pc) && (InHandler(pc) ==> i.ok)
    ensures var (w', pc') := Next(w, pc, i, false);
            && IsHandlerPoint(pc') && pc' != TimeoutStart
            && (w.tenant.Some? ==> w'.tenant.Some?)
            && (Terminal(w.attempt.status) || pc == TimeoutStart ==> Terminal(w'.attempt.status))
            && (w'.attempt.status == w.attempt.status || Terminal(w'.attempt.status))
  {
    hide Recorded, UpsertAll, Deactivate, Revoke;
  }

  lemma HandlerKeepsRecord(w: World, pc: Pc, i: Input)
    requires IsHandlerPoint(pc) && DistinctSteps(w.attempt.outcomes)
    ensures Recorded(Next(w, pc, i, false).0.attempt.outcomes, SCHEMA_CREATED) <==> Recorded(w.attempt.outcomes, SCHEMA_CREATED)
  {
    NextWrites(w, pc, i, false);
    OtherWritesKeepRecord(w.attempt.outcomes, Writes(pc, i));
    hide Next, Recorded, DistinctSteps;
  }

  lemma DropsTidily(base: Identity, r: Race, lifecycle: Oracle, handler: Oracle)
    requires Tidy(base, r) && r.handler.DropSchema? && handler(r.handler).ok
    ensures Tidy(base, Take(r, HandlerTurn, lifecycle, handler))
  {
    var read, c := r.handler.read, r.handler.compensation;
    var c3 := [Done, Done] + [if Recorded(read, SCHEMA_CREATED) then Done else Skipped];
    assert !AnyFailed(c3);
    hide Recorded, TokensGone;
    var w' := if Recorded(read, SCHEMA_CREATED) then r.w.(schema := false) else r.w;
    assert Next(r.w, r.handler, handler(r.handler), false) == (w', MarkFailed(c3));
    TokensStay(r.w, w');
    hide Next;
  }

  lemma DeactivatesTidily(base: Identity, r: Race, lifecycle: Oracle, handler: Oracle)
    requires ReferencesHold(base) && NoAdmin(base, r.w.tenantId) && AtMostAdminAdded(base, r.w.identity, r.w.tenantId)
    requires Tidy(base, r) && r.handler.DeactivateFirstAdmin? && handler(r.handler).ok
    ensures Tidy(base, Take(r, HandlerTurn, lifecycle, handler))
  {
    DeactivateRestores(base, r.w.identity, r.w.tenantId);
    hide Recorded, TokensGone, Deactivate;
    assert Next(r.w, r.handler, handler(r.handler), false) ==
           (r.w.(identity := base), DropSchema(r.handler.read, [Done] + [Done]));
    TokensStay(r.w, r.w.(identity := base));
    hide Next;
  }

  lemma RevokesTidily(base: Identity, r: Race, lifecycle: Oracle, handler: Oracle)
    requires Tidy(base, r) && r.handler.RevokeSetupTokens? && handler(r.handler).ok
    ensures Tidy(base, Take(r, HandlerTurn, lifecycle, handler))
  {
    hide Recorded;
    var w' := r.w.(tokens := Revoke(r.w.tokens, r.w.tenantId));
    assert Next(r.w, r.handler, handler(r.handler), false) == (w', DeactivateFirstAdmin(r.handler.read, [Done]));
    assert TokensGone(w');
    hide Next;
  }

  lemma TokensStay(w: World, w': World)
    requires w'.tokens == w.tokens && w'.tenantId == w.tenantId
    ensures TokensGone(w') == TokensGone(w)
  {
  }

  lemma HandlerKeepsTidy(base: Identity, r: Race, lifecycle: Oracle, handler: Oracle)
    requires ReferencesHold(base) && NoAdmin(base, r.w.tenantId) && AtMostAdminAdded(base, r.w.identity, r.w.tenantId)
    requires IsHandlerPoint(r.handler) && Compensates(handler) && Tidy(base, r) && !Overlooks(r)
    ensures Tidy(base, Take(r, HandlerTurn, lifecycle, handler))
  {
    assert InHandler(r.handler) ==> handler(r.handler).ok;
    hide Compensates, AtMostAdminAdded, Deactivate, UpsertAll, Recorded;
    if r.handler.DeactivateFirstAdmin? {
      DeactivatesTidily(base, r, lifecycle, handler);
    } else if r.handler.DropSchema? {
      DropsTidily(base, r, lifecycle, handler);
    } else if r.handler.RevokeSetupTokens? {
      RevokesTidily(base, r, lifecycle, handler);
    }
  }

  // ----- a turn that spoils something ----------------------------------

  lemma LateTokenSpoils(base: Identity, r: Race, lifecycle: Oracle, handler: Oracle)
    requires CommitsTooLate(r, lifecycle(r.run)) && r.run.k == 4
    ensures Spoilt(base, Take(r, RunTurn, lifecycle, handler))
  {
    var r', i := Take(r, RunTurn, lifecycle, handler), lifecycle(r.run);
    assert i.hash in r'.w.tokens && r'.w.tokens[i.hash].tenantId == r'.w.tenantId && Live(r'.w.tokens[i.hash]);
    assert r'.run == RecordStep(4, true);
    hide Revoke;
  }

  lemma LateAdminSpoils(base: Identity, r: Race, lifecycle: Oracle, handler: Oracle)
    requires ReferencesHold(base) && NoAdmin(base, r.w.tenantId) && Tidy(base, r)
    requires CommitsTooLate(r, lifecycle(r.run)) && r.run.k == 3 && Unused(r.w.identity, lifecycle(r.run).ids)
    ensures Spoilt(base, Take(r, RunTurn, lifecycle, handler))
  {
    var r' := Take(r, RunTurn, lifecycle, handler);
    RestoredIsOwned(base, r.w.tenantId);
    AssignAddsAtMostAdmin(base, base, r.w.tenantId, r.w.adminEmail, lifecycle(r.run).ids);
    assert r'.run == RecordStep(3, true) && r'.w.identity != base;
    hide Assign, AtMostAdminAdded;
  }

  lemma LateSchemaSpoils(base: Identity, r: Race, lifecycle: Oracle, handler: Oracle)
    requires CommitsTooLate(r, lifecycle(r.run)) && r.run.k == 0
    ensures Spoilt(base, Take(r, RunTurn, lifecycle, handler))
  {
    var r' := Take(r, RunTurn, lifecycle, handler);
    assert r'.run == RecordStep(0, true) && r'.w.schema;
  }

  lemma OverlookingSpoils(base: Identity, r: Race, lifecycle: Oracle, handler: Oracle)
    requires Racing(base, r) && Overlooks(r) && Compensates(handler)
    ensures Spoilt(base, Take(r, HandlerTurn, lifecycle, handler))
  {
    assert handler(r.handler).ok;
    var r' := Take(r, HandlerTurn, lifecycle, handler);
    hide Compensates, Recorded, DistinctSteps, AtMostAdminAdded;
    if r.handler.FindTenant? {
      assert r'.handler == ReadAudit(Failed, []) && r'.w == r.w;
    } else {
      assert r'.handler == RevokeSetupTokens(r.w.attempt.outcomes) && r'.w == r.w;
    }
  }

  lemma SpoilingTurn(base: Identity, r: Race, turn: Turn, lifecycle: Oracle, handler: Oracle)
    requires ReferencesHold(base) && NoAdmin(base, r.w.tenantId) && Racing(base, r) && Tidy(base, r) && Compensates(handler)
    requires turn.RunTurn? && r.run == DoStep(3) ==> Unused(r.w.identity, lifecycle(r.run).ids)
    requires Spoils(r, turn, lifecycle)
    ensures Spoilt(base, Take(r, turn, lifecycle, handler))
  {
    hide Spoilt, Tidy, Racing, Compensates, KeepsSchema;
    match turn
    case HandlerTurn => OverlookingSpoils(base, r, lifecycle, handler);
    case RunTurn =>
      if r.run.k == 0 {
        LateSchemaSpoils(base, r, lifecycle, handler);
      } else if r.run.k == 3 {
        LateAdminSpoils(base, r, lifecycle, handler);
      } else {
        LateTokenSpoils(base, r, lifecycle, handler);
      }
  }

  // ----- what is spoiled stays spoiled ---------------------------------

  /** A fenced lifecycle does nothing more. */
  lemma FencedStops(r: Race, lifecycle: Oracle, handler: Oracle)
    requires Fenced(r)
    ensures var r' := Take(r, RunTurn, lifecycle, handler); r'.w == r.w && r'.handler == r.handler && Fenced(r')
  {
  }

  /** While the attempt is terminal only its failure and its audit are written. */
  lemma TerminalWrites(w: World, pc: Pc, i: Input)
    requires Terminal(w.attempt.status) && DistinctSteps(w.attempt.outcomes)
    ensures Recorded(Next(w, pc, i, false).0.attempt.outcomes, SCHEMA_CREATED) <==> Recorded(w.attempt.outcomes, SCHEMA_CREATED)
  {
    if pc.DoStep? && StepEffect(w, pc.k, i).Some? {
      StepEffectTouchesResources(w, pc.k, i);
    }
    hide Recorded, DistinctSteps, UpsertAll, StepEffect;
    if pc.RecordCreationFailure? || pc.RecordAudit? || pc.TimeoutStart? {
      NextWrites(w, pc, i, false);
      OtherWritesKeepRecord(w.attempt.outcomes, Writes(pc, i));
    } else {
      assert Next(w, pc, i, false).0.attempt.outcomes == w.attempt.outcomes;
    }
  }

  lemma SchemaStays(w: World, pc: Pc, i: Input)
    requires w.schema && (pc.DropSchema? ==> !Recorded(pc.read, SCHEMA_CREATED))
    ensures Next(w, pc, i, false).0.schema
  {
    hide Recorded, UpsertAll, Assign, Generate;
  }

  lemma RunKeepsUnrecorded(r: Race, lifecycle: Oracle, handler: Oracle)
    requires Unrecorded(r) && r.w.schema
    ensures var r' := Take(r, RunTurn, lifecycle, handler); Unrecorded(r') && r'.w.schema
  {
    var i := lifecycle(r.run);
    TurnIsNext(r, lifecycle, handler);
    hide Take, Recorded, DistinctSteps;
    if r.underWay || Unchecked(r.run) {
      SchemaStays(r.w, r.run, i);
      NextKeepsDistinct(r.w, r.run, i);
      NextKeepsRead(r.w, r.run, i);
      if Terminal(r.w.attempt.status) {
        NextKeepsFence(r.w, r.run, i);
        TerminalWrites(r.w, r.run, i);
      } else {
        assert Next(r.w, r.run, i, false) == (r.w, r.run);
      }
      hide Next;
    }
  }

  lemma RunKeepsMissed(r: Race, lifecycle: Oracle, handler: Oracle)
    requires Missed(r)
    ensures Missed(Take(r, RunTurn, lifecycle, handler))
  {
    var i := lifecycle(r.run);
    TurnIsNext(r, lifecycle, handler);
    StaysInLifecycle(r.w, r.run, i);
    hide Take, Recorded, StepEffect, UpsertAll, Deactivate;
  }

  lemma RunKeepsSpoilt(base: Identity, r: Race, lifecycle: Oracle, handler: Oracle)
    requires Spoilt(base, r)
    ensures Spoilt(base, Take(r, RunTurn, lifecycle, handler))
  {
    TurnIsNext(r, lifecycle, handler);
    hide Take, KeepsSchema, TokensGone;
    if Missed(r) {
      RunKeepsMissed(r, lifecycle, handler);
    } else if Fenced(r) {
      FencedStops(r, lifecycle, handler);
    } else {
      RunKeepsUnrecorded(r, lifecycle, handler);
    }
    hide Missed, Fenced, Unrecorded;
  }

  /** From a stage on the handler leaves a resource alone. */
  lemma HandlerPassesBy(w: World, pc: Pc, i: Input)
    requires IsHandlerPoint(pc) && (InHandler(pc) ==> i.ok)
    ensures var (w', pc') := Next(w, pc, i, false);
            && w'.tenantId == w.tenantId && Stage(pc) <= Stage(pc')
            && (Stage(pc) > 3 ==> w'.tokens == w.tokens)
            && (Stage(pc) > 4 ==> w'.identity == w.identity)
            && (KeepsSchema(pc) ==> w'.schema == w.schema && KeepsSchema(pc'))
            && (Stage(pc) == 7 ==> w'.tenant == w.tenant)
  {
    hide Recorded, UpsertAll, Deactivate, Revoke;
  }

  lemma HandlerKeepsSpoilt(base: Identity, r: Race, lifecycle: Oracle, handler: Oracle)
    requires Spoilt(base, r) && IsHandlerPoint(r.handler) && Compensates(handler)
    requires DistinctSteps(r.w.attempt.outcomes)
    ensures Spoilt(base, Take(r, HandlerTurn, lifecycle, handler))
  {
    var i := handler(r.handler);
    assert InHandler(r.handler) ==> i.ok;
    HandlerPassesBy(r.w, r.handler, i);
    HandlerPointNext(r.w, r.handler, i);
    HandlerKeepsRecord(r.w, r.handler, i);
    NextKeepsDistinct(r.w, r.handler, i);
    hide Next, Compensates, Recorded, DistinctSteps, KeepsSchema;
    if Stage(r.handler) > 3 {
      TokensStay(r.w, Take(r, HandlerTurn, lifecycle, handler).w);
    }
    hide TokensGone;
  }

  // ----- the theorem ---------------------------------------------------

  lemma {:induction false} SpoiltForGood(base: Identity, r: Race, turns: seq<Turn>, lifecycle: Oracle, handler: Oracle)
    requires ReferencesHold(base) && NoAdmin(base, r.w.tenantId) && Racing(base, r)
    requires IsHandlerPoint(r.handler) && Compensates(handler) && FreshIds(r, turns, lifecycle, handler)
    requires Spoilt(base, r)
    ensures Spoilt(base, TakeAll(r, turns, lifecycle, handler))
    decreases |turns|
  {
    assert DistinctSteps(r.w.attempt.outcomes);
    hide Take, Racing, Spoilt, Compensates;
    if turns != [] {
      if turns[0].RunTurn? {
        TurnIsNext(r, lifecycle, handler);
        RunKeepsRacing(base, r, lifecycle, handler);
        RunKeepsSpoilt(base, r, lifecycle, handler);
      } else {
        HandlerKeepsRacing(base, r, lifecycle, handler);
        HandlerKeepsSpoilt(base, r, lifecycle, handler);
      }
      SpoiltForGood(base, Take(r, turns[0], lifecycle, handler), turns[1..], lifecycle, handler);
    }
  }

  lemma {:induction false} TidyUnlessSpoiled(base: Identity, r: Race, turns: seq<Turn>, lifecycle: Oracle, handler: Oracle)
    requires ReferencesHold(base) && NoAdmin(base, r.w.tenantId) && Racing(base, r)
    requires IsHandlerPoint(r.handler) && Compensates(handler) && FreshIds(r, turns, lifecycle, handler)
    requires Tidy(base, r)
    ensures var end := TakeAll(r, turns, lifecycle, handler);
            if EverSpoils(r, turns, lifecycle, handler) then Spoilt(base, end) else Tidy(base, end)
    decreases |turns|
  {
    assert AtMostAdminAdded(base, r.w.identity, r.w.tenantId);
    hide Take, Racing, Spoilt, Tidy, Compensates, CommitsTooLate, Overlooks;
    if turns != [] {
      var r' := Take(r, turns[0], lifecycle, handler);
      if turns[0].RunTurn? {
        TurnIsNext(r, lifecycle, handler);
        RunKeepsRacing(base, r, lifecycle, handler);
      } else {
        HandlerKeepsRacing(base, r, lifecycle, handler);
      }
      if Spoils(r, turns[0], lifecycle) {
        SpoilingTurn(base, r, turns[0], lifecycle, handler);
        SpoiltForGood(base, r', turns[1..], lifecycle, handler);
      } else {
        if turns[0].RunTurn? {
          RunKeepsTidy(base, r, lifecycle, handler);
        } else {
          HandlerKeepsTidy(base, r, lifecycle, handler);
        }
        TidyUnlessSpoiled(base, r', turns[1..], lifecycle, handler);
      }
    }
  }

  /**
   * A timed-out run, its lifecycle and its handler interleaved in any way, the
   * action that was under way committing at any time: once the handler is over,
   * everything is clean if and only if no action committed after the
   * compensation of what it makes, and the handler did not look for the tenant
   * before it was inserted or read a list that does not tell of the schema.
   */
  lemma TimedOutRunEndsCleanIff(base: Identity, r: Race, turns: seq<Turn>, lifecycle: Oracle, handler: Oracle)
    requires ReferencesHold(base) && NoAdmin(base, r.w.tenantId) && Owned(base, r.w, r.run)
    requires r.handler == TimeoutStart && !r.run.TimeoutStart? && !r.run.FindTenant?
    requires Compensates(handler) && FreshIds(r, turns, lifecycle, handler)
    requires TakeAll(r, turns, lifecycle, handler).handler.Finished?
    ensures Clean(base, TakeAll(r, turns, lifecycle, handler).w) <==> !EverSpoils(r, turns, lifecycle, handler)
  {
    assert Racing(base, r) && Tidy(base, r);
    hide Racing, Owned, Compensates, FreshIds, EverSpoils, TakeAll;
    TidyUnlessSpoiled(base, r, turns, lifecycle, handler);
    hide Unrecorded, Fenced, Recorded;
  }

  /** The same after any job runs, for a lifecycle whose timer fires after `n` of its actions. */
  lemma TimedOutJobEndsCleanIff(base: Identity, w: World, jobs: seq<JobRun>, lifecycle: Oracle, n: nat, underWay: bool,
                                turns: seq<Turn>, handler: Oracle)
    requires ReferencesHold(base) && NoAdmin(base, w.tenantId) && Owned(base, w, Begin) && OrderlyJobs(w, jobs)
    requires Orderly(WorkAll(w, jobs), Begin, lifecycle, n, false) && Compensates(handler)
    requires var (w1, pc1) := RunSteps(WorkAll(w, jobs), Begin, lifecycle, n, false);
             var r := Race(w1, pc1, underWay, TimeoutStart);
             FreshIds(r, turns, lifecycle, handler) && TakeAll(r, turns, lifecycle, handler).handler.Finished?
    ensures var (w1, pc1) := RunSteps(WorkAll(w, jobs), Begin, lifecycle, n, false);
            var r := Race(w1, pc1, underWay, TimeoutStart);
            Clean(base, TakeAll(r, turns, lifecycle, handler).w) <==> !EverSpoils(r, turns, lifecycle, handler)
  {
    var before := WorkAll(w, jobs);
    var (w1, pc1) := RunSteps(before, Begin, lifecycle, n, false);
    hide Owned, OrderlyJobs, Orderly, Compensates, FreshIds, EverSpoils, TakeAll, Clean;
    JobsKeepRecoverable(base, w, jobs);
    StepsKeepOwned(base, before, Begin, lifecycle, n, false);
    StepsStayInLifecycle(before, Begin, lifecycle, n);
    hide RunSteps, WorkAll;
    TimedOutRunEndsCleanIff(base, Race(w1, pc1, underWay, TimeoutStart), turns, lifecycle, handler);
  }

  lemma {:induction false} StepsStayInLifecycle(w: World, pc: Pc, oracle: Oracle, n: nat)
    requires !pc.TimeoutStart? && !pc.FindTenant?
    ensures var pc' := RunSteps(w, pc, oracle, n, false).1; !pc'.TimeoutStart? && !pc'.FindTenant?
    decreases n
  {
    hide Next;
    if n != 0 && !pc.Finished? {
      StaysInLifecycle(w, pc, oracle(pc));
      StepsStayInLifecycle(Next(w, pc, oracle(pc), false).0, Next(w, pc, oracle(pc), false).1, oracle, n - 1);
    }
  }

  // ----- a run that is not clean ---------------------------------------

  lemma FirstTurn(r: Race, turn: Turn, rest: seq<Turn>, lifecycle: Oracle, handler: Oracle)
    ensures TakeAll(r, [turn] + rest, lifecycle, handler) == TakeAll(Take(r, turn, lifecycle, handler), rest, lifecycle, handler)
    ensures EverSpoils(r, [turn] + rest, lifecycle, handler) <==>
            Spoils(r, turn, lifecycle) || EverSpoils(Take(r, turn, lifecycle, handler), rest, lifecycle, handler)
  {
    hide Take, Spoils;
    assert ([turn] + rest)[0] == turn && ([turn] + rest)[1..] == rest;
  }

  /** The handler, from its start to where it has revoked the tokens, with nobody in between. */
  lemma HandlerRevokes(r: Race, rest: seq<Turn>, lifecycle: Oracle, handler: Oracle)
    requires r.handler == TimeoutStart && r.w.tenant.Some? && Compensates(handler)
    ensures var w1 := Write(r.w, Failed, PROVISIONING_START, FailedStep, handler(TimeoutStart).detail);
            var read := w1.attempt.outcomes;
            var w2 := w1.(tokens := Revoke(r.w.tokens, r.w.tenantId));
            var turns := [HandlerTurn] + ([HandlerTurn] + ([HandlerTurn] + ([HandlerTurn] + rest)));
            var r' := Race(w2, r.run, r.underWay, DeactivateFirstAdmin(read, [Done]));
            && TakeAll(r, turns, lifecycle, handler) == TakeAll(r', rest, lifecycle, handler)
            && (EverSpoils(r', rest, lifecycle, handler) ==> EverSpoils(r, turns, lifecycle, handler))
  {
    hide UpsertAll, Revoke, TakeAll, EverSpoils, Spoils;
    assert forall pc | InHandler(pc) :: handler(pc).ok;
    var w1 := Write(r.w, Failed, PROVISIONING_START, FailedStep, handler(TimeoutStart).detail);
    var read := w1.attempt.outcomes;
    var r1, r2 := r.(w := w1, handler := FindTenant), r.(w := w1, handler := ReadOutcomes);
    var r3 := r2.(handler := RevokeSetupTokens(read));
    var r4 := Race(w1.(tokens := Revoke(r.w.tokens, r.w.tenantId)), r.run, r.underWay, DeactivateFirstAdmin(read, [Done]));
    assert Take(r, HandlerTurn, lifecycle, handler) == r1;
    assert Take(r1, HandlerTurn, lifecycle, handler) == r2;
    assert Take(r2, HandlerTurn, lifecycle, handler) == r3;
    assert Take(r3, HandlerTurn, lifecycle, handler) == r4;
    hide Take;
    FirstTurn(r, HandlerTurn, [HandlerTurn] + ([HandlerTurn] + ([HandlerTurn] + rest)), lifecycle, handler);
    FirstTurn(r1, HandlerTurn, [HandlerTurn] + ([HandlerTurn] + rest), lifecycle, handler);
    FirstTurn(r2, HandlerTurn, [HandlerTurn] + rest, lifecycle, handler);
    FirstTurn(r3, HandlerTurn, rest, lifecycle, handler);
  }

  /** The setup link that was being made when the timer fired is committed after the handler has revoked the others: it stays live. */
  lemma LateLinkSurvives(r: Race, rest: seq<Turn>, lifecycle: Oracle, handler: Oracle)
    requires r.w.tenant.Some? && Compensates(handler)
    requires r.handler == TimeoutStart && r.run == DoStep(4) && r.underWay && lifecycle(DoStep(4)).ok
    requires FirstUser(r.w.identity.users, r.w.tenantId) < |r.w.identity.users|
    ensures var turns := [HandlerTurn] + ([HandlerTurn] + ([HandlerTurn] + ([HandlerTurn] + ([RunTurn] + rest))));
            EverSpoils(r, turns, lifecycle, handler)
  {
    hide Compensates, EverSpoils, TakeAll, UpsertAll, Revoke, Take;
    HandlerRevokes(r, [RunTurn] + rest, lifecycle, handler);
    var w1 := Write(r.w, Failed, PROVISIONING_START, FailedStep, handler(TimeoutStart).detail);
    var w2 := w1.(tokens := Revoke(r.w.tokens, r.w.tenantId));
    var r' := Race(w2, r.run, r.underWay, DeactivateFirstAdmin(w1.attempt.outcomes, [Done]));
    FirstTurn(r', RunTurn, rest, lifecycle, handler);
    assert CommitsTooLate(r', lifecycle(r'.run));
  }
}
