/**
 * The outcome list of an onboarding attempt: an insertion-ordered map kept as
 * an array, and the status guard of the transaction that writes it.
 */
module StepOutcomes {
  import opened Wrappers

  datatype StepName =
    | PERMISSION_CHECK | PAYLOAD_VALIDATION | SLUG_AVAILABILITY | ATTEMPT_RESERVATION
    | PROVISIONING_START | TENANT_CREATION
    | SCHEMA_CREATED | BOOTSTRAP_MIGRATED | BOOTSTRAP_SEEDED | FIRST_ADMIN_ASSIGNED | SETUP_LINK_GENERATED
    | SETUP_EMAIL_SENT | ACTIVATION | AUDIT_FINALIZED

  datatype OutcomeStatus = RunningStep | SucceededStep | FailedStep

  datatype Outcome = Outcome(step: StepName, status: OutcomeStatus, detail: string)

  datatype AttemptStatus = Accepted | Provisioning | Failed | Succeeded | NeedsManualCleanup

  datatype Attempt = Attempt(status: AttemptStatus, outcomes: seq<Outcome>)

  predicate Terminal(s: AttemptStatus) {
    s == Failed || s == Succeeded || s == NeedsManualCleanup
  }

  /** Position of the first outcome of `step`, or the length. */
  function IndexOf(list: seq<Outcome>, step: StepName): (i: nat)
    ensures i <= |list|
    ensures i < |list| ==> list[i].step == step
    ensures forall j | 0 <= j < i :: list[j].step != step
  {
    if list == [] then 0
    else if list[0].step == step then 0
    else 1 + IndexOf(list[1..], step)
  }

  /** `upsertStepOutcome`: replace in place, or append. */
  function Upsert(list: seq<Outcome>, outcome: Outcome): seq<Outcome> {
    var i := IndexOf(list, outcome.step);
    if i == |list| then list + [outcome] else list[i := outcome]
  }

  function UpsertAll(list: seq<Outcome>, outcomes: seq<Outcome>): seq<Outcome> {
    if outcomes == [] then list
    else Upsert(UpsertAll(list, outcomes[..|outcomes| - 1]), outcomes[|outcomes| - 1])
  }

  /** `updateAttemptSteps`: a terminal attempt ignores a write that would reopen it. */
  function UpdateSteps(a: Attempt, status: AttemptStatus, outcomes: seq<Outcome>): Attempt {
    if Terminal(a.status) && !Terminal(status) then a
    else Attempt(status, UpsertAll(a.outcomes, outcomes))
  }

  predicate Recorded(list: seq<Outcome>, step: StepName) {
    exists o | o in list :: o.step == step && o.status == SucceededStep
  }

  // ----- the reference: an insertion-ordered map -----------------------

  /** Steps of a write log in order of first appearance. */
  function FirstAppearances(log: seq<Outcome>): seq<StepName> {
    if log == [] then []
    else
      var before := FirstAppearances(log[..|log| - 1]);
      var step := log[|log| - 1].step;
      if step in before then before else before + [step]
  }

  /** The most recent write of a step. */
  function Latest(log: seq<Outcome>, step: StepName): Option<Outcome> {
    if log == [] then None
    else if log[|log| - 1].step == step then Some(log[|log| - 1])
    else Latest(log[..|log| - 1], step)
  }

  ghost predicate DistinctSteps(list: seq<Outcome>) {
    forall i, j | 0 <= i < j < |list| :: list[i].step != list[j].step
  }

  /** `list` holds the latest outcome of every logged step, in first-appearance order, and nothing else. */
  ghost predicate RefinesLog(list: seq<Outcome>, log: seq<Outcome>) {
    && |list| == |FirstAppearances(log)|
    && DistinctSteps(list)
    && forall i | 0 <= i < |list| ::
         list[i].step == FirstAppearances(log)[i] && Latest(log, list[i].step) == Some(list[i])
  }

  lemma UpsertKeepsDistinct(list: seq<Outcome>, outcome: Outcome)
    requires DistinctSteps(list)
    ensures DistinctSteps(Upsert(list, outcome))
  {
  }

  lemma {:induction false} UpsertAllKeepsDistinct(list: seq<Outcome>, outcomes: seq<Outcome>)
    requires DistinctSteps(list)
    ensures DistinctSteps(UpsertAll(list, outcomes))
  {
    if outcomes != [] {
      UpsertAllKeepsDistinct(list, outcomes[..|outcomes| - 1]);
      UpsertKeepsDistinct(UpsertAll(list, outcomes[..|outcomes| - 1]), outcomes[|outcomes| - 1]);
    }
  }

  /** One write to a list that refines a log refines the log extended by it. */
  lemma UpsertRefines(list: seq<Outcome>, log: seq<Outcome>, outcome: Outcome)
    requires RefinesLog(list, log)
    ensures RefinesLog(Upsert(list, outcome), log + [outcome])
  {
    var log' := log + [outcome];
    assert log'[..|log|] == log;
    var list' := Upsert(list, outcome);
    var i := IndexOf(list, outcome.step);
    if i < |list| {
      assert FirstAppearances(log)[i] == outcome.step;
    } else {
      forall j | 0 <= j < |list|
        ensures FirstAppearances(log)[j] != outcome.step
      {
        assert list[j].step != outcome.step;
      }
    }
  }

  /** The stored list refines the map built from every write that was accepted. */
  lemma {:induction false} UpsertAllRefinesLog(outcomes: seq<Outcome>)
    ensures RefinesLog(UpsertAll([], outcomes), outcomes)
  {
    if outcomes != [] {
      var n := |outcomes| - 1;
      UpsertAllRefinesLog(outcomes[..n]);
      UpsertRefines(UpsertAll([], outcomes[..n]), outcomes[..n], outcomes[n]);
      assert outcomes[..n] + [outcomes[n]] == outcomes;
    }
  }

  lemma RecordedAfterUpsert(list: seq<Outcome>, outcome: Outcome, step: StepName)
    requires DistinctSteps(list)
    ensures Recorded(Upsert(list, outcome), step) <==>
            if outcome.step == step then outcome.status == SucceededStep else Recorded(list, step)
  {
    var i := IndexOf(list, outcome.step);
    var list' := Upsert(list, outcome);
    assert list'[i] == outcome;
    forall o | o in list && o.step == step && step != outcome.step
      ensures o in list'
    {
      var j :| 0 <= j < |list| && list[j] == o;
      assert list'[j] == o;
    }
    forall o | o in list' && o.step == step && step != outcome.step
      ensures o in list
    {
      var j :| 0 <= j < |list'| && list'[j] == o;
      assert list[j] == o;
    }
    forall o | o in list' && o.step == outcome.step
      ensures o == outcome
    {
      var j :| 0 <= j < |list'| && list'[j] == o;
      assert j == i;
    }
  }
}
