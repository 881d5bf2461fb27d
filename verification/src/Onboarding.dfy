/**
 * Idempotent intake of tenant onboarding: concurrent requests for one key,
 * unique-violation losers, and enqueue failures that a client retry repairs.
 */
module Onboarding {
  import opened Wrappers
  import opened StepOutcomes

  type Id = nat

  /** The normalised payload; requests with the same key must agree on all four fields. */
  datatype Payload = Payload(tenantName: string, tenantSlug: string, firstAdminEmail: string, plan: string)

  /** `tenant-provisioning-<attempt id>`. */
  datatype JobId = JobForAttempt(attempt: Id)

  datatype Row = Row(key: string, payload: Payload, status: AttemptStatus, job: Option<JobId>)

  datatype Request = Request(key: string, payload: Payload, valid: bool, actorActive: bool)

  datatype Response =
    | Accepted(id: Id, replayed: bool)
    | Invalid | Forbidden
    | IdempotencyConflict(existing: Id)
    | SlugAlreadyInUse
    | ReservationPending
    | EnqueueFailed
    | DatabaseError

  const VISIBILITY_READS := 3

  datatype Flight =
    | Finding(r: Request)
    | CheckingSlug(r: Request)
    | Inserting(r: Request)
    | Rereading(r: Request, tries: nat)
    | Linking(r: Request, id: Id, replayed: bool)
    | Adding(r: Request, id: Id, replayed: bool)
    | Answered(r: Request, response: Response)

  /** `queued` are the attempts whose job was ever added to the provisioning queue. */
  datatype State = State(attempts: map<Id, Row>, slugs: set<string>, queued: set<JobId>, flights: map<nat, Flight>)

  /** Whether the call works, whether a concurrent insert is visible yet, and a generated id. */
  datatype Input = Input(ok: bool, visible: bool, newId: Id)

  datatype Event =
    | Arrive(flight: nat, r: Request)
    | Advance(flight: nat, input: Input)
    | TenantCreated(slug: string)
    /** The provisioning worker moves an attempt on; it only runs queued jobs. */
    | Progress(id: Id, status: AttemptStatus)

  predicate HasKey(attempts: map<Id, Row>, key: string, id: Id) {
    id in attempts && attempts[id].key == key
  }

  ghost predicate KeyUsed(attempts: map<Id, Row>, key: string) {
    exists id :: HasKey(attempts, key, id)
  }

  ghost function RowFor(attempts: map<Id, Row>, key: string): (id: Id)
    requires KeyUsed(attempts, key)
    ensures HasKey(attempts, key, id)
  {
    var id :| HasKey(attempts, key, id);
    id
  }

  /** `resolveExistingAttempt` on the row that was read. */
  function Resolve(r: Request, id: Id, row: Row): Flight {
    if row.payload != r.payload then Answered(r, IdempotencyConflict(id))
    else if row.status == AttemptStatus.Accepted then Linking(r, id, true)
    else Answered(r, Response.Accepted(id, true))
  }

  function Put(s: State, f: nat, flight: Flight): State {
    s.(flights := s.flights[f := flight])
  }

  /** The next database or queue action of a request. */
  ghost function Step(s: State, f: nat, i: Input): State
    requires f in s.flights
  {
    var flight := s.flights[f];
    var r := flight.r;
    match flight
    case Finding(_) =>
      Put(s, f, if !i.ok then Answered(r, DatabaseError)
                else if KeyUsed(s.attempts, r.key)
                then Resolve(r, RowFor(s.attempts, r.key), s.attempts[RowFor(s.attempts, r.key)])
                else CheckingSlug(r))
    case CheckingSlug(_) =>
      Put(s, f, if !i.ok then Answered(r, DatabaseError)
                else if r.payload.tenantSlug in s.slugs then Answered(r, SlugAlreadyInUse)
                else Inserting(r))
    case Inserting(_) =>
      if !i.ok then Put(s, f, Answered(r, DatabaseError))
      else if KeyUsed(s.attempts, r.key) || i.newId in s.attempts then Put(s, f, Rereading(r, 0))
      else Put(s.(attempts := s.attempts[i.newId := Row(r.key, r.payload, AttemptStatus.Accepted, None)]), f, Linking(r, i.newId, false))
    case Rereading(_, tries) =>
      Put(s, f, if !i.ok then Answered(r, DatabaseError)
                else if i.visible && KeyUsed(s.attempts, r.key)
                then Resolve(r, RowFor(s.attempts, r.key), s.attempts[RowFor(s.attempts, r.key)])
                else if tries + 1 < VISIBILITY_READS then Rereading(r, tries + 1)
                else Answered(r, ReservationPending))
    case Linking(_, id, replayed) =>
      if !i.ok || id !in s.attempts || !Linkable(s.attempts[id], id) then Put(s, f, Answered(r, EnqueueFailed))
      else Put(s.(attempts := s.attempts[id := s.attempts[id].(job := Some(JobForAttempt(id)))]), f, Adding(r, id, replayed))
    case Adding(_, id, replayed) =>
      if !i.ok then Put(s, f, Answered(r, EnqueueFailed))
      else Put(s.(queued := s.queued + {JobForAttempt(id)}), f, Answered(r, Response.Accepted(id, replayed)))
    case Answered(_, _) => s
  }

  predicate Linkable(row: Row, id: Id) {
    row.job == None || row.job == Some(JobForAttempt(id))
  }

  /** Events that are not possible leave the state as it is. */
  ghost function Fire(s: State, e: Event): State {
    match e
    case Arrive(f, r) =>
      if f in s.flights then s
      else Put(s, f, if !r.valid then Answered(r, Invalid) else if !r.actorActive then Answered(r, Forbidden) else Finding(r))
    case Advance(f, input) => if f in s.flights then Step(s, f, input) else s
    case TenantCreated(slug) => s.(slugs := s.slugs + {slug})
    case Progress(id, status) =>
      if id in s.attempts && JobForAttempt(id) in s.queued
      then s.(attempts := s.attempts[id := s.attempts[id].(status := status)]) else s
  }

  ghost function FireAll(s: State, es: seq<Event>): State
    decreases |es|
  {
    if es == [] then s else FireAll(Fire(s, es[0]), es[1..])
  }

  // ----- invariants ----------------------------------------------------

  ghost predicate OneAttemptPerKey(attempts: map<Id, Row>) {
    forall a, b | a in attempts && b in attempts && attempts[a].key == attempts[b].key :: a == b
  }

  /** An attempt has at most one job, its own, and moves on only when that job was queued. */
  ghost predicate JobsBelong(s: State) {
    && (forall id | id in s.attempts :: Linkable(s.attempts[id], id))
    && (forall id | id in s.attempts && s.attempts[id].status != AttemptStatus.Accepted :: JobForAttempt(id) in s.queued)
    && (forall j | j in s.queued :: j.attempt in s.attempts && s.attempts[j.attempt].job == Some(j))
  }

  /** What a request works on, or was told, is an attempt with its own key and payload. */
  predicate Names(attempts: map<Id, Row>, r: Request, id: Id) {
    id in attempts && attempts[id].key == r.key && attempts[id].payload == r.payload
  }

  ghost predicate FlightHolds(s: State, flight: Flight) {
    match flight
    case Linking(r, id, _) => Names(s.attempts, r, id)
    case Adding(r, id, _) => Names(s.attempts, r, id) && s.attempts[id].job == Some(JobForAttempt(id))
    case Answered(r, Accepted(id, _)) => Names(s.attempts, r, id) && JobForAttempt(id) in s.queued
    case _ => true
  }

  ghost predicate Inv(s: State) {
    && OneAttemptPerKey(s.attempts) && JobsBelong(s)
    && forall f | f in s.flights :: FlightHolds(s, s.flights[f])
  }

  /** Attempts keep key and payload, get at most their own job, and nothing leaves the queue history. */
  ghost predicate Grows(s: State, s': State) {
    && s.queued <= s'.queued
    && forall id | id in s.attempts :: id in s'.attempts
         && s'.attempts[id].key == s.attempts[id].key && s'.attempts[id].payload == s.attempts[id].payload
         && (s.attempts[id].job.Some? ==> s'.attempts[id].job == s.attempts[id].job)
  }

  lemma GrowthKeepsFlight(s: State, s': State, flight: Flight)
    requires Grows(s, s') && FlightHolds(s, flight)
    ensures FlightHolds(s', flight)
  {
  }

  lemma InsertKeepsRows(s: State, r: Request, id: Id)
    requires OneAttemptPerKey(s.attempts) && JobsBelong(s) && !KeyUsed(s.attempts, r.key) && id !in s.attempts
    ensures var s' := s.(attempts := s.attempts[id := Row(r.key, r.payload, AttemptStatus.Accepted, None)]);
            OneAttemptPerKey(s'.attempts) && JobsBelong(s') && Grows(s, s')
  {
    forall a | a in s.attempts
      ensures s.attempts[a].key != r.key
    {
      assert !HasKey(s.attempts, r.key, a);
    }
  }

  lemma StepKeepsRows(s: State, f: nat, i: Input)
    requires Inv(s) && f in s.flights
    ensures var s' := Step(s, f, i); OneAttemptPerKey(s'.attempts) && JobsBelong(s') && Grows(s, s')
  {
    assert FlightHolds(s, s.flights[f]);
    match s.flights[f]
    case Inserting(r) =>
      if i.ok && !KeyUsed(s.attempts, r.key) && i.newId !in s.attempts {
        InsertKeepsRows(s, r, i.newId);
      }
      hide OneAttemptPerKey, JobsBelong, FlightHolds, KeyUsed;
    case Linking(_, id, _) =>
      hide OneAttemptPerKey, FlightHolds;
      if id in s.attempts {
        LinkKeepsRows(s, id);
      }
      hide JobsBelong;
    case _ =>
      hide OneAttemptPerKey;
  }

  lemma LinkKeepsRows(s: State, id: Id)
    requires OneAttemptPerKey(s.attempts) && JobsBelong(s) && id in s.attempts && Linkable(s.attempts[id], id)
    ensures var s' := s.(attempts := s.attempts[id := s.attempts[id].(job := Some(JobForAttempt(id)))]);
            OneAttemptPerKey(s'.attempts) && JobsBelong(s') && Grows(s, s')
  {
  }

  lemma StepKeepsItsFlight(s: State, f: nat, i: Input)
    requires Inv(s) && f in s.flights
    ensures FlightHolds(Step(s, f, i), Step(s, f, i).flights[f])
  {
    assert FlightHolds(s, s.flights[f]);
    hide OneAttemptPerKey;
  }

  lemma ProgressKeepsInv(s: State, id: Id, status: AttemptStatus)
    requires Inv(s) && id in s.attempts && JobForAttempt(id) in s.queued
    ensures Inv(s.(attempts := s.attempts[id := s.attempts[id].(status := status)]))
  {
    var s' := s.(attempts := s.attempts[id := s.attempts[id].(status := status)]);
    forall f | f in s.flights
      ensures FlightHolds(s', s.flights[f])
    {
      GrowthKeepsFlight(s, s', s.flights[f]);
    }
    hide FlightHolds;
  }

  lemma StepKeepsInv(s: State, f: nat, i: Input)
    requires Inv(s) && f in s.flights
    ensures Inv(Step(s, f, i))
  {
    var s' := Step(s, f, i);
    StepKeepsRows(s, f, i);
    StepKeepsItsFlight(s, f, i);
    OnlyItsFlight(s, f, i);
    hide Step, OneAttemptPerKey, JobsBelong, FlightHolds, Grows;
    forall g | g in s.flights
      ensures FlightHolds(s', s.flights[g])
    {
      GrowthKeepsFlight(s, s', s.flights[g]);
    }
  }

  lemma FireKeepsInv(s: State, e: Event)
    requires Inv(s)
    ensures Inv(Fire(s, e))
  {
    match e
    case Arrive(f, r) =>
    case Advance(f, input) =>
      if f in s.flights {
        StepKeepsInv(s, f, input);
      }
      hide Inv;
    case TenantCreated(slug) =>
    case Progress(id, status) =>
      if id in s.attempts && JobForAttempt(id) in s.queued {
        ProgressKeepsInv(s, id, status);
      }
      hide Inv;
  }

  lemma OnlyItsFlight(s: State, f: nat, i: Input)
    requires f in s.flights
    ensures Step(s, f, i).flights.Keys == s.flights.Keys
    ensures forall g | g in s.flights && g != f :: Step(s, f, i).flights[g] == s.flights[g]
  {
  }

  lemma {:induction false} RunsKeepInv(s: State, es: seq<Event>)
    requires Inv(s)
    ensures Inv(FireAll(s, es))
    decreases |es|
  {
    hide Inv, Fire;
    if es != [] {
      FireKeepsInv(s, es[0]);
      RunsKeepInv(Fire(s, es[0]), es[1..]);
    }
  }

  // ----- the theorem ---------------------------------------------------

  predicate Successful(s: State, f: nat) {
    f in s.flights && s.flights[f].Answered? && s.flights[f].response.Accepted?
  }

  /**
   * Over every interleaving of requests, losers of the unique key, enqueue
   * failures and retries: a key has at most one attempt and the attempt one
   * job; all successful responses for a key name the same attempt, its payload
   * is the caller's, and its job was queued.
   */
  lemma IntakeIsIdempotent(s: State, es: seq<Event>)
    requires Inv(s)
    ensures var s' := FireAll(s, es);
            && OneAttemptPerKey(s'.attempts)
            && (forall id | id in s'.attempts && s'.attempts[id].job.Some? :: s'.attempts[id].job == Some(JobForAttempt(id)))
            && (forall f | Successful(s', f) ::
                  Names(s'.attempts, s'.flights[f].r, s'.flights[f].response.id)
                  && JobForAttempt(s'.flights[f].response.id) in s'.queued)
            && (forall f, g | Successful(s', f) && Successful(s', g) && s'.flights[f].r.key == s'.flights[g].r.key ::
                  s'.flights[f].response.id == s'.flights[g].response.id && s'.flights[f].r.payload == s'.flights[g].r.payload)
  {
    RunsKeepInv(s, es);
    var s' := FireAll(s, es);
    forall f | Successful(s', f)
      ensures Names(s'.attempts, s'.flights[f].r, s'.flights[f].response.id)
      ensures JobForAttempt(s'.flights[f].response.id) in s'.queued
    {
      assert FlightHolds(s', s'.flights[f]);
    }
  }

  // ----- what attempts and answers go back to ---------------------------

  /** An answer says what is the case; whatever is still under way was valid and sent by an active actor. */
  ghost predicate Justified(s: State, flight: Flight) {
    match flight
    case Answered(r, Invalid) => !r.valid
    case Answered(r, Forbidden) => r.valid && !r.actorActive
    case Answered(r, SlugAlreadyInUse) => r.valid && r.actorActive && r.payload.tenantSlug in s.slugs
    case Answered(r, IdempotencyConflict(id)) =>
      r.valid && r.actorActive && id in s.attempts && s.attempts[id].key == r.key && s.attempts[id].payload != r.payload
    case _ => flight.r.valid && flight.r.actorActive
  }

  /** A valid request of an active actor, for a slug that was free when the run began, asked for this row. */
  ghost predicate AskedFor(past: seq<Event>, start: State, row: Row) {
    row.payload.tenantSlug !in start.slugs &&
    exists f, r :: Arrive(f, r) in past && r.valid && r.actorActive && r.key == row.key && r.payload == row.payload
  }

  ghost predicate Origins(past: seq<Event>, start: State, s: State) {
    FlightOrigins(past, start, s) && RowOrigins(past, start, s.attempts)
  }

  ghost predicate FlightOrigins(past: seq<Event>, start: State, s: State) {
    && start.slugs <= s.slugs
    && (forall f | f in s.flights :: Arrive(f, s.flights[f].r) in past && Justified(s, s.flights[f]))
    && (forall f | f in s.flights && s.flights[f].Inserting? :: s.flights[f].r.payload.tenantSlug !in start.slugs)
  }

  ghost predicate RowOrigins(past: seq<Event>, start: State, attempts: map<Id, Row>) {
    forall id | id in attempts && id !in start.attempts :: AskedFor(past, start, attempts[id])
  }

  /** The next action of a request keeps its answer justified. */
  lemma StepIsJustified(s: State, f: nat, i: Input)
    requires f in s.flights && Justified(s, s.flights[f])
    ensures var s' := Step(s, f, i);
            && s'.slugs == s.slugs && s'.flights[f].r == s.flights[f].r && Justified(s', s'.flights[f])
            && (s'.flights[f].Inserting? ==> s.flights[f].Inserting? || s.flights[f].r.payload.tenantSlug !in s.slugs)
  {
    hide Linkable;
  }

  /** It keeps the rows, and adds at most its own. */
  lemma StepAddsItsRow(s: State, f: nat, i: Input)
    requires f in s.flights
    ensures var s' := Step(s, f, i);
            && (forall id | id in s.attempts :: id in s'.attempts && s'.attempts[id].key == s.attempts[id].key
                                                && s'.attempts[id].payload == s.attempts[id].payload)
            && (forall id | id in s'.attempts && id !in s.attempts ::
                  s.flights[f].Inserting? && s'.attempts[id].key == s.flights[f].r.key
                  && s'.attempts[id].payload == s.flights[f].r.payload)
  {
    hide KeyUsed, Linkable, Resolve;
  }

  lemma OtherAnswersStayJustified(s: State, s': State, flight: Flight)
    requires Justified(s, flight) && s'.slugs == s.slugs
    requires forall id | id in s.attempts :: id in s'.attempts && s'.attempts[id].key == s.attempts[id].key
                                             && s'.attempts[id].payload == s.attempts[id].payload
    ensures Justified(s', flight)
  {
  }

  lemma StepKeepsFlightOrigins(past: seq<Event>, start: State, s: State, f: nat, i: Input)
    requires FlightOrigins(past, start, s) && f in s.flights
    ensures FlightOrigins(past, start, Step(s, f, i))
  {
    var s' := Step(s, f, i);
    assert Arrive(f, s.flights[f].r) in past && Justified(s, s.flights[f]);
    StepIsJustified(s, f, i);
    StepAddsItsRow(s, f, i);
    OnlyItsFlight(s, f, i);
    hide Step, Justified;
    forall g | g in s.flights && g != f
      ensures Justified(s', s.flights[g])
    {
      OtherAnswersStayJustified(s, s', s.flights[g]);
    }
  }

  lemma StepKeepsRowOrigins(past: seq<Event>, start: State, s: State, f: nat, i: Input)
    requires Origins(past, start, s) && f in s.flights
    ensures RowOrigins(past, start, Step(s, f, i).attempts)
  {
    var s' := Step(s, f, i);
    StepAddsItsRow(s, f, i);
    hide Step, AskedFor, FlightOrigins;
    forall id | id in s'.attempts && id !in start.attempts
      ensures AskedFor(past, start, s'.attempts[id])
    {
      if id in s.attempts {
        SameAskedFor(past, start, s.attempts[id], s'.attempts[id]);
      } else {
        InsertedIsAskedFor(past, start, s, f, s'.attempts[id]);
      }
    }
  }

  lemma InsertedIsAskedFor(past: seq<Event>, start: State, s: State, f: nat, row: Row)
    requires Origins(past, start, s) && f in s.flights && s.flights[f].Inserting?
    requires row.key == s.flights[f].r.key && row.payload == s.flights[f].r.payload
    ensures AskedFor(past, start, row)
  {
    assert Arrive(f, s.flights[f].r) in past && Justified(s, s.flights[f]);
  }

  lemma SameAskedFor(past: seq<Event>, start: State, row: Row, row': Row)
    requires AskedFor(past, start, row) && row'.key == row.key && row'.payload == row.payload
    ensures AskedFor(past, start, row')
  {
  }

  lemma LaterOrigins(past: seq<Event>, e: Event, start: State, s: State)
    requires Origins(past, start, s)
    ensures Origins(past + [e], start, s)
  {
    forall id | id in s.attempts && id !in start.attempts
      ensures AskedFor(past + [e], start, s.attempts[id])
    {
      var f, r :| Arrive(f, r) in past && r.valid && r.actorActive && r.key == s.attempts[id].key && r.payload == s.attempts[id].payload;
      assert Arrive(f, r) in past + [e];
    }
    hide AskedFor, Justified;
  }

  lemma FireKeepsOrigins(past: seq<Event>, start: State, s: State, e: Event)
    requires Origins(past, start, s)
    ensures Origins(past + [e], start, Fire(s, e))
  {
    LaterOrigins(past, e, start, s);
    assert e in past + [e];
    match e
    case Advance(f, input) =>
      if f in s.flights {
        StepKeepsFlightOrigins(past + [e], start, s, f, input);
        StepKeepsRowOrigins(past + [e], start, s, f, input);
      }
      hide FlightOrigins, RowOrigins, Step;
    case Progress(id, status) =>
      if id in s.attempts {
        SameAskedForAll(past + [e], start, s, id, status);
      }
      hide AskedFor;
    case _ =>
      hide AskedFor;
  }

  lemma SameAskedForAll(past: seq<Event>, start: State, s: State, id: Id, status: AttemptStatus)
    requires Origins(past, start, s) && id in s.attempts
    ensures id !in start.attempts ==> AskedFor(past, start, s.attempts[id].(status := status))
  {
    if id !in start.attempts {
      SameAskedFor(past, start, s.attempts[id], s.attempts[id].(status := status));
    }
  }

  lemma {:induction false} RunsKeepOrigins(past: seq<Event>, start: State, s: State, es: seq<Event>)
    requires Origins(past, start, s)
    ensures Origins(past + es, start, FireAll(s, es))
    decreases |es|
  {
    hide Fire, Origins;
    if es == [] {
      assert past + es == past;
    } else {
      FireKeepsOrigins(past, start, s, es[0]);
      RunsKeepOrigins(past + [es[0]], start, Fire(s, es[0]), es[1..]);
      assert past + [es[0]] + es[1..] == past + es;
    }
  }

  /**
   * Over every interleaving: each attempt that is new was asked for by a valid
   * request of an active actor with exactly its key and payload, whose slug was
   * free at the start; and each refusal says what is the case. An invalid
   * request, or one of an inactive actor, is told so and leaves nothing behind.
   */
  lemma AttemptsAreAskedFor(s: State, es: seq<Event>)
    requires s.flights == map[]
    ensures var s' := FireAll(s, es);
            && (forall id | id in s'.attempts && id !in s.attempts :: AskedFor(es, s, s'.attempts[id]))
            && (forall f | f in s'.flights :: Arrive(f, s'.flights[f].r) in es && Justified(s', s'.flights[f]))
  {
    assert [] + es == es;
    RunsKeepOrigins([], s, s, es);
  }

  // ----- one request on its own ----------------------------------------

  /** The tables and the answer of a request nothing interleaves with; `link` and `add` say whether the enqueue works. */
  ghost function Intake(s: State, r: Request, newId: Id, link: bool, add: bool): (State, Response) {
    if !r.valid then (s, Invalid)
    else if !r.actorActive then (s, Forbidden)
    else if KeyUsed(s.attempts, r.key) then
      Resolved(s, RowFor(s.attempts, r.key), r.payload, link, add)
    else if r.payload.tenantSlug in s.slugs then (s, SlugAlreadyInUse)
    else
      Enqueued(s.(attempts := s.attempts[newId := Row(r.key, r.payload, AttemptStatus.Accepted, None)]), newId, false, link, add)
  }

  /** The answer to a request whose key names attempt `id`. */
  function Resolved(s: State, id: Id, payload: Payload, link: bool, add: bool): (State, Response)
    requires id in s.attempts
  {
    if s.attempts[id].payload != payload then (s, IdempotencyConflict(id))
    else if s.attempts[id].status != AttemptStatus.Accepted then (s, Response.Accepted(id, true))
    else Enqueued(s, id, true, link, add)
  }

  function Enqueued(s: State, id: Id, replayed: bool, link: bool, add: bool): (State, Response)
    requires id in s.attempts
  {
    if !link || !Linkable(s.attempts[id], id) then (s, EnqueueFailed)
    else
      var linked := s.(attempts := s.attempts[id := s.attempts[id].(job := Some(JobForAttempt(id)))]);
      if !add then (linked, EnqueueFailed)
      else (linked.(queued := s.queued + {JobForAttempt(id)}), Response.Accepted(id, replayed))
  }

  /** The request reaches its insert. */
  ghost predicate Inserts(s: State, r: Request) {
    r.valid && r.actorActive && !KeyUsed(s.attempts, r.key) && r.payload.tenantSlug !in s.slugs
  }

  /** The row of a concurrent request that is committed just before this one's insert. */
  datatype Rival = Rival(id: Id, row: Row)

  function WithRival(s: State, rival: Rival): State {
    s.(attempts := s.attempts[rival.id := rival.row])
  }

  /** With a rival, a request that loses the unique key and then sees the winner answers as if it had come after it. */
  ghost function ContendedIntake(
    s: State, r: Request, newId: Id, rival: Option<Rival>, visible: seq<bool>, link: bool, add: bool): (State, Response)
  {
    if rival.None? || !Inserts(s, r) then Intake(s, r, newId, link, add)
    else if true in visible then Intake(WithRival(s, rival.value), r, newId, link, add)
    else (WithRival(s, rival.value), ReservationPending)
  }

  class TenantsService {
    var attempts: map<Id, Row>
    var slugs: set<string>
    var queued: set<JobId>

    constructor (s: State)
      ensures attempts == s.attempts && slugs == s.slugs && queued == s.queued
    {
      attempts, slugs, queued := s.attempts, s.slugs, s.queued;
    }

    ghost function Tables(): State
      reads this
    {
      State(attempts, slugs, queued, map[])
    }

    method FindByIdempotencyKey(key: string) returns (found: Option<Id>)
      ensures found.Some? <==> KeyUsed(attempts, key)
      ensures found.Some? ==> HasKey(attempts, key, found.value)
    {
      if id :| id in attempts && attempts[id].key == key {
        assert HasKey(attempts, key, id);
        return Some(id);
      }
      found := None;
    }

    /** Reads a bounded number of times; `visible` says which reads see the winner's row. */
    method FindWinningAttempt(key: string, visible: seq<bool>) returns (found: Option<Id>)
      requires |visible| == 3
      ensures found.Some? <==> KeyUsed(attempts, key) && true in visible
      ensures found.Some? ==> HasKey(attempts, key, found.value)
    {
      for i := 0 to VISIBILITY_READS
        invariant KeyUsed(attempts, key) ==> forall j | 0 <= j < i :: !visible[j]
      {
        if visible[i] {
          found := FindByIdempotencyKey(key);
          if found.Some? {
            return;
          }
        }
      }
      found := None;
    }

    method EnqueueAcceptedAttempt(id: Id, replayed: bool, link: bool, add: bool) returns (response: Response)
      requires id in attempts
      modifies this`attempts, this`queued
      ensures (Tables(), response) == Enqueued(old(Tables()), id, replayed, link, add)
    {
      if !link || !Linkable(attempts[id], id) {
        return EnqueueFailed;
      }
      attempts := attempts[id := attempts[id].(job := Some(JobForAttempt(id)))];
      if !add {
        return EnqueueFailed;
      }
      queued := queued + {JobForAttempt(id)};
      response := Response.Accepted(id, replayed);
    }

    method ResolveExistingAttempt(id: Id, payload: Payload, link: bool, add: bool) returns (response: Response)
      requires id in attempts
      modifies this`attempts, this`queued
      ensures (Tables(), response) == Resolved(old(Tables()), id, payload, link, add)
    {
      var row := attempts[id];
      if row.payload != payload {
        return IdempotencyConflict(id);
      }
      if row.status == AttemptStatus.Accepted {
        response := EnqueueAcceptedAttempt(id, true, link, add);
        return;
      }
      response := Response.Accepted(id, true);
    }

    /** `rival` commits, if it does, between this request's reads and its insert; `visible` is for the reads after that. */
    method CreateOnboardingAttempt(r: Request, newId: Id, rival: Option<Rival>, visible: seq<bool>, link: bool, add: bool)
      returns (response: Response)
      requires OneAttemptPerKey(attempts) && newId !in attempts && |visible| == 3
      requires rival.Some? ==> rival.value.id !in attempts && rival.value.row.key == r.key
      modifies this`attempts, this`queued
      ensures (Tables(), response) == ContendedIntake(old(Tables()), r, newId, rival, visible, link, add)
    {
      if !r.valid {
        return Invalid;
      }
      if !r.actorActive {
        return Forbidden;
      }
      var existing := FindByIdempotencyKey(r.key);
      if existing.Some? {
        response := ResolveExistingAttempt(existing.value, r.payload, link, add);
        return;
      }
      if r.payload.tenantSlug in slugs {
        return SlugAlreadyInUse;
      }
      if rival.Some? {
        attempts := attempts[rival.value.id := rival.value.row];
        OnlyRivalHasKey(old(Tables()), r.key, rival.value);
        assert HasKey(attempts, r.key, rival.value.id);
        var winner := FindWinningAttempt(r.key, visible);
        if winner.Some? {
          response := ResolveExistingAttempt(winner.value, r.payload, link, add);
          return;
        }
        return ReservationPending;
      }
      attempts := attempts[newId := Row(r.key, r.payload, AttemptStatus.Accepted, None)];
      response := EnqueueAcceptedAttempt(newId, false, link, add);
    }
  }

  lemma OnlyRivalHasKey(s: State, key: string, rival: Rival)
    requires !KeyUsed(s.attempts, key) && rival.id !in s.attempts && rival.row.key == key
    ensures forall id :: HasKey(WithRival(s, rival).attempts, key, id) <==> id == rival.id
  {
    forall id | HasKey(WithRival(s, rival).attempts, key, id) && id != rival.id
      ensures false
    {
      assert HasKey(s.attempts, key, id);
    }
  }

  /** An enqueue failure is repaired by sending the same request again: same attempt, now queued. */
  lemma RetryRepairsEnqueueFailure(s: State, r: Request, first: Id, link: bool, second: Id)
    requires OneAttemptPerKey(s.attempts) && JobsBelong(s) && first !in s.attempts
    requires Intake(s, r, first, link, false).1 == EnqueueFailed
    ensures var failed := Intake(s, r, first, link, false).0;
            var (repaired, response) := Intake(failed, r, second, true, true);
            && response.Accepted? && response.replayed
            && Names(failed.attempts, r, response.id)
            && JobForAttempt(response.id) in repaired.queued
            && repaired.attempts.Keys == failed.attempts.Keys
  {
    var failed := Intake(s, r, first, link, false).0;
    if KeyUsed(s.attempts, r.key) {
      var id := RowFor(s.attempts, r.key);
      assert HasKey(failed.attempts, r.key, id);
    } else {
      assert HasKey(failed.attempts, r.key, first);
      forall id | HasKey(failed.attempts, r.key, id)
        ensures id == first
      {
        assert !HasKey(s.attempts, r.key, id);
      }
    }
  }

  /** The answers of the environment while one request runs alone. */
  type Oracle = Flight -> Input

  ghost function Alone(s: State, f: nat, oracle: Oracle, n: nat): State
    requires f in s.flights
    decreases n
  {
    if n == 0 then s
    else
      OnlyItsFlight(s, f, oracle(s.flights[f]));
      Alone(Step(s, f, oracle(s.flights[f])), f, oracle, n - 1)
  }

  lemma AloneFirst(s: State, f: nat, oracle: Oracle, n: nat)
    requires f in s.flights && n > 0
    ensures f in Step(s, f, oracle(s.flights[f])).flights
    ensures Alone(s, f, oracle, n) == Alone(Step(s, f, oracle(s.flights[f])), f, oracle, n - 1)
  {
    OnlyItsFlight(s, f, oracle(s.flights[f]));
    hide Step;
  }

  lemma {:induction false} AnsweredStays(s: State, f: nat, oracle: Oracle, n: nat)
    requires f in s.flights && s.flights[f].Answered?
    ensures Alone(s, f, oracle, n) == s
    decreases n
  {
    if n > 0 {
      AnsweredStays(s, f, oracle, n - 1);
    }
  }

  /** The enqueue of a request alone: two steps from linking. */
  lemma LinkingAlone(s: State, f: nat, oracle: Oracle, n: nat)
    requires n >= 2 && f in s.flights && s.flights[f].Linking? && s.flights[f].id in s.attempts
    ensures var flight := s.flights[f];
            var adding := Adding(flight.r, flight.id, flight.replayed);
            var (s', response) := Enqueued(s, flight.id, flight.replayed, oracle(flight).ok, oracle(adding).ok);
            Alone(s, f, oracle, n) == Put(s', f, Answered(flight.r, response))
  {
    var flight := s.flights[f];
    AloneFirst(s, f, oracle, n);
    var s1 := Step(s, f, oracle(flight));
    if s1.flights[f].Adding? {
      AloneFirst(s1, f, oracle, n - 1);
      AnsweredStays(Step(s1, f, oracle(s1.flights[f])), f, oracle, n - 2);
    } else {
      AnsweredStays(s1, f, oracle, n - 1);
    }
  }

  /** A request whose key is unused, and whose reads and insert work. */
  lemma FreshKeyAlone(s: State, f: nat, r: Request, oracle: Oracle)
    requires f in s.flights && s.flights[f] == CheckingSlug(r) && !KeyUsed(s.attempts, r.key)
    requires oracle(CheckingSlug(r)).ok && oracle(Inserting(r)).ok && oracle(Inserting(r)).newId !in s.attempts
    ensures var id := oracle(Inserting(r)).newId;
            var inserted := s.(attempts := s.attempts[id := Row(r.key, r.payload, AttemptStatus.Accepted, None)]);
            var (s', response) :=
              if r.payload.tenantSlug in s.slugs then (s, SlugAlreadyInUse)
              else Enqueued(inserted, id, false, oracle(Linking(r, id, false)).ok, oracle(Adding(r, id, false)).ok);
            Alone(s, f, oracle, 4) == Put(s', f, Answered(r, response))
  {
    hide Alone, KeyUsed, Step;
    var id := oracle(Inserting(r)).newId;
    CheckingSlugSteps(s, f, oracle(CheckingSlug(r)));
    AloneFirst(s, f, oracle, 4);
    if r.payload.tenantSlug in s.slugs {
      AnsweredStays(Put(s, f, Answered(r, SlugAlreadyInUse)), f, oracle, 3);
    } else {
      var s1 := Put(s, f, Inserting(r));
      InsertingSteps(s1, f, oracle(Inserting(r)));
      AloneFirst(s1, f, oracle, 3);
      LinkingAlone(Step(s1, f, oracle(Inserting(r))), f, oracle, 2);
    }
  }

  lemma FindingSteps(s: State, f: nat, i: Input)
    requires f in s.flights && s.flights[f].Finding? && i.ok && KeyUsed(s.attempts, s.flights[f].r.key)
    ensures var r := s.flights[f].r;
            var id := RowFor(s.attempts, r.key);
            Step(s, f, i) == Put(s, f, Resolve(r, id, s.attempts[id]))
  {
  }

  lemma CheckingSlugSteps(s: State, f: nat, i: Input)
    requires f in s.flights && s.flights[f].CheckingSlug? && i.ok
    ensures var r := s.flights[f].r;
            Step(s, f, i) == Put(s, f, if r.payload.tenantSlug in s.slugs then Answered(r, SlugAlreadyInUse) else Inserting(r))
  {
  }

  lemma InsertingSteps(s: State, f: nat, i: Input)
    requires f in s.flights && s.flights[f].Inserting? && i.ok
    requires !KeyUsed(s.attempts, s.flights[f].r.key) && i.newId !in s.attempts
    ensures var r := s.flights[f].r;
            Step(s, f, i) == Put(s.(attempts := s.attempts[i.newId := Row(r.key, r.payload, AttemptStatus.Accepted, None)]),
                                 f, Linking(r, i.newId, false))
  {
  }

  /** A request whose key names an attempt. */
  lemma UsedKeyAlone(s: State, f: nat, r: Request, oracle: Oracle)
    requires f in s.flights && s.flights[f] == Finding(r) && KeyUsed(s.attempts, r.key) && oracle(Finding(r)).ok
    ensures var id := RowFor(s.attempts, r.key);
            var (s', response) := Resolved(s, id, r.payload, oracle(Linking(r, id, true)).ok, oracle(Adding(r, id, true)).ok);
            Alone(s, f, oracle, 5) == Put(s', f, Answered(r, response))
  {
    hide Alone, KeyUsed, Step;
    FindingSteps(s, f, oracle(Finding(r)));
    AloneFirst(s, f, oracle, 5);
    ResolvingAlone(s, f, r, RowFor(s.attempts, r.key), oracle, 4);
  }

  /** From the flight that `Resolve` gives: two steps, or none. */
  lemma ResolvingAlone(s: State, f: nat, r: Request, id: Id, oracle: Oracle, n: nat)
    requires f in s.flights && id in s.attempts && n >= 2
    ensures var (s', response) := Resolved(s, id, r.payload, oracle(Linking(r, id, true)).ok, oracle(Adding(r, id, true)).ok);
            Alone(Put(s, f, Resolve(r, id, s.attempts[id])), f, oracle, n) == Put(s', f, Answered(r, response))
  {
    hide Alone, Step;
    var s1 := Put(s, f, Resolve(r, id, s.attempts[id]));
    if s1.flights[f].Linking? {
      LinkingAlone(s1, f, oracle, n);
    } else {
      AnsweredStays(s1, f, oracle, n);
    }
  }

  /** Five steps of a request that nothing interleaves with amount to `Intake`, when its reads and its insert work. */
  lemma UndisturbedIntake(s: State, f: nat, r: Request, oracle: Oracle, link: bool, add: bool)
    requires f in s.flights && s.flights[f] == Finding(r) && r.valid && r.actorActive
    requires oracle(Finding(r)).ok && oracle(CheckingSlug(r)).ok && oracle(Inserting(r)).ok
    requires oracle(Inserting(r)).newId !in s.attempts
    requires forall id, replayed :: oracle(Linking(r, id, replayed)).ok == link && oracle(Adding(r, id, replayed)).ok == add
    ensures var (s', response) := Intake(s, r, oracle(Inserting(r)).newId, link, add);
            Alone(s, f, oracle, 5) == Put(s', f, Answered(r, response))
  {
    hide Alone, KeyUsed;
    if KeyUsed(s.attempts, r.key) {
      UsedKeyAlone(s, f, r, oracle);
    } else {
      AloneFirst(s, f, oracle, 5);
      FreshKeyAlone(Put(s, f, CheckingSlug(r)), f, r, oracle);
    }
  }

  /** What the rereads of a request that lost the unique key see, from the given one on. */
  function Reads(r: Request, oracle: Oracle, tries: nat): seq<bool>
    decreases VISIBILITY_READS - tries
  {
    if tries >= VISIBILITY_READS then [] else [oracle(Rereading(r, tries)).visible] + Reads(r, oracle, tries + 1)
  }

  lemma RereadingSteps(s: State, f: nat, r: Request, tries: nat, i: Input)
    requires f in s.flights && s.flights[f] == Rereading(r, tries) && i.ok && KeyUsed(s.attempts, r.key)
    ensures var id := RowFor(s.attempts, r.key);
            Step(s, f, i) == Put(s, f, if i.visible then Resolve(r, id, s.attempts[id])
                                       else if tries + 1 < VISIBILITY_READS then Rereading(r, tries + 1)
                                       else Answered(r, ReservationPending))
  {
  }

  /** What the answer is does not depend on where the request stands. */
  lemma ResolvedAnywhere(s: State, f: nat, flight: Flight, id: Id, r: Request, link: bool, add: bool)
    requires id in s.attempts
    ensures var (s1, response) := Resolved(Put(s, f, flight), id, r.payload, link, add);
            var (s2, response2) := Resolved(s, id, r.payload, link, add);
            response == response2 && Put(s1, f, Answered(r, response)) == Put(s2, f, Answered(r, response))
  {
  }

  lemma {:induction false} RereadingAlone(s: State, f: nat, r: Request, tries: nat, oracle: Oracle, n: nat, link: bool, add: bool)
    requires f in s.flights && s.flights[f] == Rereading(r, tries) && KeyUsed(s.attempts, r.key)
    requires tries < VISIBILITY_READS && n >= VISIBILITY_READS - tries + 2
    requires forall t :: oracle(Rereading(r, t)).ok
    requires forall id, replayed :: oracle(Linking(r, id, replayed)).ok == link && oracle(Adding(r, id, replayed)).ok == add
    ensures var (s', response) :=
              if true in Reads(r, oracle, tries) then Resolved(s, RowFor(s.attempts, r.key), r.payload, link, add)
              else (s, ReservationPending);
            Alone(s, f, oracle, n) == Put(s', f, Answered(r, response))
    decreases VISIBILITY_READS - tries
  {
    hide Alone, KeyUsed, Step, Resolve, Resolved;
    var i := oracle(Rereading(r, tries));
    RereadingSteps(s, f, r, tries, i);
    AloneFirst(s, f, oracle, n);
    if i.visible {
      ResolvingAlone(s, f, r, RowFor(s.attempts, r.key), oracle, n - 1);
    } else if tries + 1 < VISIBILITY_READS {
      var s1 := Put(s, f, Rereading(r, tries + 1));
      RereadingAlone(s1, f, r, tries + 1, oracle, n - 1, link, add);
      ResolvedAnywhere(s, f, Rereading(r, tries + 1), RowFor(s.attempts, r.key), r, link, add);
    } else {
      AnsweredStays(Put(s, f, Answered(r, ReservationPending)), f, oracle, n - 1);
    }
  }

  /** A request that loses its insert to a rival, and then goes on alone, ends as `ContendedIntake` says. */
  lemma LostRaceIntake(s: State, f: nat, r: Request, rival: Rival, oracle: Oracle, link: bool, add: bool)
    requires f in s.flights && s.flights[f] == Inserting(r) && Inserts(s, r) && oracle(Inserting(r)).ok
    requires rival.id !in s.attempts && rival.row.key == r.key
    requires forall t :: oracle(Rereading(r, t)).ok
    requires forall id, replayed :: oracle(Linking(r, id, replayed)).ok == link && oracle(Adding(r, id, replayed)).ok == add
    ensures var (s', response) :=
              ContendedIntake(s, r, oracle(Inserting(r)).newId, Some(rival), Reads(r, oracle, 0), link, add);
            Alone(WithRival(s, rival), f, oracle, 6) == Put(s', f, Answered(r, response))
  {
    var s1 := WithRival(s, rival);
    assert HasKey(s1.attempts, r.key, rival.id);
    InsertLost(s1, f, r, oracle(Inserting(r)));
    hide Alone, KeyUsed, Step, Resolved;
    AloneFirst(s1, f, oracle, 6);
    RereadingAlone(Put(s1, f, Rereading(r, 0)), f, r, 0, oracle, 5, link, add);
    ResolvedAnywhere(s1, f, Rereading(r, 0), RowFor(s1.attempts, r.key), r, link, add);
  }

  lemma InsertLost(s: State, f: nat, r: Request, i: Input)
    requires f in s.flights && s.flights[f] == Inserting(r) && i.ok && KeyUsed(s.attempts, r.key)
    ensures Step(s, f, i) == Put(s, f, Rereading(r, 0))
  {
  }
}
