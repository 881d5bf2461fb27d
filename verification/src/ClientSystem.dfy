/**
 * One client and the server together: requests travel, replies are lost, pages
 * are reloaded; what every event keeps, and the history that can make the
 * client's stored token dead.
 */
module ClientSystem {
  import opened Wrappers
  import opened TokenRotation
  import opened ApiClients

  /**
   * `logins` are the flights of this client's logins whose reply has not
   * arrived; `sent` the refresh requests, with their tokens, that the server
   * has not looked up yet, whether or not anybody still waits for them.
   */
  datatype System = System(server: State, client: Client, logins: set<nat>, sent: map<nat, Id>)

  datatype SystemEvent =
    | Called(r: nat, refreshable: bool)
    | Replied(r: nat, status: Status, flight: nat)
    /** Boot and session reload. */
    | RefreshRequested(flight: nat)
    /** The server verifies and looks up the token of a request that was sent, however long ago. */
    | LookedUp(flight: nat, verified: bool, sub: Account, now: int)
    /** The server does the next action of the refresh in flight. */
    | Served(reply: Reply)
    | RefreshSettled
    /** The call of the refresh fails at the client: its reply is lost, or the client gives up while it is on its way. */
    | RefreshFailed
    /** The page is loaded again: all that is left is the stored token. */
    | Reloaded
    /** The server goes on with a request nobody waits for. */
    | AbandonedServed(flight: nat, reply: Reply)
    | Resumed(r: nat)
    | LoginCalled(flight: nat, owner: Account)
    | LoginServed(flight: nat, reply: Reply)
    | LoginReplied(flight: nat)
    | SessionCleared

  predicate Used(s: System, f: nat) {
    f in s.server.flights || f in s.sent
  }

  /** The client's refresh call leaves with the stored token. */
  function Send(s: System, f: nat): System
    requires StartsRefresh(s.client)
  {
    s.(sent := s.sent[f := s.client.stored.value])
  }

  /** The flights whose result the client still waits for. */
  predicate Awaited(s: System, f: nat) {
    f in s.logins || (s.client.inFlight.Some? && f == s.client.inFlight.value.flight)
  }

  /** Events that are not possible leave the system as it is. */
  function FireSystem(s: System, e: SystemEvent): System {
    match e
    case Called(r, refreshable) => s.(client := Call(s.client, r, refreshable))
    case Replied(r, status, f) =>
      if Used(s, f) then s
      else
        var s' := if NeedsRefresh(s.client, r, status) && StartsRefresh(s.client) then Send(s, f) else s;
        s'.(client := OnReply(s.client, r, status, f))
    case RefreshRequested(f) =>
      if Used(s, f) || !StartsRefresh(s.client) then s else Send(s, f).(client := JoinRefresh(s.client, f))
    case LookedUp(f, verified, sub, now) =>
      if f !in s.sent then s
      else s.(server := Fire(s.server, Refresh(f, s.sent[f], verified, sub, now)), sent := s.sent - {f})
    case Served(reply) =>
      if s.client.inFlight.None? then s
      else s.(server := Fire(s.server, Continue(s.client.inFlight.value.flight, reply)))
    case RefreshSettled =>
      if s.client.inFlight.None? || s.client.inFlight.value.flight !in s.server.flights then s
      else
        (match s.server.flights[s.client.inFlight.value.flight]
         case Granted(t) => s.(client := OnRefreshed(s.client, Some(t)))
         case Denied => s.(client := OnRefreshed(s.client, None))
         case _ => s)
    case RefreshFailed => if s.client.inFlight.None? then s else s.(client := OnRefreshed(s.client, None))
    case Reloaded => s.(client := Client(None, s.client.stored, None, map[]), logins := {})
    case AbandonedServed(f, reply) =>
      if Awaited(s, f) then s else s.(server := Fire(s.server, Continue(f, reply)))
    case Resumed(r) => s.(client := Resume(s.client, r))
    case LoginCalled(f, account) =>
      if Used(s, f) then s
      else s.(server := Fire(s.server, Login(f, account)), logins := s.logins + {f})
    case LoginServed(f, reply) =>
      if f !in s.logins then s else s.(server := Fire(s.server, Continue(f, reply)))
    case LoginReplied(f) =>
      if f !in s.logins || f !in s.server.flights then s
      else
        (match s.server.flights[f]
         case Granted(t) => s.(client := OnLoggedIn(s.client, t), logins := s.logins - {f})
         case Denied => s.(logins := s.logins - {f})
         case _ => s)
    case SessionCleared => s.(client := Expire(s.client))
  }

  function FireSystemAll(s: System, es: seq<SystemEvent>): System
    decreases |es|
  {
    if es == [] then s else FireSystemAll(FireSystem(s, es[0]), es[1..])
  }

  predicate Live(s: State, t: Id) {
    t in s.tokens && !s.tokens[t].revoked
  }

  predicate Revoked(s: State, t: Id) {
    t in s.tokens && s.tokens[t].revoked
  }

  // ----- what can make the stored token dead ---------------------------

  /** Where the refresh in flight stands, once the server has looked it up. */
  function Standing(s: System): Option<Flight> {
    if s.client.inFlight.Some? && s.client.inFlight.value.flight in s.server.flights
    then Some(s.server.flights[s.client.inFlight.value.flight]) else None
  }

  /** The token of the refresh in flight has been claimed, and its successor has not reached the client. */
  predicate Claimed(s: System) {
    Standing(s).Some? && (Rotating(Standing(s).value) || Standing(s).value.Granted?)
  }

  /**
   * The tokens whose rotation this event loses: the server claims, or has
   * claimed, the token, and the client will never learn of a successor.
   */
  function LosesRotation(s: System, e: SystemEvent): set<Id> {
    match e
    case Served(_) =>
      if Claimed(s) && Standing(FireSystem(s, e)) == Some(Denied) then {s.client.inFlight.value.presented} else {}
    case RefreshFailed | Reloaded =>
      if Claimed(s) then {s.client.inFlight.value.presented} else {}
    case AbandonedServed(f, reply) =>
      if !Awaited(s, f) && f in s.server.flights && s.server.flights[f].Claiming? && reply.ok
         && Live(s.server, s.server.flights[f].id)
      then {s.server.flights[f].id} else {}
    case _ => {}
  }

  /** The request, if any, that this event looks up too late: its token has been revoked since it was issued. */
  function LateLookup(s: System, e: SystemEvent): set<nat> {
    if e.LookedUp? && e.verified && e.flight in s.sent && Revoked(s.server, s.sent[e.flight])
    then {e.flight} else {}
  }

  /** The request whose next action this event is, and the environment's answer to it. */
  function Action(s: System, e: SystemEvent): Option<(nat, Reply)> {
    match e
    case Served(reply) => if s.client.inFlight.Some? then Some((s.client.inFlight.value.flight, reply)) else None
    case AbandonedServed(f, reply) => if Awaited(s, f) then None else Some((f, reply))
    case _ => None
  }

  /** The live tokens of an account. */
  function LiveOf(s: State, account: Account): set<Id> {
    set t | t in s.tokens && Live(s, t) && s.tokens[t].account == account
  }

  /** The tokens that are live when a request carries out its kill, and are its account's. */
  function KillOf(s: System, e: SystemEvent): set<Id> {
    match Action(s, e)
    case None => {}
    case Some((f, reply)) =>
      if f in s.server.flights && s.server.flights[f].Killing? && reply.ok
      then LiveOf(s.server, s.server.flights[f].account) else {}
  }

  /** Those of a kill by a request that was looked up too late. */
  function Sweeps(s: System, e: SystemEvent, late: set<nat>): set<Id> {
    if Action(s, e).Some? && Action(s, e).value.0 in late then KillOf(s, e) else {}
  }

  /** What has happened so far: rotations lost, requests looked up too late, tokens swept by their kills. */
  datatype History = History(lost: set<Id>, late: set<nat>, swept: set<Id>)

  const NOTHING := History({}, {}, {})

  function Remember(h: History, s: System, e: SystemEvent): History {
    History(h.lost + LosesRotation(s, e), h.late + LateLookup(s, e), h.swept + Sweeps(s, e, h.late))
  }

  ghost function RememberAll(h: History, s: System, es: seq<SystemEvent>): History
    decreases |es|
  {
    if es == [] then h else RememberAll(Remember(h, s, es[0]), FireSystem(s, es[0]), es[1..])
  }

  // ----- the invariant -------------------------------------------------

  /** The token the client is about to receive from request `f`. */
  function GrantOf(s: System, f: nat): Option<Id> {
    if Awaited(s, f) && f in s.server.flights && s.server.flights[f].Granted? then Some(s.server.flights[f].token) else None
  }

  /** Live, or dead for a known reason. */
  predicate Accounted(s: System, t: Id, dead: set<Id>) {
    Live(s.server, t) || t in dead
  }

  /** A token that nobody holds, has sent, presents or is about to claim. */
  ghost predicate Apart(s: System, t: Id, dead: set<Id>) {
    && Accounted(s, t, dead)
    && s.client.stored != Some(t)
    && (s.client.inFlight.Some? ==> s.client.inFlight.value.presented != t)
    && (forall g | g in s.sent :: s.sent[g] != t)
    && (forall g | g in s.server.flights && s.server.flights[g].Claiming? :: s.server.flights[g].id != t)
  }

  ghost predicate GrantsApart(s: System, dead: set<Id>) {
    && (forall f | GrantOf(s, f).Some? :: Apart(s, GrantOf(s, f).value, dead))
    && (forall f, g | GrantOf(s, f).Some? && GrantOf(s, f) == GrantOf(s, g) :: f == g)
  }

  lemma GrantsStayApart(s: System, s': System, dead: set<Id>, dead': set<Id>)
    requires GrantsApart(s, dead)
    requires forall f | GrantOf(s', f).Some? :: GrantOf(s', f) == GrantOf(s, f)
    requires forall f | GrantOf(s', f).Some? :: Apart(s, GrantOf(s', f).value, dead) ==> Apart(s', GrantOf(s', f).value, dead')
    ensures GrantsApart(s', dead')
  {
    hide Apart, GrantOf;
  }

  /** The stored token is live, unless it is being rotated right now or is dead for a known reason. */
  predicate StoredIsLive(s: System, dead: set<Id>) {
    s.client.stored.Some? ==>
      || Accounted(s, s.client.stored.value, dead)
      || (s.client.inFlight.Some? && s.client.inFlight.value.presented == s.client.stored.value)
  }

  /** The refresh in flight is on its way with the token it presents, or works on it. */
  predicate RefreshOnCourse(s: System, dead: set<Id>) {
    s.client.inFlight.Some? ==>
      var p := s.client.inFlight.value;
      && p.flight !in s.logins && p.presented in s.server.tokens
      && if p.flight in s.sent then s.sent[p.flight] == p.presented && Accounted(s, p.presented, dead)
         else
           && p.flight in s.server.flights
           && match s.server.flights[p.flight]
              case Killing(_) => p.presented in dead
              case Claiming(id, _) => id == p.presented && Accounted(s, id, dead)
              case Resolving(id, _) => id == p.presented && Revoked(s.server, id)
              case Issuing(id, _) => id == p.presented && Revoked(s.server, id)
              case Denied => Accounted(s, p.presented, dead)
              case Granted(_) => Revoked(s.server, p.presented)
              case _ => false
  }

  /** The server is only logging in and refreshing. */
  ghost predicate NoOtherWork(s: System) {
    && (forall f | f in s.logins :: f in s.server.flights)
    && (forall f | f in s.server.flights :: !s.server.flights[f].LoggingOut?)
    && (forall f | f in s.server.flights && (s.server.flights[f].Claiming? || Rotating(s.server.flights[f])) ::
          s.server.flights[f].id in s.server.tokens)
    && (forall f | f in s.logins :: s.server.flights[f].LoggingIn? || s.server.flights[f].Granted? || s.server.flights[f].Denied?)
    && (forall f | f in s.sent :: f !in s.server.flights && f !in s.logins && s.sent[f] in s.server.tokens)
    && s.server.root.Keys == s.server.tokens.Keys
  }

  ghost predicate DeadAreRevoked(s: System, dead: set<Id>) {
    forall t | t in dead :: Revoked(s.server, t)
  }

  /** Sent once before its refresh and at most once more after it, and waiting only for a refresh that runs. */
  ghost predicate SendsBounded(c: Client) {
    forall r | r in c.requests ::
      && (c.requests[r].phase.AwaitingRefresh? ==> c.inFlight.Some?)
      && c.requests[r].sends <= (if c.requests[r].refreshable then 2 else 1)
      && (c.requests[r].phase.AwaitingRefresh? || c.requests[r].phase.Woken? ==>
            c.requests[r].sends == 1 && c.requests[r].refreshable)
  }

  ghost predicate Coherent(s: System, dead: set<Id>) {
    && GrantsApart(s, dead) && StoredIsLive(s, dead) && RefreshOnCourse(s, dead) && NoOtherWork(s) && SendsBounded(s.client)
    && DeadAreRevoked(s, dead)
  }

  /** Only requests looked up too late kill. */
  ghost predicate KillsAreLate(s: System, late: set<nat>) {
    forall f | f in s.server.flights && s.server.flights[f].Killing? :: f in late
  }

  ghost predicate SystemInv(s: System, h: History) {
    Coherent(s, h.lost + h.swept) && KillsAreLate(s, h.late)
  }

  // ----- every event keeps it ------------------------------------------

  /** Events that only touch the client's own calls, or clear the session. */
  lemma ClientOnlyKeepsInv(s: System, c: Client, dead: set<Id>)
    requires Coherent(s, dead) && c.inFlight == s.client.inFlight && (c.stored == s.client.stored || c.stored == None)
    requires SendsBounded(c)
    ensures Coherent(s.(client := c), dead)
  {
    var s' := s.(client := c);
    forall g | GrantOf(s', g).Some?
      ensures GrantOf(s', g) == GrantOf(s, g)
      ensures Apart(s, GrantOf(s', g).value, dead) ==> Apart(s', GrantOf(s', g).value, dead)
    {
    }
    GrantsStayApart(s, s', dead, dead);
    hide GrantsApart, Apart, GrantOf, Awaited, SendsBounded;
  }

  lemma SendKeepsInv(s: System, f: nat, dead: set<Id>)
    requires Coherent(s, dead) && StartsRefresh(s.client) && !Used(s, f)
    ensures Coherent(Send(s, f).(client := JoinRefresh(s.client, f)), dead)
  {
    var s' := Send(s, f).(client := JoinRefresh(s.client, f));
    assert Accounted(s, s.client.stored.value, dead);
    forall g | GrantOf(s', g).Some?
      ensures GrantOf(s', g) == GrantOf(s, g)
      ensures Apart(s, GrantOf(s', g).value, dead) ==> Apart(s', GrantOf(s', g).value, dead)
    {
    }
    GrantsStayApart(s, s', dead, dead);
    hide GrantsApart, Apart, GrantOf, Awaited, SendsBounded;
  }

  lemma LookedUpKeepsInv(s: System, f: nat, verified: bool, sub: Account, now: int, dead: set<Id>)
    requires Coherent(s, dead)
    ensures Coherent(FireSystem(s, LookedUp(f, verified, sub, now)), dead)
  {
    var s' := FireSystem(s, LookedUp(f, verified, sub, now));
    assert s'.server.tokens == s.server.tokens && s'.server.root == s.server.root;
    assert f in s.sent ==> s'.server.flights == s.server.flights[f := Lookup(s.server.tokens, s.sent[f], verified, sub, now)];
    forall g | GrantOf(s', g).Some?
      ensures GrantOf(s', g) == GrantOf(s, g)
      ensures Apart(s, GrantOf(s', g).value, dead) ==> Apart(s', GrantOf(s', g).value, dead)
    {
    }
    GrantsStayApart(s, s', dead, dead);
    hide GrantsApart, Apart, GrantOf, Awaited, SendsBounded;
  }

  /** What the invariant says of a rotation the client waits for. */
  lemma RotationOnCourse(s: System, dead: set<Id>)
    requires Coherent(s, dead) && Standing(s).Some? && Rotating(Standing(s).value)
    ensures Revoked(s.server, s.client.inFlight.value.presented) && Standing(s).value.id == s.client.inFlight.value.presented
    ensures s.client.inFlight.value.flight !in s.logins && DeadAreRevoked(s, dead)
    ensures s.server.root.Keys == s.server.tokens.Keys
  {
  }

  lemma ClaimServed(s: System, reply: Reply, dead: set<Id>)
    requires Coherent(s, dead) && Standing(s).Some? && Standing(s).value.Claiming?
    ensures Coherent(FireSystem(s, Served(reply)), dead)
    ensures LosesRotation(s, Served(reply)) == {}
  {
    var s' := FireSystem(s, Served(reply));
    var presented := s.client.inFlight.value.presented;
    assert forall t | t != presented :: Live(s.server, t) ==> Live(s'.server, t);
    assert forall t :: Revoked(s.server, t) ==> Revoked(s'.server, t);
    forall g | GrantOf(s', g).Some?
      ensures GrantOf(s', g) == GrantOf(s, g)
      ensures Apart(s, GrantOf(s', g).value, dead) ==> Apart(s', GrantOf(s', g).value, dead)
    {
    }
    GrantsStayApart(s, s', dead, dead);
    hide GrantsApart, Apart, GrantOf, Awaited, SendsBounded;
  }

  /** Request `f` stores a new live row; the rest is as before. */
  lemma RowGranted(s: System, s': System, f: nat, newId: Id, dead: set<Id>)
    requires Coherent(s, dead) && f in s.server.flights && newId !in s.server.tokens
    requires Rotating(s.server.flights[f]) || s.server.flights[f].LoggingIn?
    requires s'.client == s.client && s'.logins == s.logins && s'.sent == s.sent
    requires s'.server.flights == s.server.flights[f := Granted(newId)]
    requires Live(s'.server, newId) && s'.server.tokens == s.server.tokens[newId := s'.server.tokens[newId]]
    requires s'.server.root.Keys == s'.server.tokens.Keys
    ensures Coherent(s', dead)
  {
    assert forall t :: Live(s.server, t) ==> Live(s'.server, t) && t != newId;
    assert forall t :: Revoked(s.server, t) ==> Revoked(s'.server, t) && t != newId;
    RowGrantedApart(s, s', f, newId, dead);
    hide GrantsApart, Awaited, SendsBounded;
  }

  lemma RowGrantedApart(s: System, s': System, f: nat, newId: Id, dead: set<Id>)
    requires GrantsApart(s, dead) && StoredIsLive(s, dead) && RefreshOnCourse(s, dead) && NoOtherWork(s) && DeadAreRevoked(s, dead)
    requires f in s.server.flights && newId !in s.server.tokens
    requires s'.client == s.client && s'.logins == s.logins && s'.sent == s.sent
    requires s'.server.flights == s.server.flights[f := Granted(newId)]
    requires Live(s'.server, newId) && s'.server.tokens == s.server.tokens[newId := s'.server.tokens[newId]]
    ensures GrantsApart(s', dead)
  {
    assert s.client.stored != Some(newId);
    assert s.client.inFlight.Some? ==> s.client.inFlight.value.presented != newId;
    assert forall g | g in s.server.flights && s.server.flights[g].Claiming? :: s.server.flights[g].id != newId;
    assert forall t :: Live(s.server, t) ==> Live(s'.server, t) && t != newId;
    assert newId !in dead;
    assert Apart(s', newId, dead);
    hide StoredIsLive, RefreshOnCourse, NoOtherWork, DeadAreRevoked;
    forall g | GrantOf(s', g).Some?
      ensures if g == f then GrantOf(s', g) == Some(newId) else GrantOf(s', g) == GrantOf(s, g)
      ensures Apart(s', GrantOf(s', g).value, dead)
    {
      if g != f {
        assert GrantOf(s', g) == GrantOf(s, g);
        assert Apart(s, GrantOf(s, g).value, dead);
      }
    }
    forall g | g != f && GrantOf(s', g).Some?
      ensures GrantOf(s', g) != Some(newId)
    {
      assert Apart(s, GrantOf(s, g).value, dead);
    }
    hide Apart;
  }

  /** Request `f` goes from reading the actor to storing the successor, or ends with nothing. */
  lemma FlightMoved(s: System, s': System, f: nat, next: Flight, dead: set<Id>, dead': set<Id>)
    requires Coherent(s, dead) && f in s.server.flights
    requires next.Denied? || (next.Issuing? && s.server.flights[f].Resolving? && next.id == s.server.flights[f].id)
    requires f in s.logins ==> next.Denied?
    requires s'.client == s.client && s'.logins == s.logins && s'.sent == s.sent
    requires s'.server.flights == s.server.flights[f := next]
    requires s'.server.tokens == s.server.tokens && s'.server.root == s.server.root
    requires dead <= dead' && DeadAreRevoked(s, dead')
    requires var c := s.client.inFlight;
             next.Denied? && c.Some? && c.value.flight == f ==> Accounted(s, c.value.presented, dead')
    ensures Coherent(s', dead')
  {
    assert forall t :: Live(s'.server, t) == Live(s.server, t);
    assert forall t :: Revoked(s'.server, t) == Revoked(s.server, t);
    forall g | GrantOf(s', g).Some?
      ensures GrantOf(s', g) == GrantOf(s, g)
      ensures Apart(s, GrantOf(s', g).value, dead) ==> Apart(s', GrantOf(s', g).value, dead')
    {
    }
    GrantsStayApart(s, s', dead, dead');
    hide GrantsApart, Apart, GrantOf, Awaited, SendsBounded;
  }

  lemma ResolveServed(s: System, reply: Reply, dead: set<Id>)
    requires Coherent(s, dead) && Standing(s).Some? && Standing(s).value.Resolving?
    ensures Coherent(FireSystem(s, Served(reply)), dead + LosesRotation(s, Served(reply)))
  {
    var s', f := FireSystem(s, Served(reply)), s.client.inFlight.value.flight;
    hide Coherent, RefreshOnCourse;
    RotationOnCourse(s, dead);
    FlightMoved(s, s', f, s'.server.flights[f], dead, dead + LosesRotation(s, Served(reply)));
  }

  lemma IssueServed(s: System, reply: Reply, dead: set<Id>)
    requires Coherent(s, dead) && Standing(s).Some? && Standing(s).value.Issuing?
    ensures Coherent(FireSystem(s, Served(reply)), dead + LosesRotation(s, Served(reply)))
  {
    var s', f := FireSystem(s, Served(reply)), s.client.inFlight.value.flight;
    RotationOnCourse(s, dead);
    hide Coherent, RefreshOnCourse;
    if reply.ok && reply.newId !in s.server.tokens {
      assert dead + LosesRotation(s, Served(reply)) == dead;
      RowGranted(s, s', f, reply.newId, dead);
    } else {
      FlightMoved(s, s', f, Denied, dead, dead + LosesRotation(s, Served(reply)));
    }
  }

  /** A request carries out its kill. */
  lemma KillDone(s: System, s': System, f: nat, dead: set<Id>)
    requires Coherent(s, dead) && f in s.server.flights && s.server.flights[f].Killing?
    requires s' == s.(server := s.server.(tokens := RevokeAll(s.server.tokens, s.server.flights[f].account, None),
                                          flights := s.server.flights[f := Denied]))
    ensures Coherent(s', dead + LiveOf(s.server, s.server.flights[f].account))
  {
    var dead' := dead + LiveOf(s.server, s.server.flights[f].account);
    assert forall t | Accounted(s, t, dead) :: Accounted(s', t, dead');
    assert forall t :: Revoked(s.server, t) ==> Revoked(s'.server, t);
    forall g | GrantOf(s', g).Some?
      ensures GrantOf(s', g) == GrantOf(s, g)
      ensures Apart(s, GrantOf(s', g).value, dead) ==> Apart(s', GrantOf(s', g).value, dead')
    {
    }
    GrantsStayApart(s, s', dead, dead');
    hide GrantsApart, Apart, GrantOf, Awaited, SendsBounded;
  }

  lemma KillStep(s: System, f: nat, reply: Reply, dead: set<Id>)
    requires Coherent(s, dead) && f in s.server.flights && s.server.flights[f].Killing?
    ensures Coherent(s.(server := Fire(s.server, Continue(f, reply))),
                     if reply.ok then dead + LiveOf(s.server, s.server.flights[f].account) else dead)
  {
    var s' := s.(server := Fire(s.server, Continue(f, reply)));
    assert f !in s.logins && DeadAreRevoked(s, dead);
    assert s.client.inFlight.Some? && s.client.inFlight.value.flight == f ==> s.client.inFlight.value.presented in dead;
    hide Coherent, RefreshOnCourse, DeadAreRevoked;
    if reply.ok {
      KillDone(s, s', f, dead);
    } else {
      FlightMoved(s, s', f, Denied, dead, dead);
    }
  }

  lemma ServedKeepsInv(s: System, reply: Reply, dead: set<Id>)
    requires Coherent(s, dead)
    ensures Coherent(FireSystem(s, Served(reply)), dead + LosesRotation(s, Served(reply)) + KillOf(s, Served(reply)))
  {
    var e := Served(reply);
    hide Coherent;
    if Standing(s).Some? {
      assert !Standing(s).value.Killing? ==> dead + LosesRotation(s, e) + KillOf(s, e) == dead + LosesRotation(s, e);
      match Standing(s).value
      case Claiming(_, _) =>
        ClaimServed(s, reply, dead);
        assert dead + LosesRotation(s, e) == dead;
      case Issuing(_, _) => IssueServed(s, reply, dead);
      case Resolving(_, _) => ResolveServed(s, reply, dead);
      case Killing(account) =>
        KillStep(s, s.client.inFlight.value.flight, reply, dead);
        assert LosesRotation(s, e) == {};
        assert dead + {} + KillOf(s, e) == if reply.ok then dead + LiveOf(s.server, account) else dead;
      case LoggingIn(_) => RefreshesOnly(s, dead);
      case LoggingOut(_) => RefreshesOnly(s, dead);
      case _ => NothingDone(s, e, dead);
    } else {
      NothingDone(s, e, dead);
    }
  }

  /** The refresh in flight is no other kind of request. */
  lemma RefreshesOnly(s: System, dead: set<Id>)
    requires Coherent(s, dead) && Standing(s).Some?
    ensures !Standing(s).value.LoggingIn? && !Standing(s).value.LoggingOut?
  {
  }

  lemma NothingDone(s: System, e: SystemEvent, dead: set<Id>)
    requires e.Served? || e.AbandonedServed?
    requires Action(s, e).Some? ==>
               var f := Action(s, e).value.0;
               f in s.server.flights ==> s.server.flights[f].Denied? || s.server.flights[f].Granted? || s.server.flights[f].LoggedOut?
    ensures FireSystem(s, e) == s && dead + LosesRotation(s, e) + KillOf(s, e) == dead
  {
  }

  lemma RefreshSettledKeepsInv(s: System, dead: set<Id>)
    requires Coherent(s, dead)
    ensures Coherent(FireSystem(s, RefreshSettled), dead)
  {
    var s' := FireSystem(s, RefreshSettled);
    if s'.client != s.client {
      var f := s.client.inFlight.value.flight;
      assert GrantOf(s, f).Some? ==> Apart(s, GrantOf(s, f).value, dead);
      forall g | GrantOf(s', g).Some?
        ensures GrantOf(s', g) == GrantOf(s, g)
        ensures Apart(s, GrantOf(s', g).value, dead) ==> Apart(s', GrantOf(s', g).value, dead)
      {
        assert g != f && GrantOf(s, g) != GrantOf(s, f);
      }
      GrantsStayApart(s, s', dead, dead);
      hide GrantsApart, SendsBounded;
    }
  }

  lemma RefreshFailedKeepsInv(s: System, dead: set<Id>)
    requires Coherent(s, dead)
    ensures Coherent(FireSystem(s, RefreshFailed), dead + LosesRotation(s, RefreshFailed))
  {
    var s' := FireSystem(s, RefreshFailed);
    var dead' := dead + LosesRotation(s, RefreshFailed);
    forall g | GrantOf(s', g).Some?
      ensures GrantOf(s', g) == GrantOf(s, g)
      ensures Apart(s, GrantOf(s', g).value, dead) ==> Apart(s', GrantOf(s', g).value, dead')
    {
    }
    GrantsStayApart(s, s', dead, dead');
    hide GrantsApart, Apart, GrantOf, Awaited, SendsBounded;
  }

  lemma ReloadedKeepsInv(s: System, dead: set<Id>)
    requires Coherent(s, dead)
    ensures Coherent(FireSystem(s, Reloaded), dead + LosesRotation(s, Reloaded))
  {
    var s' := FireSystem(s, Reloaded);
    assert forall g :: GrantOf(s', g) == None;
    hide Apart, GrantOf;
  }

  lemma AbandonedServedKeepsInv(s: System, f: nat, reply: Reply, dead: set<Id>)
    requires Coherent(s, dead)
    ensures var e := AbandonedServed(f, reply);
            Coherent(FireSystem(s, e), dead + LosesRotation(s, e) + KillOf(s, e))
  {
    var e := AbandonedServed(f, reply);
    hide Coherent;
    if !Awaited(s, f) && f in s.server.flights {
      assert !s.server.flights[f].Killing? ==> dead + LosesRotation(s, e) + KillOf(s, e) == dead + LosesRotation(s, e);
      match s.server.flights[f]
      case Claiming(_, _) => AbandonedClaim(s, f, reply, dead);
      case Killing(account) =>
        KillStep(s, f, reply, dead);
        assert dead + {} + KillOf(s, e) == if reply.ok then dead + LiveOf(s.server, account) else dead;
      case LoggingOut(_) => NoLogout(s, f, dead);
      case Granted(_) => NothingDone(s, e, dead);
      case Denied => NothingDone(s, e, dead);
      case LoggedOut => NothingDone(s, e, dead);
      case _ =>
        AbandonedIssue(s, f, reply, dead);
        assert dead + LosesRotation(s, e) == dead;
    } else {
      assert dead + LosesRotation(s, e) + KillOf(s, e) == dead;
    }
  }

  lemma NoLogout(s: System, f: nat, dead: set<Id>)
    requires Coherent(s, dead) && f in s.server.flights
    ensures !s.server.flights[f].LoggingOut?
  {
  }

  /** An abandoned request claims its token: nobody will learn the successor. */
  lemma AbandonedClaim(s: System, f: nat, reply: Reply, dead: set<Id>)
    requires Coherent(s, dead) && !Awaited(s, f) && f in s.server.flights && s.server.flights[f].Claiming?
    ensures Coherent(FireSystem(s, AbandonedServed(f, reply)), dead + LosesRotation(s, AbandonedServed(f, reply)))
  {
    var s' := FireSystem(s, AbandonedServed(f, reply));
    var dead' := dead + LosesRotation(s, AbandonedServed(f, reply));
    var claimed := s.server.flights[f].id;
    assert forall t | t != claimed :: Live(s.server, t) ==> Live(s'.server, t);
    assert forall t :: Revoked(s.server, t) ==> Revoked(s'.server, t);
    assert forall t | Accounted(s, t, dead) :: Accounted(s', t, dead');
    forall g | GrantOf(s', g).Some?
      ensures GrantOf(s', g) == GrantOf(s, g)
      ensures Apart(s, GrantOf(s', g).value, dead) ==> Apart(s', GrantOf(s', g).value, dead')
    {
    }
    GrantsStayApart(s, s', dead, dead');
    hide GrantsApart, Apart, GrantOf, Awaited, SendsBounded;
  }

  lemma AbandonedIssue(s: System, f: nat, reply: Reply, dead: set<Id>)
    requires Coherent(s, dead) && !Awaited(s, f) && f in s.server.flights
    requires Rotating(s.server.flights[f]) || s.server.flights[f].LoggingIn?
    ensures Coherent(FireSystem(s, AbandonedServed(f, reply)), dead)
  {
    var s' := FireSystem(s, AbandonedServed(f, reply));
    assert s.server.root.Keys == s.server.tokens.Keys && DeadAreRevoked(s, dead);
    hide Coherent, RefreshOnCourse, DeadAreRevoked;
    if s'.server.flights[f].Granted? {
      RowGranted(s, s', f, reply.newId, dead);
    } else {
      FlightMoved(s, s', f, s'.server.flights[f], dead, dead);
    }
  }

  lemma LoginCalledKeepsInv(s: System, f: nat, owner: Account, dead: set<Id>)
    requires Coherent(s, dead)
    ensures Coherent(FireSystem(s, LoginCalled(f, owner)), dead)
  {
    var s' := FireSystem(s, LoginCalled(f, owner));
    forall g | GrantOf(s', g).Some?
      ensures GrantOf(s', g) == GrantOf(s, g)
      ensures Apart(s, GrantOf(s', g).value, dead) ==> Apart(s', GrantOf(s', g).value, dead)
    {
    }
    GrantsStayApart(s, s', dead, dead);
    hide GrantsApart, Apart, GrantOf, Awaited, SendsBounded;
  }

  lemma LoginServedKeepsInv(s: System, f: nat, reply: Reply, dead: set<Id>)
    requires Coherent(s, dead)
    ensures Coherent(FireSystem(s, LoginServed(f, reply)), dead)
  {
    if f in s.logins && s.server.flights[f].LoggingIn? {
      var s' := FireSystem(s, LoginServed(f, reply));
      assert s.server.root.Keys == s.server.tokens.Keys && DeadAreRevoked(s, dead);
      assert s.client.inFlight.Some? ==> s.client.inFlight.value.flight != f;
      hide Coherent, RefreshOnCourse, DeadAreRevoked;
      if reply.ok && reply.newId !in s.server.tokens {
        RowGranted(s, s', f, reply.newId, dead);
      } else {
        FlightMoved(s, s', f, Denied, dead, dead);
      }
    }
  }

  lemma LoginRepliedKeepsInv(s: System, f: nat, dead: set<Id>)
    requires Coherent(s, dead)
    ensures Coherent(FireSystem(s, LoginReplied(f)), dead)
  {
    var s' := FireSystem(s, LoginReplied(f));
    if s' != s {
      assert GrantOf(s, f).Some? ==> Apart(s, GrantOf(s, f).value, dead);
      forall g | GrantOf(s', g).Some?
        ensures GrantOf(s', g) == GrantOf(s, g)
        ensures Apart(s, GrantOf(s', g).value, dead) ==> Apart(s', GrantOf(s', g).value, dead)
      {
        assert g != f && GrantOf(s, g) != GrantOf(s, f);
      }
      GrantsStayApart(s, s', dead, dead);
      hide GrantsApart, SendsBounded;
    }
  }

  lemma CalledKeepsInv(s: System, r: nat, refreshable: bool, dead: set<Id>)
    requires Coherent(s, dead)
    ensures Coherent(s.(client := Call(s.client, r, refreshable)), dead)
  {
    ClientOnlyKeepsInv(s, Call(s.client, r, refreshable), dead);
  }

  lemma ResumedKeepsInv(s: System, r: nat, dead: set<Id>)
    requires Coherent(s, dead)
    ensures Coherent(s.(client := Resume(s.client, r)), dead)
  {
    ClientOnlyKeepsInv(s, Resume(s.client, r), dead);
  }

  lemma ClearedKeepsInv(s: System, dead: set<Id>)
    requires Coherent(s, dead)
    ensures Coherent(s.(client := Expire(s.client)), dead)
  {
    ClientOnlyKeepsInv(s, Expire(s.client), dead);
  }

  lemma RepliedKeepsInv(s: System, r: nat, status: Status, f: nat, dead: set<Id>)
    requires Coherent(s, dead)
    ensures Coherent(FireSystem(s, Replied(r, status, f)), dead)
  {
    var c := OnReply(s.client, r, status, f);
    assert SendsBounded(c);
    if !Used(s, f) {
      if NeedsRefresh(s.client, r, status) && StartsRefresh(s.client) {
        var s1 := Send(s, f).(client := JoinRefresh(s.client, f));
        SendKeepsInv(s, f, dead);
        ClientOnlyKeepsInv(s1, c, dead);
        assert FireSystem(s, Replied(r, status, f)) == s1.(client := c);
      } else {
        ClientOnlyKeepsInv(s, c, dead);
      }
    }
  }

  lemma FireKeepsCoherent(s: System, e: SystemEvent, dead: set<Id>)
    requires Coherent(s, dead)
    ensures Coherent(FireSystem(s, e), dead + LosesRotation(s, e) + KillOf(s, e))
  {
    hide Coherent, Send, Standing, Live, Claimed;
    assert !(e.Served? || e.AbandonedServed?) ==> dead + LosesRotation(s, e) + KillOf(s, e) == dead + LosesRotation(s, e);
    assert !(e.Served? || e.RefreshFailed? || e.Reloaded? || e.AbandonedServed?) ==> dead + LosesRotation(s, e) == dead;
    match e
    case Called(r, refreshable) => CalledKeepsInv(s, r, refreshable, dead);
    case Replied(r, status, f) => RepliedKeepsInv(s, r, status, f, dead);
    case RefreshRequested(f) =>
      if !Used(s, f) && StartsRefresh(s.client) {
        SendKeepsInv(s, f, dead);
      }
    case LookedUp(f, verified, sub, now) => LookedUpKeepsInv(s, f, verified, sub, now, dead);
    case Served(reply) => ServedKeepsInv(s, reply, dead);
    case RefreshSettled => RefreshSettledKeepsInv(s, dead);
    case RefreshFailed => RefreshFailedKeepsInv(s, dead);
    case Reloaded => ReloadedKeepsInv(s, dead);
    case AbandonedServed(f, reply) => AbandonedServedKeepsInv(s, f, reply, dead);
    case Resumed(r) => ResumedKeepsInv(s, r, dead);
    case LoginCalled(f, owner) => LoginCalledKeepsInv(s, f, owner, dead);
    case LoginServed(f, reply) => LoginServedKeepsInv(s, f, reply, dead);
    case LoginReplied(f) => LoginRepliedKeepsInv(s, f, dead);
    case SessionCleared => ClearedKeepsInv(s, dead);
  }

  /** A kill starts at no other moment than a late lookup. */
  lemma FireKeepsLate(s: System, e: SystemEvent, late: set<nat>)
    requires KillsAreLate(s, late)
    ensures KillsAreLate(FireSystem(s, e), late + LateLookup(s, e))
  {
    forall f | f in FireSystem(s, e).server.flights && FireSystem(s, e).server.flights[f].Killing?
      ensures f in late + LateLookup(s, e)
    {
      StaysKilling(s, e, f);
    }
  }

  lemma StaysKilling(s: System, e: SystemEvent, f: nat)
    requires f in FireSystem(s, e).server.flights && FireSystem(s, e).server.flights[f].Killing?
    ensures (f in s.server.flights && s.server.flights[f].Killing?) || f in LateLookup(s, e)
  {
    forall g, reply | g in s.server.flights && f in Step(s.server, g, reply).flights && Step(s.server, g, reply).flights[f].Killing?
      ensures f in s.server.flights && s.server.flights[f].Killing?
    {
    }
    hide Step, Call, OnRefreshed, OnLoggedIn, Resume, OnReply;
  }

  lemma FireSystemKeepsInv(s: System, e: SystemEvent, h: History)
    requires SystemInv(s, h)
    ensures SystemInv(FireSystem(s, e), Remember(h, s, e))
  {
    var dead := h.lost + h.swept;
    FireKeepsCoherent(s, e, dead);
    FireKeepsLate(s, e, h.late);
    assert Sweeps(s, e, h.late) == KillOf(s, e);
    var h' := Remember(h, s, e);
    hide Coherent, FireSystem, LosesRotation, Sweeps, KillOf, LateLookup, KillsAreLate;
    assert h'.lost + h'.swept == dead + LosesRotation(s, e) + KillOf(s, e);
  }

  lemma {:induction false} SystemRunsKeepInv(s: System, es: seq<SystemEvent>, h: History)
    requires SystemInv(s, h)
    ensures SystemInv(FireSystemAll(s, es), RememberAll(h, s, es))
    decreases |es|
  {
    hide SystemInv, FireSystem, Remember;
    if es != [] {
      FireSystemKeepsInv(s, es[0], h);
      SystemRunsKeepInv(FireSystem(s, es[0]), es[1..], Remember(h, s, es[0]));
    }
  }
}
