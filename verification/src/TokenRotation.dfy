/**
 * Refresh-token rotation with reuse detection: every database action of every
 * concurrent request is one step, and any two steps may interleave.
 */
module TokenRotation {
  import opened Wrappers

  type Id = nat

  type Account = nat

  /** A stored row. The id stands for the token and for its hash. */
  datatype Token = Token(account: Account, expiresAt: int, revoked: bool)

  type Tokens = map<Id, Token>

  /** What a request still has to do. */
  datatype Flight =
    | Killing(account: Account)
    | Claiming(id: Id, account: Account)
    | Resolving(id: Id, account: Account)
    | Issuing(id: Id, account: Account)
    | LoggingIn(account: Account)
    | LoggingOut(id: Id)
    | Denied
    | Granted(token: Id)
    | LoggedOut

  /** The tables and the requests in flight, with a history: rotation parents, logins, and the login each row goes back to. */
  datatype State = State(
    tokens: Tokens,
    flights: map<nat, Flight>,
    parent: map<Id, Id>,
    root: map<Id, nat>,
    logins: seq<Account>)

  /** The environment's answer: whether the call works, whether the actor is active, and a generated row. */
  datatype Reply = Reply(ok: bool, active: bool, newId: Id, expiresAt: int)

  datatype Event =
    | Refresh(flight: nat, token: Id, verified: bool, sub: Account, now: int)
    | Login(flight: nat, owner: Account)
    | Logout(flight: nat, token: Id, caller: Account)
    | Continue(flight: nat, reply: Reply)
    | RevokeSession(token: Id)
    /** `revokeAllSessions`, `changePassword`, deactivation, forced reset and password reset. */
    | RevokeSessions(owner: Account, kept: Option<Id>)

  function RevokeOne(tokens: Tokens, id: Id): Tokens {
    if id in tokens then tokens[id := tokens[id].(revoked := true)] else tokens
  }

  function RevokeAll(tokens: Tokens, account: Account, kept: Option<Id>): Tokens {
    map t | t in tokens ::
      if tokens[t].account == account && !tokens[t].revoked && kept != Some(t)
      then tokens[t].(revoked := true) else tokens[t]
  }

  /** The lookup of `refresh`: a revoked row is a theft signal, checked before anything else about it. */
  function Lookup(tokens: Tokens, id: Id, verified: bool, sub: Account, now: int): Flight {
    if !verified then Denied
    else if id in tokens && tokens[id].revoked then Killing(tokens[id].account)
    else if id !in tokens || tokens[id].expiresAt < now || tokens[id].account != sub then Denied
    else Claiming(id, sub)
  }

  function LogoutLookup(tokens: Tokens, id: Id, caller: Account): Flight {
    if id !in tokens || tokens[id].revoked || tokens[id].account != caller then Denied else LoggingOut(id)
  }

  /** The next database action of request `f`. */
  function Step(s: State, f: nat, r: Reply): State
    requires f in s.flights
  {
    if !r.ok && !(s.flights[f].Denied? || s.flights[f].Granted? || s.flights[f].LoggedOut?)
    then s.(flights := s.flights[f := Denied])
    else
      match s.flights[f]
      case Killing(account) =>
        s.(tokens := RevokeAll(s.tokens, account, None), flights := s.flights[f := Denied])
      case Claiming(id, account) =>
        if id in s.tokens && !s.tokens[id].revoked
        then s.(tokens := RevokeOne(s.tokens, id), flights := s.flights[f := Resolving(id, account)])
        else s.(flights := s.flights[f := Denied])
      case Resolving(id, account) =>
        s.(flights := s.flights[f := if r.active then Issuing(id, account) else Denied])
      case Issuing(id, account) =>
        if r.newId in s.tokens || id !in s.root then s.(flights := s.flights[f := Denied])
        else s.(tokens := s.tokens[r.newId := Token(account, r.expiresAt, false)],
                flights := s.flights[f := Granted(r.newId)],
                parent := s.parent[r.newId := id],
                root := s.root[r.newId := s.root[id]])
      case LoggingIn(account) =>
        if r.newId in s.tokens then s.(flights := s.flights[f := Denied])
        else s.(tokens := s.tokens[r.newId := Token(account, r.expiresAt, false)],
                flights := s.flights[f := Granted(r.newId)],
                root := s.root[r.newId := |s.logins|],
                logins := s.logins + [account])
      case LoggingOut(id) =>
        s.(tokens := RevokeOne(s.tokens, id), flights := s.flights[f := LoggedOut])
      case _ => s
  }

  /** Events that are not possible leave the state as it is. */
  function Fire(s: State, e: Event): State {
    match e
    case Refresh(f, token, verified, sub, now) =>
      if f in s.flights then s
      else s.(flights := s.flights[f := Lookup(s.tokens, token, verified, sub, now)])
    case Login(f, account) =>
      if f in s.flights then s else s.(flights := s.flights[f := LoggingIn(account)])
    case Logout(f, token, caller) =>
      if f in s.flights then s else s.(flights := s.flights[f := LogoutLookup(s.tokens, token, caller)])
    case Continue(f, reply) => if f in s.flights then Step(s, f, reply) else s
    case RevokeSession(token) => s.(tokens := RevokeOne(s.tokens, token))
    case RevokeSessions(account, kept) => s.(tokens := RevokeAll(s.tokens, account, kept))
  }

  function FireAll(s: State, es: seq<Event>): State
    decreases |es|
  {
    if es == [] then s else FireAll(Fire(s, es[0]), es[1..])
  }

  // ----- linearity -----------------------------------------------------

  /** What can become the next token of a login: a live row, or a claimed row whose successor is on its way. */
  datatype Head = Row(id: Id) | InFlight(flight: nat, claimed: Id)

  predicate Rotating(f: Flight) {
    f.Resolving? || f.Issuing?
  }

  predicate IsHead(s: State, h: Head) {
    match h
    case Row(id) => id in s.tokens && !s.tokens[id].revoked
    case InFlight(f, id) => f in s.flights && Rotating(s.flights[f]) && s.flights[f].id == id
  }

  function TokenOf(h: Head): Id {
    match h
    case Row(id) => id
    case InFlight(_, id) => id
  }

  /** No token was rotated twice. */
  ghost predicate OneSuccessor(s: State) {
    forall a, b | a in s.parent && b in s.parent && s.parent[a] == s.parent[b] :: a == b
  }

  /** Every login has at most one head. */
  ghost predicate OneHeadPerLogin(s: State) {
    forall h, h' | IsHead(s, h) && IsHead(s, h') && TokenOf(h) in s.root && TokenOf(h') in s.root
                   && s.root[TokenOf(h)] == s.root[TokenOf(h')] :: h == h'
  }

  ghost predicate HistoryHolds(s: State) {
    && s.root.Keys == s.tokens.Keys
    && (forall t | t in s.tokens :: s.root[t] < |s.logins| && s.logins[s.root[t]] == s.tokens[t].account)
    && (forall t | t in s.parent :: t in s.tokens && s.parent[t] in s.tokens && s.tokens[s.parent[t]].revoked)
  }

  ghost predicate FlightsHold(s: State) {
    && (forall f | f in s.flights && (s.flights[f].Claiming? || Rotating(s.flights[f])) ::
          s.flights[f].id in s.tokens && s.tokens[s.flights[f].id].account == s.flights[f].account)
    && (forall f | f in s.flights && Rotating(s.flights[f]) ::
          s.tokens[s.flights[f].id].revoked && Unrotated(s.parent, s.flights[f].id))
  }

  ghost predicate Unrotated(parent: map<Id, Id>, id: Id) {
    forall t | t in parent :: parent[t] != id
  }

  ghost predicate Inv(s: State) {
    HistoryHolds(s) && FlightsHold(s) && OneSuccessor(s) && OneHeadPerLogin(s)
  }

  /** Heads only disappear. */
  lemma FewerHeads(s: State, s': State)
    requires OneHeadPerLogin(s) && s'.root == s.root
    requires forall h | IsHead(s', h) :: IsHead(s, h)
    ensures OneHeadPerLogin(s')
  {
    hide IsHead;
  }

  /** `next` takes the place of `gone`. */
  lemma HeadReplaced(s: State, s': State, gone: Head, next: Head)
    requires OneHeadPerLogin(s) && IsHead(s, gone) && TokenOf(gone) in s.root
    requires TokenOf(next) in s'.root && s'.root[TokenOf(next)] == s.root[TokenOf(gone)]
    requires forall h | IsHead(s', h) ::
               h == next || (IsHead(s, h) && h != gone && TokenOf(h) in s.root && TokenOf(h) in s'.root
                             && s'.root[TokenOf(h)] == s.root[TokenOf(h)])
    ensures OneHeadPerLogin(s')
  {
    hide IsHead, TokenOf;
  }

  /** `next` starts a new login. */
  lemma HeadAdded(s: State, s': State, next: Head)
    requires OneHeadPerLogin(s) && TokenOf(next) in s'.root
    requires forall h | IsHead(s', h) ::
               h == next || (IsHead(s, h) && TokenOf(h) in s.root && TokenOf(h) in s'.root
                             && s'.root[TokenOf(h)] == s.root[TokenOf(h)] != s'.root[TokenOf(next)])
    ensures OneHeadPerLogin(s')
  {
    hide IsHead, TokenOf;
  }

  lemma HeadsAreRows(s: State, h: Head)
    requires HistoryHolds(s) && FlightsHold(s) && IsHead(s, h)
    ensures TokenOf(h) in s.tokens && TokenOf(h) in s.root
  {
  }

  lemma RevokingKeepsInv(s: State, tokens: Tokens)
    requires Inv(s) && tokens.Keys == s.tokens.Keys
    requires forall t | t in tokens :: tokens[t].account == s.tokens[t].account && (s.tokens[t].revoked ==> tokens[t].revoked)
    ensures Inv(s.(tokens := tokens))
  {
    FewerHeads(s, s.(tokens := tokens));
    hide OneHeadPerLogin, IsHead, Unrotated;
  }

  /** Ending a flight, or starting one that has claimed nothing. */
  lemma FlightKeepsInv(s: State, f: nat, flight: Flight)
    requires Inv(s) && !Rotating(flight)
    requires flight.Claiming? ==> flight.id in s.tokens && s.tokens[flight.id].account == flight.account
    ensures Inv(s.(flights := s.flights[f := flight]))
  {
    FewerHeads(s, s.(flights := s.flights[f := flight]));
    hide OneHeadPerLogin, IsHead, Unrotated;
  }

  lemma ClaimKeepsInv(s: State, f: nat, r: Reply)
    requires Inv(s) && f in s.flights && s.flights[f].Claiming? && r.ok && !s.tokens[s.flights[f].id].revoked
    ensures Inv(Step(s, f, r))
  {
    var id := s.flights[f].id;
    ClaimKeepsRows(s, f, r);
    ClaimMovesHead(s, f, r);
    hide OneHeadPerLogin, IsHead, Unrotated;
    HeadReplaced(s, Step(s, f, r), Row(id), InFlight(f, id));
  }

  lemma ClaimMovesHead(s: State, f: nat, r: Reply)
    requires HistoryHolds(s) && FlightsHold(s)
    requires f in s.flights && s.flights[f].Claiming? && r.ok && !s.tokens[s.flights[f].id].revoked
    ensures IsHead(s, Row(s.flights[f].id))
    ensures forall h | IsHead(Step(s, f, r), h) ::
              h == InFlight(f, s.flights[f].id) || (IsHead(s, h) && h != Row(s.flights[f].id) && TokenOf(h) in s.root)
  {
    hide Unrotated;
    forall h | IsHead(Step(s, f, r), h) && h != InFlight(f, s.flights[f].id)
      ensures IsHead(s, h) && h != Row(s.flights[f].id)
    {
    }
    forall h | IsHead(s, h) {
      HeadsAreRows(s, h);
    }
  }

  lemma ClaimKeepsRows(s: State, f: nat, r: Reply)
    requires HistoryHolds(s) && FlightsHold(s) && OneSuccessor(s)
    requires f in s.flights && s.flights[f].Claiming? && r.ok && !s.tokens[s.flights[f].id].revoked
    ensures var s' := Step(s, f, r); HistoryHolds(s') && FlightsHold(s') && OneSuccessor(s')
  {
    assert Unrotated(s.parent, s.flights[f].id);
    hide Unrotated;
  }

  lemma ResolveKeepsInv(s: State, f: nat, r: Reply)
    requires Inv(s) && f in s.flights && s.flights[f].Resolving? && r.ok && r.active
    ensures Inv(Step(s, f, r))
  {
    FewerHeads(s, Step(s, f, r));
    hide OneHeadPerLogin, IsHead, Unrotated;
  }

  lemma IssueKeepsInv(s: State, f: nat, r: Reply)
    requires Inv(s) && f in s.flights && s.flights[f].Issuing? && r.ok && r.newId !in s.tokens
    ensures Inv(Step(s, f, r))
  {
    var id := s.flights[f].id;
    forall g | g in s.flights && Rotating(s.flights[g]) && s.flights[g].id == id
      ensures g == f
    {
      assert IsHead(s, InFlight(f, id)) && IsHead(s, InFlight(g, id));
    }
    IssueMovesHead(s, f, r);
    IssueKeepsRows(s, f, r);
    hide OneHeadPerLogin, IsHead, Unrotated;
    HeadReplaced(s, Step(s, f, r), InFlight(f, id), Row(r.newId));
  }

  lemma IssueMovesHead(s: State, f: nat, r: Reply)
    requires HistoryHolds(s) && FlightsHold(s)
    requires f in s.flights && s.flights[f].Issuing? && r.ok && r.newId !in s.tokens
    ensures IsHead(s, InFlight(f, s.flights[f].id))
    ensures forall h | IsHead(Step(s, f, r), h) ::
              h == Row(r.newId) || (IsHead(s, h) && h != InFlight(f, s.flights[f].id) && TokenOf(h) in s.root)
  {
    hide Unrotated;
    forall h | IsHead(Step(s, f, r), h) && h != Row(r.newId)
      ensures IsHead(s, h) && h != InFlight(f, s.flights[f].id)
    {
    }
    forall h | IsHead(s, h) {
      HeadsAreRows(s, h);
    }
  }

  lemma IssueKeepsRows(s: State, f: nat, r: Reply)
    requires HistoryHolds(s) && FlightsHold(s) && OneSuccessor(s)
    requires f in s.flights && s.flights[f].Issuing? && r.ok && r.newId !in s.tokens
    requires forall g | g in s.flights && Rotating(s.flights[g]) && s.flights[g].id == s.flights[f].id :: g == f
    ensures var s' := Step(s, f, r); HistoryHolds(s') && FlightsHold(s') && OneSuccessor(s')
  {
    IssueKeepsFlights(s, f, r);
    assert Unrotated(s.parent, s.flights[f].id);
    hide FlightsHold;
  }

  lemma IssueKeepsFlights(s: State, f: nat, r: Reply)
    requires FlightsHold(s) && s.root.Keys == s.tokens.Keys
    requires f in s.flights && s.flights[f].Issuing? && r.ok && r.newId !in s.tokens
    requires forall g | g in s.flights && Rotating(s.flights[g]) && s.flights[g].id == s.flights[f].id :: g == f
    ensures FlightsHold(Step(s, f, r))
  {
    var s' := Step(s, f, r);
    forall g | g in s'.flights && Rotating(s'.flights[g])
      ensures Unrotated(s'.parent, s'.flights[g].id)
    {
      assert Unrotated(s.parent, s.flights[g].id);
    }
    hide Unrotated;
  }

  lemma LoginKeepsInv(s: State, f: nat, r: Reply)
    requires Inv(s) && f in s.flights && s.flights[f].LoggingIn? && r.ok && r.newId !in s.tokens
    ensures Inv(Step(s, f, r))
  {
    LoginAddsHead(s, f, r);
    LoginKeepsRows(s, f, r);
    hide OneHeadPerLogin, IsHead, Unrotated;
    HeadAdded(s, Step(s, f, r), Row(r.newId));
  }

  lemma LoginAddsHead(s: State, f: nat, r: Reply)
    requires HistoryHolds(s) && FlightsHold(s)
    requires f in s.flights && s.flights[f].LoggingIn? && r.ok && r.newId !in s.tokens
    ensures forall h | IsHead(Step(s, f, r), h) ::
              h == Row(r.newId) || (IsHead(s, h) && TokenOf(h) in s.root && s.root[TokenOf(h)] < |s.logins|)
  {
    hide Unrotated;
    forall h | IsHead(Step(s, f, r), h) && h != Row(r.newId)
      ensures IsHead(s, h)
    {
    }
    forall h | IsHead(s, h) {
      HeadsAreRows(s, h);
    }
  }

  lemma LoginKeepsRows(s: State, f: nat, r: Reply)
    requires HistoryHolds(s) && FlightsHold(s) && OneSuccessor(s)
    requires f in s.flights && s.flights[f].LoggingIn? && r.ok && r.newId !in s.tokens
    ensures var s' := Step(s, f, r); HistoryHolds(s') && FlightsHold(s') && OneSuccessor(s')
  {
    hide Unrotated;
  }

  lemma StepKeepsInv(s: State, f: nat, r: Reply)
    requires Inv(s) && f in s.flights
    ensures Inv(Step(s, f, r))
  {
    hide Inv;
    var s' := Step(s, f, r);
    match s.flights[f]
    case Killing(account) =>
      if r.ok {
        KillKeepsInv(s, account, f);
      } else {
        FlightKeepsInv(s, f, Denied);
      }
    case Claiming(id, _) =>
      if r.ok && id in s.tokens && !s.tokens[id].revoked {
        ClaimKeepsInv(s, f, r);
      } else {
        FlightKeepsInv(s, f, Denied);
      }
    case Resolving(_, _) =>
      if r.ok && r.active {
        ResolveKeepsInv(s, f, r);
      } else {
        FlightKeepsInv(s, f, Denied);
      }
    case Issuing(id, _) =>
      if r.ok && r.newId !in s.tokens && id in s.root {
        IssueKeepsInv(s, f, r);
      } else {
        FlightKeepsInv(s, f, Denied);
      }
    case LoggingIn(_) =>
      if r.ok && r.newId !in s.tokens {
        LoginKeepsInv(s, f, r);
      } else {
        FlightKeepsInv(s, f, Denied);
      }
    case LoggingOut(id) =>
      if r.ok {
        RevokingKeepsInv(s, RevokeOne(s.tokens, id));
        FlightKeepsInv(s.(tokens := RevokeOne(s.tokens, id)), f, LoggedOut);
      } else {
        FlightKeepsInv(s, f, Denied);
      }
    case _ =>
  }

  lemma KillKeepsInv(s: State, account: Account, f: nat)
    requires Inv(s)
    ensures Inv(s.(tokens := RevokeAll(s.tokens, account, None), flights := s.flights[f := Denied]))
  {
    hide Inv;
    RevokingKeepsInv(s, RevokeAll(s.tokens, account, None));
    FlightKeepsInv(s.(tokens := RevokeAll(s.tokens, account, None)), f, Denied);
  }

  lemma FireKeepsInv(s: State, e: Event)
    requires Inv(s)
    ensures Inv(Fire(s, e))
  {
    hide Inv;
    match e
    case Refresh(f, token, verified, sub, now) =>
      if f !in s.flights {
        FlightKeepsInv(s, f, Lookup(s.tokens, token, verified, sub, now));
      }
    case Login(f, account) =>
      if f !in s.flights {
        FlightKeepsInv(s, f, LoggingIn(account));
      }
    case Logout(f, token, caller) =>
      if f !in s.flights {
        FlightKeepsInv(s, f, LogoutLookup(s.tokens, token, caller));
      }
    case Continue(f, reply) =>
      if f in s.flights {
        StepKeepsInv(s, f, reply);
      }
    case RevokeSession(token) =>
      RevokingKeepsInv(s, RevokeOne(s.tokens, token));
    case RevokeSessions(account, kept) =>
      RevokingKeepsInv(s, RevokeAll(s.tokens, account, kept));
  }

  lemma {:induction false} RunsKeepInv(s: State, es: seq<Event>)
    requires Inv(s)
    ensures Inv(FireAll(s, es))
    decreases |es|
  {
    hide Inv;
    if es != [] {
      FireKeepsInv(s, es[0]);
      RunsKeepInv(Fire(s, es[0]), es[1..]);
    }
  }

  // ----- heads are bounded by logins -----------------------------------

  /** Rows of the account that are live, and its rotations that have claimed but not yet issued. */
  ghost function LiveRows(s: State, account: Account): set<Head> {
    set t | t in s.tokens && !s.tokens[t].revoked && s.tokens[t].account == account :: Row(t)
  }

  ghost function Rotations(s: State, account: Account): set<Head> {
    set f | f in s.flights && Rotating(s.flights[f]) && s.flights[f].account == account :: InFlight(f, s.flights[f].id)
  }

  ghost function LoginsOf(s: State, account: Account): set<nat> {
    set n | 0 <= n < |s.logins| && s.logins[n] == account
  }

  /** An injection into a finite set bounds the size of its domain. */
  lemma {:induction false} InjectionBounds(heads: set<Head>, rootOf: map<Head, nat>, roots: set<nat>)
    requires forall h | h in heads :: h in rootOf && rootOf[h] in roots
    requires forall h, h' | h in heads && h' in heads && rootOf[h] == rootOf[h'] :: h == h'
    ensures |heads| <= |roots|
    decreases |heads|
  {
    if heads != {} {
      var h :| h in heads;
      InjectionBounds(heads - {h}, rootOf, roots - {rootOf[h]});
    }
  }

  /** The live rows and the rotations in flight of one account. */
  ghost function Heads(s: State, account: Account): set<Head> {
    LiveRows(s, account) + Rotations(s, account)
  }

  lemma HeadsAreOfTheAccount(s: State, account: Account, h: Head)
    requires HistoryHolds(s) && FlightsHold(s) && h in Heads(s, account)
    ensures IsHead(s, h) && TokenOf(h) in s.root && s.root[TokenOf(h)] in LoginsOf(s, account)
  {
    HeadsAreRows(s, h);
  }

  lemma HeadsBoundedByLogins(s: State, account: Account)
    requires Inv(s)
    ensures |LiveRows(s, account)| + |Rotations(s, account)| <= |LoginsOf(s, account)|
  {
    var heads := Heads(s, account);
    assert LiveRows(s, account) !! Rotations(s, account);
    assert |heads| == |LiveRows(s, account)| + |Rotations(s, account)|;
    forall h | h in heads
      ensures IsHead(s, h) && TokenOf(h) in s.root && s.root[TokenOf(h)] in LoginsOf(s, account)
    {
      HeadsAreOfTheAccount(s, account, h);
    }
    hide HistoryHolds, FlightsHold, OneSuccessor, IsHead, Heads, LiveRows, Rotations, LoginsOf, TokenOf;
    var rootOf := map h | h in heads && TokenOf(h) in s.root :: s.root[TokenOf(h)];
    InjectionBounds(heads, rootOf, LoginsOf(s, account));
  }

  // ----- the theorems --------------------------------------------------

  /**
   * Under every interleaving of refreshes, logins, logouts, reuse kills and
   * revocations: a token has at most one successor, a login at most one head,
   * and live rows plus rotations in flight never exceed the logins of their account.
   */
  lemma RotationIsLinear(s: State, es: seq<Event>)
    requires Inv(s)
    ensures OneSuccessor(FireAll(s, es)) && OneHeadPerLogin(FireAll(s, es))
    ensures forall a: Account ::
              |LiveRows(FireAll(s, es), a)| + |Rotations(FireAll(s, es), a)| <= |LoginsOf(FireAll(s, es), a)|
  {
    RunsKeepInv(s, es);
    forall a: Account {
      HeadsBoundedByLogins(FireAll(s, es), a);
    }
  }

  ghost predicate KeepsRevoked(s: State, s': State) {
    forall t | t in s.tokens && s.tokens[t].revoked :: t in s'.tokens && s'.tokens[t].revoked
  }

  lemma FireKeepsRevoked(s: State, e: Event)
    ensures KeepsRevoked(s, Fire(s, e))
  {
  }

  /** A revoked token stays revoked, whatever happens. */
  lemma {:induction false} RevokedStaysRevoked(s: State, es: seq<Event>)
    ensures KeepsRevoked(s, FireAll(s, es))
    decreases |es|
  {
    if es != [] {
      FireKeepsRevoked(s, es[0]);
      hide Fire;
      RevokedStaysRevoked(Fire(s, es[0]), es[1..]);
    }
  }

  // ----- one request on its own ----------------------------------------

  /** The table after a refresh that nothing interleaves with, and the token it hands out. */
  function Refreshed(tokens: Tokens, id: Id, verified: bool, sub: Account, now: int, r: Reply): (Tokens, Option<Id>) {
    if verified && id in tokens && tokens[id].revoked then (RevokeAll(tokens, tokens[id].account, None), None)
    else if !verified || id !in tokens || tokens[id].account != sub || tokens[id].expiresAt < now then (tokens, None)
    else if !r.active then (RevokeOne(tokens, id), None)
    else (RevokeOne(tokens, id)[r.newId := Token(sub, r.expiresAt, false)], Some(r.newId))
  }

  /** Four steps of one request with nothing between them amount to `Refreshed`. */
  lemma UndisturbedRefresh(s: State, f: nat, id: Id, verified: bool, sub: Account, now: int, r: Reply)
    requires Inv(s) && f !in s.flights && r.ok && r.newId !in s.tokens
    ensures var s' := FireAll(s, [Refresh(f, id, verified, sub, now), Continue(f, r), Continue(f, r), Continue(f, r)]);
            var (tokens, granted) := Refreshed(s.tokens, id, verified, sub, now, r);
            && s'.tokens == tokens
            && s'.flights == s.flights[f := match granted case Some(t) => Granted(t) case None => Denied]
  {
    assert s.root.Keys == s.tokens.Keys;
    hide Inv, FireAll;
    var e := Continue(f, r);
    FireFour(s, Refresh(f, id, verified, sub, now), e, e, e);
    var s1 := Fire(s, Refresh(f, id, verified, sub, now));
    if s1.flights[f].Claiming? {
      ClaimingFlightEnds(s1, f, r);
    } else {
      assert Fire(s1, e).flights[f] == Denied;
    }
  }

  lemma ClaimingFlightEnds(s: State, f: nat, r: Reply)
    requires f in s.flights && s.flights[f].Claiming? && r.ok && s.root.Keys == s.tokens.Keys
    requires var id := s.flights[f].id; id in s.tokens && !s.tokens[id].revoked && r.newId !in s.tokens
    ensures var e, id, sub := Continue(f, r), s.flights[f].id, s.flights[f].account;
            var s' := Fire(Fire(Fire(s, e), e), e);
            if r.active
            then s'.tokens == RevokeOne(s.tokens, id)[r.newId := Token(sub, r.expiresAt, false)]
                 && s'.flights == s.flights[f := Granted(r.newId)]
            else s'.tokens == RevokeOne(s.tokens, id) && s'.flights == s.flights[f := Denied]
  {
    var e := Continue(f, r);
    assert Fire(s, e).flights[f] == Resolving(s.flights[f].id, s.flights[f].account);
  }

  lemma FireFour(s: State, e0: Event, e1: Event, e2: Event, e3: Event)
    ensures FireAll(s, [e0, e1, e2, e3]) == Fire(Fire(Fire(Fire(s, e0), e1), e2), e3)
  {
    hide Fire;
    FireFirst(s, e0, [e1, e2, e3]);
    FireFirst(Fire(s, e0), e1, [e2, e3]);
    FireFirst(Fire(Fire(s, e0), e1), e2, [e3]);
    FireFirst(Fire(Fire(Fire(s, e0), e1), e2), e3, []);
    assert [e0] + [e1, e2, e3] == [e0, e1, e2, e3] && [e1] + [e2, e3] == [e1, e2, e3];
    assert [e2] + [e3] == [e2, e3] && [e3] + [] == [e3];
  }

  lemma FireFirst(s: State, e: Event, rest: seq<Event>)
    ensures FireAll(s, [e] + rest) == FireAll(Fire(s, e), rest)
  {
    hide Fire;
    assert ([e] + rest)[1..] == rest;
  }

  class AuthService {
    var tokens: Tokens

    constructor ()
      ensures tokens == map[]
    {
      tokens := map[];
    }

    /** `updateMany` guarded by `revokedAt: null`; the number of rows it changed. */
    method RevokeWhere(account: Account, kept: Option<Id>) returns (count: nat)
      modifies this
      ensures tokens.Keys == old(tokens).Keys
      ensures forall t | t in tokens :: tokens[t] ==
                if old(tokens)[t].account == account && kept != Some(t) then old(tokens)[t].(revoked := true)
                else old(tokens)[t]
      ensures tokens == RevokeAll(old(tokens), account, kept)
      ensures count == |set t | t in tokens && tokens[t] != old(tokens)[t]|
    {
      var hit := set t | t in tokens && tokens[t].account == account && !tokens[t].revoked && kept != Some(t);
      tokens := map t | t in tokens :: if t in hit then tokens[t].(revoked := true) else tokens[t];
      count := |hit|;
      assert hit == set t | t in tokens && tokens[t] != old(tokens)[t];
    }

    /** Conditional revocation of one row: only one of any number of callers gets `true`. */
    method Claim(id: Id) returns (won: bool)
      modifies this
      ensures won <==> id in old(tokens) && !old(tokens)[id].revoked
      ensures tokens == if won then RevokeOne(old(tokens), id) else old(tokens)
    {
      won := id in tokens && !tokens[id].revoked;
      if won {
        tokens := tokens[id := Token(tokens[id].account, tokens[id].expiresAt, true)];
      }
    }

    method IssueRefreshToken(account: Account, r: Reply) returns (token: Id)
      requires r.newId !in tokens
      modifies this
      ensures token == r.newId && tokens == old(tokens)[token := Token(account, r.expiresAt, false)]
    {
      token := r.newId;
      tokens := tokens[token := Token(account, r.expiresAt, false)];
    }

    method RefreshTokens(id: Id, verified: bool, sub: Account, now: int, r: Reply) returns (granted: Option<Id>)
      requires r.newId !in tokens
      modifies this
      ensures (tokens, granted) == Refreshed(old(tokens), id, verified, sub, now, r)
    {
      if !verified {
        return None;
      }
      if id in tokens && tokens[id].revoked {
        var _ := RevokeWhere(tokens[id].account, None);
        return None;
      }
      if id !in tokens || tokens[id].expiresAt < now || tokens[id].account != sub {
        return None;
      }
      var won := Claim(id);
      if !won || !r.active {
        return None;
      }
      var token := IssueRefreshToken(sub, r);
      granted := Some(token);
    }

    /** Needs a live row of the caller. */
    method LogOut(id: Id, caller: Account) returns (ok: bool)
      modifies this
      ensures ok <==> id in old(tokens) && !old(tokens)[id].revoked && old(tokens)[id].account == caller
      ensures tokens == if ok then RevokeOne(old(tokens), id) else old(tokens)
    {
      if id !in tokens || tokens[id].revoked || tokens[id].account != caller {
        return false;
      }
      ok := Claim(id);
    }
  }

  /** After a reuse kill the account has no live row, and no other account has lost one. */
  lemma ReuseEndsEverySession(tokens: Tokens, id: Id, sub: Account, now: int, r: Reply)
    requires id in tokens && tokens[id].revoked
    ensures var (after, granted) := Refreshed(tokens, id, true, sub, now, r);
            && granted == None
            && (forall t | t in after && after[t].account == tokens[id].account :: after[t].revoked)
            && (forall t | t in tokens && tokens[t].account != tokens[id].account :: t in after && after[t] == tokens[t])
  {
  }
}
