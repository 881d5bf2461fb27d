/**
 * Why a refresh token ends: exactly which events revoke a row, and which
 * requests those events go back to.
 */
module RevocationCauses {
  import opened Wrappers
  import opened TokenRotation

  /** The event ends row `t`: a revocation that covers it, or a request that claims it, logs it out or kills its account's sessions. */
  predicate Revokes(s: State, e: Event, t: Id)
    requires t in s.tokens
  {
    match e
    case RevokeSession(token) => token == t
    case RevokeSessions(owner, kept) => s.tokens[t].account == owner && kept != Some(t)
    case Continue(f, reply) =>
      f in s.flights && reply.ok &&
      (match s.flights[f]
       case Killing(account) => s.tokens[t].account == account
       case Claiming(id, _) => id == t
       case LoggingOut(id) => id == t
       case _ => false)
    case _ => false
  }

  /** A live row is revoked by exactly these events; otherwise no event changes a row. */
  lemma RevokedIff(s: State, e: Event, t: Id)
    requires t in s.tokens
    ensures var tokens := Fire(s, e).tokens;
            && t in tokens && tokens[t].account == s.tokens[t].account && tokens[t].expiresAt == s.tokens[t].expiresAt
            && (tokens[t].revoked <==> s.tokens[t].revoked || Revokes(s, e, t))
  {
  }

  /** A verified, unexpired refresh by the owner of row `id`. */
  ghost predicate RefreshedByOwner(past: seq<Event>, tokens: Tokens, f: nat, id: Id) {
    id in tokens && exists now :: Refresh(f, id, true, tokens[id].account, now) in past && now <= tokens[id].expiresAt
  }

  /** A verified refresh with a revoked row of the account. */
  ghost predicate Reused(past: seq<Event>, tokens: Tokens, f: nat, account: Account) {
    exists t, sub, now :: Refresh(f, t, true, sub, now) in past && t in tokens && tokens[t].revoked && tokens[t].account == account
  }

  /** The event of `past` that a request's standing goes back to. */
  ghost predicate Started(past: seq<Event>, tokens: Tokens, f: nat, flight: Flight) {
    match flight
    case Killing(account) => Reused(past, tokens, f, account)
    case Claiming(id, account) => RefreshedByOwner(past, tokens, f, id) && tokens[id].account == account
    case Resolving(id, account) => RefreshedByOwner(past, tokens, f, id) && tokens[id].account == account
    case Issuing(id, account) => RefreshedByOwner(past, tokens, f, id) && tokens[id].account == account
    case LoggingIn(account) => Login(f, account) in past
    case LoggingOut(id) => id in tokens && Logout(f, id, tokens[id].account) in past
    case Granted(t) =>
      t in tokens &&
      (Login(f, tokens[t].account) in past ||
       exists id :: RefreshedByOwner(past, tokens, f, id) && tokens[id].account == tokens[t].account)
    case Denied => true
    case LoggedOut => true
  }

  ghost predicate AllStarted(past: seq<Event>, s: State) {
    forall f | f in s.flights :: Started(past, s.tokens, f, s.flights[f])
  }

  /** Rows keep account and expiry, and stay revoked. */
  ghost predicate RowsKept(tokens: Tokens, tokens': Tokens) {
    forall t | t in tokens ::
      && t in tokens' && tokens'[t].account == tokens[t].account && tokens'[t].expiresAt == tokens[t].expiresAt
      && (tokens[t].revoked ==> tokens'[t].revoked)
  }

  lemma LaterStarted(past: seq<Event>, e: Event, tokens: Tokens, tokens': Tokens, f: nat, flight: Flight)
    requires Started(past, tokens, f, flight) && RowsKept(tokens, tokens')
    ensures Started(past + [e], tokens', f, flight)
  {
    forall id | RefreshedByOwner(past, tokens, f, id)
      ensures RefreshedByOwner(past + [e], tokens', f, id)
    {
      var now :| Refresh(f, id, true, tokens[id].account, now) in past && now <= tokens[id].expiresAt;
      assert Refresh(f, id, true, tokens'[id].account, now) in past + [e];
    }
    match flight
    case Killing(account) =>
      var t, sub, now :| Refresh(f, t, true, sub, now) in past && t in tokens && tokens[t].revoked && tokens[t].account == account;
      assert Refresh(f, t, true, sub, now) in past + [e];
    case _ =>
  }

  /** A new request stands where its event puts it. */
  lemma NewFlightStarted(past: seq<Event>, s: State, e: Event)
    requires e.Refresh? || e.Login? || e.Logout?
    requires e.flight !in s.flights
    ensures Fire(s, e).tokens == s.tokens
    ensures Started(past + [e], s.tokens, e.flight, Fire(s, e).flights[e.flight])
  {
    assert e in past + [e];
  }

  /** A request's next action leads on from where it stood. */
  lemma NextFlightStarted(past: seq<Event>, s: State, f: nat, r: Reply)
    requires f in s.flights && Started(past, s.tokens, f, s.flights[f])
    ensures Started(past + [Continue(f, r)], Step(s, f, r).tokens, f, Step(s, f, r).flights[f])
  {
    var e, s' := Continue(f, r), Step(s, f, r);
    forall t | t in s.tokens
      ensures t in s'.tokens && s'.tokens[t].account == s.tokens[t].account && s'.tokens[t].expiresAt == s.tokens[t].expiresAt
      ensures s.tokens[t].revoked ==> s'.tokens[t].revoked
    {
    }
    LaterStarted(past, e, s.tokens, s'.tokens, f, s.flights[f]);
    hide RefreshedByOwner, Reused, RowsKept, RevokeAll, RevokeOne;
  }

  lemma RowsAreKept(s: State, e: Event)
    ensures RowsKept(s.tokens, Fire(s, e).tokens)
  {
    hide Fire, Revokes;
    forall t | t in s.tokens {
      RevokedIff(s, e, t);
    }
  }

  /** An event moves the request it names, if any. */
  lemma OnlyItsFlight(s: State, e: Event, f: nat)
    requires f in Fire(s, e).flights && !(f in s.flights && Fire(s, e).flights[f] == s.flights[f])
    ensures (e.Refresh? || e.Login? || e.Logout? || e.Continue?) && e.flight == f
    ensures e.Continue? <==> f in s.flights
    ensures e.Continue? ==> Fire(s, e) == Step(s, f, e.reply)
  {
    hide Lookup, LogoutLookup, RevokeAll, RevokeOne;
  }

  lemma FireKeepsStarted(past: seq<Event>, s: State, e: Event)
    requires AllStarted(past, s)
    ensures AllStarted(past + [e], Fire(s, e))
  {
    var s' := Fire(s, e);
    RowsAreKept(s, e);
    hide Fire, Step, Started, RowsKept;
    forall f | f in s'.flights
      ensures Started(past + [e], s'.tokens, f, s'.flights[f])
    {
      if f in s.flights && s'.flights[f] == s.flights[f] {
        LaterStarted(past, e, s.tokens, s'.tokens, f, s.flights[f]);
      } else {
        OnlyItsFlight(s, e, f);
        if e.Continue? {
          NextFlightStarted(past, s, f, e.reply);
          assert e == Continue(f, e.reply);
        } else {
          NewFlightStarted(past, s, e);
        }
      }
    }
  }

  lemma {:induction false} RunsKeepStarted(past: seq<Event>, s: State, es: seq<Event>)
    requires AllStarted(past, s)
    ensures AllStarted(past + es, FireAll(s, es))
    decreases |es|
  {
    hide Fire, AllStarted;
    if es == [] {
      assert past + es == past;
    } else {
      FireKeepsStarted(past, s, es[0]);
      RunsKeepStarted(past + [es[0]], Fire(s, es[0]), es[1..]);
      assert past + [es[0]] + es[1..] == past + es;
    }
  }

  /**
   * Over every interleaving: when a live token ends, somebody revoked it or its
   * account's sessions without keeping it, its owner logged out with it, its
   * owner refreshed with it in time, or a revoked token of the same account was
   * presented. Nobody else can end it.
   */
  lemma EveryRevocationHasItsCause(s: State, es: seq<Event>, e: Event, t: Id)
    requires s.flights == map[]
    requires t in FireAll(s, es).tokens && !FireAll(s, es).tokens[t].revoked && Fire(FireAll(s, es), e).tokens[t].revoked
    ensures var tokens := FireAll(s, es).tokens;
            || e == RevokeSession(t)
            || (e.RevokeSessions? && e.owner == tokens[t].account && e.kept != Some(t))
            || (e.Continue? && e.reply.ok &&
                (|| Logout(e.flight, t, tokens[t].account) in es
                 || (exists now :: Refresh(e.flight, t, true, tokens[t].account, now) in es && now <= tokens[t].expiresAt)
                 || exists reused, sub, now :: Refresh(e.flight, reused, true, sub, now) in es
                                            && reused in tokens && tokens[reused].revoked && tokens[reused].account == tokens[t].account))
  {
    RunsKeepStarted([], s, es);
    assert [] + es == es;
    RevokedIff(FireAll(s, es), e, t);
    hide FireAll, Fire;
  }

  /** Over every interleaving: a token is handed only to a login or a timely refresh of its own account. */
  lemma GrantedToItsOwner(s: State, es: seq<Event>, f: nat)
    requires s.flights == map[] && f in FireAll(s, es).flights && FireAll(s, es).flights[f].Granted?
    ensures var tokens, t := FireAll(s, es).tokens, FireAll(s, es).flights[f].token;
            && t in tokens
            && (Login(f, tokens[t].account) in es ||
                exists id, now :: Refresh(f, id, true, tokens[t].account, now) in es
                                  && id in tokens && tokens[id].account == tokens[t].account && now <= tokens[id].expiresAt)
  {
    RunsKeepStarted([], s, es);
    assert [] + es == es;
    var tokens, t := FireAll(s, es).tokens, FireAll(s, es).flights[f].token;
    hide FireAll;
    assert Started(es, tokens, f, Granted(t));
    if Login(f, tokens[t].account) !in es {
      var id :| RefreshedByOwner(es, tokens, f, id) && tokens[id].account == tokens[t].account;
      var now :| Refresh(f, id, true, tokens[id].account, now) in es && now <= tokens[id].expiresAt;
    }
  }
}
