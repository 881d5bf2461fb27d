/**
 * How long a bulk revocation lasts: without a new login an account never has
 * more live tokens than it had rotations in flight when it was revoked.
 */
module SessionRevocation {
  import opened Wrappers
  import opened TokenRotation

  predicate OfAccount(s: State, h: Head, account: Account) {
    TokenOf(h) in s.tokens && s.tokens[TokenOf(h)].account == account
  }

  lemma HeadsByToken(s: State, account: Account, h: Head)
    requires HistoryHolds(s) && FlightsHold(s)
    ensures h in Heads(s, account) <==> IsHead(s, h) && OfAccount(s, h, account)
  {
    match h
    case Row(id) =>
    case InFlight(f, id) =>
      if IsHead(s, h) && s.flights[f].account == account {
        assert InFlight(f, s.flights[f].id) in Rotations(s, account);
      }
  }

  /** At most one new member, and only in exchange for an old one. */
  lemma Exchanged(before: set<Head>, after: set<Head>, gone: Option<Head>, next: Option<Head>)
    requires forall h | h in after :: Some(h) == next || (h in before && Some(h) != gone)
    requires next.Some? && next.value in after ==> gone.Some? && gone.value in before
    ensures |after| <= |before|
  {
    if next.Some? && next.value in after {
      SubsetIsSmaller(after - {next.value}, before - {gone.value});
    } else {
      SubsetIsSmaller(after, before);
    }
  }

  /** Every head after the event was a head before, but for one that replaces one. */
  lemma NoMoreHeads(s: State, s': State, account: Account, gone: Option<Head>, next: Option<Head>)
    requires Inv(s) && Inv(s') && (next.Some? ==> gone.Some?)
    requires gone.Some? ==> IsHead(s, gone.value)
    requires next.Some? ==> (OfAccount(s', next.value, account) ==> OfAccount(s, gone.value, account))
    requires forall h | IsHead(s', h) && OfAccount(s', h, account) ::
               Some(h) == next || (IsHead(s, h) && OfAccount(s, h, account) && Some(h) != gone)
    ensures |Heads(s', account)| <= |Heads(s, account)|
  {
    hide Heads, IsHead, OfAccount, HistoryHolds, FlightsHold, OneSuccessor, OneHeadPerLogin;
    forall h
      ensures h in Heads(s', account) <==> IsHead(s', h) && OfAccount(s', h, account)
    {
      HeadsByToken(s', account, h);
    }
    forall h
      ensures h in Heads(s, account) <==> IsHead(s, h) && OfAccount(s, h, account)
    {
      HeadsByToken(s, account, h);
    }
    Exchanged(Heads(s, account), Heads(s', account), gone, next);
  }

  predicate LogsIn(s: State, e: Event, account: Account) {
    e.Continue? && e.flight in s.flights && s.flights[e.flight] == LoggingIn(account)
  }

  lemma ClaimKeepsCount(s: State, f: nat, r: Reply, account: Account)
    requires f in s.flights && Inv(s) && Inv(Step(s, f, r))
    requires s.flights[f].Claiming? && r.ok && !s.tokens[s.flights[f].id].revoked
    ensures |Heads(Step(s, f, r), account)| <= |Heads(s, account)|
  {
    var id := s.flights[f].id;
    ClaimMovesHead(s, f, r);
    assert forall h :: OfAccount(Step(s, f, r), h, account) == OfAccount(s, h, account);
    hide Inv, Heads, IsHead;
    NoMoreHeads(s, Step(s, f, r), account, Some(Row(id)), Some(InFlight(f, id)));
  }

  lemma IssueKeepsCount(s: State, f: nat, r: Reply, account: Account)
    requires f in s.flights && Inv(s) && Inv(Step(s, f, r))
    requires s.flights[f].Issuing? && r.ok && r.newId !in s.tokens
    ensures |Heads(Step(s, f, r), account)| <= |Heads(s, account)|
  {
    var id := s.flights[f].id;
    IssueMovesHead(s, f, r);
    assert forall h | TokenOf(h) in s.tokens :: OfAccount(Step(s, f, r), h, account) == OfAccount(s, h, account);
    assert s.root.Keys == s.tokens.Keys;
    hide Inv, Heads, IsHead;
    NoMoreHeads(s, Step(s, f, r), account, Some(InFlight(f, id)), Some(Row(r.newId)));
  }

  lemma OtherLoginKeepsCount(s: State, f: nat, r: Reply, account: Account)
    requires f in s.flights && Inv(s) && Inv(Step(s, f, r))
    requires s.flights[f].LoggingIn? && s.flights[f].account != account && r.ok && r.newId !in s.tokens
    ensures |Heads(Step(s, f, r), account)| <= |Heads(s, account)|
  {
    LoginAddsHead(s, f, r);
    assert forall h | TokenOf(h) in s.tokens :: OfAccount(Step(s, f, r), h, account) == OfAccount(s, h, account);
    assert s.root.Keys == s.tokens.Keys;
    assert !OfAccount(Step(s, f, r), Row(r.newId), account);
    hide Inv, Heads, IsHead;
    NoMoreHeads(s, Step(s, f, r), account, None, None);
  }

  /** Anything that issues no row: heads stay or go. */
  lemma QuietKeepsCount(s: State, s': State, account: Account)
    requires Inv(s) && Inv(s') && s'.tokens.Keys == s.tokens.Keys
    requires forall t | t in s.tokens :: s'.tokens[t].account == s.tokens[t].account
    requires forall h | IsHead(s', h) :: IsHead(s, h)
    ensures |Heads(s', account)| <= |Heads(s, account)|
  {
    assert forall h :: OfAccount(s', h, account) == OfAccount(s, h, account);
    hide Inv, Heads, IsHead;
    NoMoreHeads(s, s', account, None, None);
  }

  lemma StepKeepsCount(s: State, f: nat, r: Reply, account: Account)
    requires Inv(s) && f in s.flights && s.flights[f] != LoggingIn(account)
    ensures |Heads(Step(s, f, r), account)| <= |Heads(s, account)|
  {
    StepKeepsInv(s, f, r);
    var flight := s.flights[f];
    if flight.Claiming? && r.ok && !s.tokens[flight.id].revoked {
      hide Inv, Heads;
      ClaimKeepsCount(s, f, r, account);
    } else if flight.Issuing? && r.ok && r.newId !in s.tokens {
      hide Inv, Heads;
      IssueKeepsCount(s, f, r, account);
    } else if flight.LoggingIn? && r.ok && r.newId !in s.tokens {
      hide Inv, Heads;
      OtherLoginKeepsCount(s, f, r, account);
    } else {
      QuietStep(s, f, r);
      hide Inv, Heads, Step;
      QuietKeepsCount(s, Step(s, f, r), account);
    }
  }

  lemma QuietStep(s: State, f: nat, r: Reply)
    requires f in s.flights && s.root.Keys == s.tokens.Keys
    requires s.flights[f].Claiming? ==> s.flights[f].id in s.tokens && !(r.ok && !s.tokens[s.flights[f].id].revoked)
    requires s.flights[f].Issuing? ==> s.flights[f].id in s.tokens && !(r.ok && r.newId !in s.tokens)
    requires s.flights[f].LoggingIn? ==> !(r.ok && r.newId !in s.tokens)
    ensures var s' := Step(s, f, r);
            && s'.tokens.Keys == s.tokens.Keys
            && (forall t | t in s.tokens :: s'.tokens[t].account == s.tokens[t].account)
            && (forall h | IsHead(s', h) :: IsHead(s, h))
  {
  }

  lemma FireKeepsCount(s: State, e: Event, account: Account)
    requires Inv(s) && !LogsIn(s, e, account)
    ensures |Heads(Fire(s, e), account)| <= |Heads(s, account)|
  {
    if e.Continue? && e.flight in s.flights {
      hide Inv, Heads, Step;
      StepKeepsCount(s, e.flight, e.reply, account);
    } else {
      FireKeepsInv(s, e);
      QuietEvent(s, e);
      hide Inv, Heads, Fire;
      QuietKeepsCount(s, Fire(s, e), account);
    }
  }

  lemma QuietEvent(s: State, e: Event)
    requires !(e.Continue? && e.flight in s.flights)
    ensures var s' := Fire(s, e);
            && s'.tokens.Keys == s.tokens.Keys
            && (forall t | t in s.tokens :: s'.tokens[t].account == s.tokens[t].account)
            && (forall h | IsHead(s', h) :: IsHead(s, h))
  {
  }

  ghost predicate NoLogin(s: State, es: seq<Event>, account: Account)
    decreases |es|
  {
    es == [] || (!LogsIn(s, es[0], account) && NoLogin(Fire(s, es[0]), es[1..], account))
  }

  lemma {:induction false} RunsKeepCount(s: State, es: seq<Event>, account: Account)
    requires Inv(s) && NoLogin(s, es, account)
    ensures |Heads(FireAll(s, es), account)| <= |Heads(s, account)|
    decreases |es|
  {
    hide Inv, Fire, Heads, LogsIn;
    if es != [] {
      FireKeepsInv(s, es[0]);
      FireKeepsCount(s, es[0], account);
      RunsKeepCount(Fire(s, es[0]), es[1..], account);
    }
  }

  /**
   * A bulk revocation lasts: until the account logs in again it never has more
   * live rows than it had rotations in flight at that moment, and none if it had none.
   */
  lemma RevocationLasts(s: State, es: seq<Event>, account: Account)
    requires Inv(s) && NoLogin(Fire(s, RevokeSessions(account, None)), es, account)
    ensures var s' := FireAll(Fire(s, RevokeSessions(account, None)), es);
            |LiveRows(s', account)| <= |Rotations(s, account)|
  {
    hide Inv, FireAll, NoLogin;
    var revoked := Fire(s, RevokeSessions(account, None));
    FireKeepsInv(s, RevokeSessions(account, None));
    OnlyRotationsRemain(s, account);
    hide Fire;
    RunsKeepCount(revoked, es, account);
    var s' := FireAll(revoked, es);
    SubsetIsSmaller(LiveRows(s', account), Heads(s', account));
  }

  lemma OnlyRotationsRemain(s: State, account: Account)
    ensures Heads(Fire(s, RevokeSessions(account, None)), account) == Rotations(s, account)
  {
    var revoked := Fire(s, RevokeSessions(account, None));
    assert LiveRows(revoked, account) == {};
    assert Rotations(revoked, account) == Rotations(s, account);
  }

  /** The row a claimed rotation stores if its remaining actions go on with these replies; `None` if it ends with nothing. */
  function Outcome(tokens: Tokens, flight: Flight, resolved: Reply, issued: Reply): Option<Id>
    requires Rotating(flight)
  {
    if (flight.Resolving? ==> resolved.ok && resolved.active) && issued.ok && issued.newId !in tokens
    then Some(issued.newId) else None
  }

  /** The remaining actions of a rotation: reading the actor, unless that is done, and storing the successor. */
  function Finish(s: State, f: nat, resolved: Reply, issued: Reply): State
    requires f in s.flights && Rotating(s.flights[f])
  {
    Fire(if s.flights[f].Resolving? then Fire(s, Continue(f, resolved)) else s, Continue(f, issued))
  }

  /**
   * The bound is met: whatever a rotation had still to do when everything of
   * its account was revoked, afterwards the account has a live row again if
   * and only if the actor is found active and the successor is stored.
   */
  lemma RotationOutlivesRevocation(s: State, f: nat, resolved: Reply, issued: Reply)
    requires Inv(s) && f in s.flights && Rotating(s.flights[f])
    ensures var account := s.flights[f].account;
            var revoked := Fire(s, RevokeSessions(account, None));
            && LiveRows(revoked, account) == {}
            && LiveRows(Finish(revoked, f, resolved, issued), account) ==
               (match Outcome(s.tokens, s.flights[f], resolved, issued) case Some(t) => {Row(t)} case None => {})
  {
    var account, id := s.flights[f].account, s.flights[f].id;
    var revoked := Fire(s, RevokeSessions(account, None));
    var s1 := if s.flights[f].Resolving? then Fire(revoked, Continue(f, resolved)) else revoked;
    var s2 := Finish(revoked, f, resolved, issued);
    assert id in s.root && LiveRows(revoked, account) == {} && s1.tokens == revoked.tokens;
    if Outcome(s.tokens, s.flights[f], resolved, issued).Some? {
      assert s1.flights[f] == Issuing(id, account);
      assert s2.tokens == revoked.tokens[issued.newId := Token(account, issued.expiresAt, false)];
    } else {
      assert s2.tokens == revoked.tokens;
    }
  }
}
