/**
 * When the client's stored token is dead, and so its next refresh triggers the
 * reuse kill-switch: the exact condition over every run of client and server.
 */
module ClientSessions {
  import opened Wrappers
  import opened TokenRotation
  import opened ApiClients
  import opened ClientSystem

  /** Why a token can be dead. */
  predicate Dead(h: History, t: Id) {
    t in h.lost || t in h.swept
  }

  lemma StoredIsRevokedIffDead(s: System, h: History)
    requires SystemInv(s, h) && StartsRefresh(s.client)
    ensures Revoked(s.server, s.client.stored.value) <==> Dead(h, s.client.stored.value)
    ensures Live(s.server, s.client.stored.value) <==> !Dead(h, s.client.stored.value)
  {
  }

  /**
   * After every run of one client and the server, with rotation and its
   * kill-switch the only things that revoke: the token the client would send
   * is revoked if and only if its rotation was lost, or it was live when a
   * request of its account that had been looked up too late carried out its kill.
   */
  lemma StoredIsDeadIff(s: System, es: seq<SystemEvent>, h: History)
    requires SystemInv(s, h) && StartsRefresh(FireSystemAll(s, es).client)
    ensures var s', h' := FireSystemAll(s, es), RememberAll(h, s, es);
            Revoked(s'.server, s'.client.stored.value) <==>
              s'.client.stored.value in h'.lost || s'.client.stored.value in h'.swept
  {
    SystemRunsKeepInv(s, es, h);
    StoredIsRevokedIffDead(FireSystemAll(s, es), RememberAll(h, s, es));
  }

  /**
   * The first late lookup: as long as the token a request carries is not dead
   * itself, being late means that the client had given the request up before
   * it was looked up.
   */
  lemma LateLookupIsAbandoned(s: System, e: SystemEvent, h: History)
    requires SystemInv(s, h) && LateLookup(s, e) != {} && !Dead(h, s.sent[e.flight])
    ensures !Awaited(s, e.flight)
  {
  }

  /** A refresh starts: the client sends its stored token. */
  predicate Presents(s: System, e: SystemEvent) {
    && StartsRefresh(s.client)
    && match e
       case Replied(r, status, f) => NeedsRefresh(s.client, r, status) && !Used(s, f)
       case RefreshRequested(f) => !Used(s, f)
       case _ => false
  }

  /** At some point of the run the client sends a token that the server has revoked. */
  ghost predicate PresentsRevoked(s: System, es: seq<SystemEvent>)
    decreases |es|
  {
    es != [] &&
    ((Presents(s, es[0]) && Revoked(s.server, s.client.stored.value)) || PresentsRevoked(FireSystem(s, es[0]), es[1..]))
  }

  /** At some point of the run the client sends a token whose rotation was lost before. */
  ghost predicate PresentsLost(s: System, es: seq<SystemEvent>, h: History)
    decreases |es|
  {
    es != [] &&
    ((Presents(s, es[0]) && s.client.stored.value in h.lost) || PresentsLost(FireSystem(s, es[0]), es[1..], Remember(h, s, es[0])))
  }

  lemma {:induction false} HistoryStays(s: System, es: seq<SystemEvent>, h: History)
    ensures h.late <= RememberAll(h, s, es).late && h.lost <= RememberAll(h, s, es).lost
    decreases |es|
  {
    hide FireSystem, LateLookup, LosesRotation;
    if es != [] {
      HistoryStays(FireSystem(s, es[0]), es[1..], Remember(h, s, es[0]));
    }
  }

  /** If no request is looked up too late, the client sends a revoked token if and only if it sends one whose rotation was lost. */
  lemma {:induction false} RevokedIsPresentedIffLost(s: System, es: seq<SystemEvent>, h: History)
    requires SystemInv(s, h) && h.swept == {} && RememberAll(h, s, es).late == {}
    ensures PresentsRevoked(s, es) <==> PresentsLost(s, es, h)
    decreases |es|
  {
    HistoryStays(s, es, h);
    assert es != [] ==> Sweeps(s, es[0], h.late) == {};
    hide SystemInv, FireSystem, LosesRotation, LateLookup, Sweeps, Revoked, Live;
    if es != [] {
      if Presents(s, es[0]) {
        StoredIsRevokedIffDead(s, h);
      }
      hide Presents, StartsRefresh;
      FireSystemKeepsInv(s, es[0], h);
      RevokedIsPresentedIffLost(FireSystem(s, es[0]), es[1..], Remember(h, s, es[0]));
    }
  }

  /** The client gives up on a refresh that the server has not looked up. */
  predicate GivesUpEarly(s: System, e: SystemEvent) {
    (e.RefreshFailed? || e.Reloaded?) && s.client.inFlight.Some? && s.client.inFlight.value.flight in s.sent
  }

  ghost predicate NeverGivesUpEarly(s: System, es: seq<SystemEvent>)
    decreases |es|
  {
    es == [] || (!GivesUpEarly(s, es[0]) && NeverGivesUpEarly(FireSystem(s, es[0]), es[1..]))
  }

  /** Only the refresh in flight is on its way. */
  ghost predicate SentIsAwaited(s: System) {
    forall f | f in s.sent :: s.client.inFlight.Some? && s.client.inFlight.value.flight == f
  }

  lemma AwaitedIsNotLate(s: System, e: SystemEvent)
    requires SystemInv(s, NOTHING) && SentIsAwaited(s)
    ensures LateLookup(s, e) == {}
  {
  }

  lemma SentStaysAwaited(s: System, e: SystemEvent)
    requires SentIsAwaited(s) && NoOtherWork(s) && !GivesUpEarly(s, e)
    ensures SentIsAwaited(FireSystem(s, e))
  {
    assert forall f | f in s.sent :: f !in s.server.flights;
    hide NoOtherWork, Fire;
  }

  /**
   * The causes, over every run: unless a rotation is lost, or the client gives
   * up on a refresh before the server has looked it up, no request is ever
   * looked up too late and no kill runs.
   */
  lemma {:induction false} NothingDiesWithoutCause(s: System, es: seq<SystemEvent>)
    requires SystemInv(s, NOTHING) && SentIsAwaited(s)
    requires NeverGivesUpEarly(s, es) && RememberAll(NOTHING, s, es).lost == {}
    ensures RememberAll(NOTHING, s, es) == NOTHING
    decreases |es|
  {
    assert NoOtherWork(s);
    if es != [] {
      var h := Remember(NOTHING, s, es[0]);
      HistoryStays(FireSystem(s, es[0]), es[1..], h);
      AwaitedIsNotLate(s, es[0]);
      assert h == NOTHING;
      FireSystemKeepsInv(s, es[0], NOTHING);
      SentStaysAwaited(s, es[0]);
      hide SystemInv, FireSystem, Remember, SentIsAwaited, NoOtherWork, GivesUpEarly;
      NothingDiesWithoutCause(FireSystem(s, es[0]), es[1..]);
    }
  }

  /**
   * After every run, the next refresh with a genuine token is answered by the
   * kill-switch if and only if the stored token is dead, when it is looked up
   * as soon as it is sent.
   */
  lemma DeadTokenTriggersReuse(s: System, es: seq<SystemEvent>, h: History, f: nat, sub: Account, now: int)
    requires SystemInv(s, h)
    requires var s' := FireSystemAll(s, es); StartsRefresh(s'.client) && !Used(s', f)
    ensures var s', h' := FireSystemAll(s, es), RememberAll(h, s, es);
            var t := s'.client.stored.value;
            var started := FireSystem(FireSystem(s', RefreshRequested(f)), LookedUp(f, true, sub, now)).server.flights[f];
            && (started.Killing? <==> Dead(h', t))
            && (started.Killing? ==> started.account == s'.server.tokens[t].account)
  {
    SystemRunsKeepInv(s, es, h);
    var s', h' := FireSystemAll(s, es), RememberAll(h, s, es);
    StoredIsRevokedIffDead(s', h');
    assert f in Send(s', f).sent;
    hide SystemInv, RememberAll, FireSystemAll;
  }

  // ----- a late lookup -------------------------------------------------

  lemma FireFirst(s: System, h: History, e: SystemEvent, rest: seq<SystemEvent>)
    ensures FireSystemAll(s, [e] + rest) == FireSystemAll(FireSystem(s, e), rest)
    ensures RememberAll(h, s, [e] + rest) == RememberAll(Remember(h, s, e), FireSystem(s, e), rest)
  {
    hide FireSystem, Remember;
    assert ([e] + rest)[0] == e && ([e] + rest)[1..] == rest;
  }

  function Rotation(f: nat, account: Account, now: int, r: Reply): seq<SystemEvent> {
    [RefreshRequested(f), LookedUp(f, true, account, now), Served(r), Served(r), Served(r), RefreshSettled]
  }

  /** The state after a rotation that nothing goes wrong with. */
  function Rotated(s: System, f: nat, account: Account, r: Reply): System
    requires s.client.stored.Some? && s.client.stored.value in s.server.root
  {
    var t := s.client.stored.value;
    s.(client := OnRefreshed(JoinRefresh(s.client, f), Some(r.newId)),
       server := State(RevokeOne(s.server.tokens, t)[r.newId := Token(account, r.expiresAt, false)],
                       s.server.flights[f := Granted(r.newId)],
                       s.server.parent[r.newId := t],
                       s.server.root[r.newId := s.server.root[t]],
                       s.server.logins))
  }

  /** What a rotation needs to go through: a live token of the account, and replies that work. */
  predicate CanRotate(s: System, f: nat, account: Account, now: int, r: Reply) {
    && StartsRefresh(s.client) && !Used(s, f) && r.ok && r.active && r.newId !in s.server.tokens
    && var t := s.client.stored.value;
       Live(s.server, t) && s.server.tokens[t].account == account && now <= s.server.tokens[t].expiresAt && t in s.server.root
  }

  lemma RotationEvents(s: System, h: History, f: nat, account: Account, now: int, r: Reply, rest: seq<SystemEvent>)
    requires CanRotate(s, f, account, now, r)
    ensures var t := s.client.stored.value;
            var claimed := s.(client := JoinRefresh(s.client, f),
                              server := s.server.(tokens := RevokeOne(s.server.tokens, t),
                                                  flights := s.server.flights[f := Resolving(t, account)]));
            var es := [RefreshRequested(f)] + ([LookedUp(f, true, account, now)] + ([Served(r)] + rest));
            && FireSystemAll(s, es) == FireSystemAll(claimed, rest)
            && RememberAll(h, s, es) == RememberAll(h, claimed, rest)
  {
    var t := s.client.stored.value;
    var s1 := FireSystem(s, RefreshRequested(f));
    var s2 := FireSystem(s1, LookedUp(f, true, account, now));
    var s3 := FireSystem(s2, Served(r));
    FireFirst(s, h, RefreshRequested(f), [LookedUp(f, true, account, now)] + ([Served(r)] + rest));
    FireFirst(s1, h, LookedUp(f, true, account, now), [Served(r)] + rest);
    FireFirst(s2, h, Served(r), rest);
    assert s1.sent[f] == t && s2.sent == s.sent;
    assert s2.server.flights == s.server.flights[f := Claiming(t, account)];
    assert s3.server.flights == s.server.flights[f := Resolving(t, account)];
    hide FireSystemAll, RememberAll;
  }

  /** A rotation can be lost: the server claims the stored token and then fails, or the client gives up or is reloaded. */
  lemma FailedRotationIsLost(s: System, h: History, f: nat, account: Account, now: int, r: Reply, failed: Reply)
    requires CanRotate(s, f, account, now, r) && !failed.ok
    ensures var s1 := FireSystemAll(s, [RefreshRequested(f)] + ([LookedUp(f, true, account, now)] + ([Served(r)] + [])));
            var t := s.client.stored.value;
            && LosesRotation(s1, Served(failed)) == {t}
            && LosesRotation(s1, RefreshFailed) == {t} && LosesRotation(s1, Reloaded) == {t}
  {
    RotationEvents(s, h, f, account, now, r, []);
    hide FireSystemAll, LosesRotation;
    var t := s.client.stored.value;
    var claimed := s.(client := JoinRefresh(s.client, f),
                      server := s.server.(tokens := RevokeOne(s.server.tokens, t),
                                          flights := s.server.flights[f := Resolving(t, account)]));
    NoMoreEvents(claimed);
    ClaimedIsLost(claimed, failed);
  }

  lemma NoMoreEvents(s: System)
    ensures FireSystemAll(s, []) == s
  {
  }

  lemma ClaimedIsLost(s: System, failed: Reply)
    requires Standing(s).Some? && Rotating(Standing(s).value) && !failed.ok
    ensures var t := s.client.inFlight.value.presented;
            LosesRotation(s, Served(failed)) == {t} && LosesRotation(s, RefreshFailed) == {t} && LosesRotation(s, Reloaded) == {t}
  {
  }

  lemma SuccessorEvents(s: System, h: History, f: nat, t: Id, account: Account, r: Reply, rest: seq<SystemEvent>)
    requires s.client.inFlight == Some(Pending(f, t)) && f in s.server.flights && s.server.flights[f] == Resolving(t, account)
    requires r.ok && r.active && r.newId !in s.server.tokens && t in s.server.root
    ensures var stored := s.(client := OnRefreshed(s.client, Some(r.newId)),
                             server := State(s.server.tokens[r.newId := Token(account, r.expiresAt, false)],
                                             s.server.flights[f := Granted(r.newId)],
                                             s.server.parent[r.newId := t],
                                             s.server.root[r.newId := s.server.root[t]],
                                             s.server.logins));
            var es := [Served(r)] + ([Served(r)] + ([RefreshSettled] + rest));
            && FireSystemAll(s, es) == FireSystemAll(stored, rest)
            && RememberAll(h, s, es) == RememberAll(h, stored, rest)
  {
    var s1 := FireSystem(s, Served(r));
    var s2 := FireSystem(s1, Served(r));
    FireFirst(s, h, Served(r), [Served(r)] + ([RefreshSettled] + rest));
    FireFirst(s1, h, Served(r), [RefreshSettled] + rest);
    FireFirst(s2, h, RefreshSettled, rest);
    assert s1.server.flights == s.server.flights[f := Issuing(t, account)];
    assert s2.server.flights == s.server.flights[f := Granted(r.newId)];
    hide FireSystemAll, RememberAll;
  }

  lemma RotationRuns(s: System, h: History, f: nat, account: Account, now: int, r: Reply, rest: seq<SystemEvent>)
    requires CanRotate(s, f, account, now, r)
    ensures FireSystemAll(s, Rotation(f, account, now, r) + rest) == FireSystemAll(Rotated(s, f, account, r), rest)
    ensures RememberAll(h, s, Rotation(f, account, now, r) + rest) == RememberAll(h, Rotated(s, f, account, r), rest)
  {
    hide FireSystem, FireSystemAll, Remember, RememberAll, OnRefreshed, Lookup, LosesRotation, LateLookup, Sweeps;
    var t := s.client.stored.value;
    var claimed := s.(client := JoinRefresh(s.client, f),
                      server := s.server.(tokens := RevokeOne(s.server.tokens, t),
                                          flights := s.server.flights[f := Resolving(t, account)]));
    var tail := [Served(r)] + ([Served(r)] + ([RefreshSettled] + rest));
    assert Rotation(f, account, now, r) + rest
        == [RefreshRequested(f)] + ([LookedUp(f, true, account, now)] + ([Served(r)] + tail));
    RotationEvents(s, h, f, account, now, r, tail);
    assert claimed.server.flights[f := Granted(r.newId)] == s.server.flights[f := Granted(r.newId)];
    SuccessorEvents(claimed, h, f, t, account, r, rest);
  }

  /** A request whose token was rotated in the meantime is looked up, and carries out its kill. */
  lemma LateKill(s: System, h: History, f: nat, t: Id, t2: Id, account: Account, now: int, r: Reply)
    requires f in s.sent && s.sent[f] == t && !Used(s.(sent := s.sent - {f}), f) && !Awaited(s, f) && r.ok
    requires t in s.server.tokens && s.server.tokens[t].account == account && s.server.tokens[t].revoked
    requires t2 in s.server.tokens && s.server.tokens[t2].account == account && Live(s.server, t2)
    ensures var es := [LookedUp(f, true, account, now), AbandonedServed(f, r)];
            var s', h' := FireSystemAll(s, es), RememberAll(h, s, es);
            && s'.client == s.client && Revoked(s'.server, t2)
            && h'.lost == h.lost && h'.late == h.late + {f} && t2 in h'.swept
  {
    var looked := LookedUp(f, true, account, now);
    var s1, h1 := FireSystem(s, looked), Remember(h, s, looked);
    var served := AbandonedServed(f, r);
    assert [looked, served] == [looked] + [served] && [served] == [served] + [];
    FireFirst(s, h, looked, [served]);
    FireFirst(s1, h1, served, []);
    assert s1.server.flights[f] == Killing(account) && s1.server.tokens == s.server.tokens;
    assert t2 in LiveOf(s1.server, account);
    assert h1 == History(h.lost, h.late + {f}, h.swept);
    hide FireSystemAll, RememberAll;
  }

  /**
   * The run without a lost rotation: a refresh is sent and the page reloaded
   * before the server looks it up; the next refresh rotates the same token and
   * arrives; then the first is looked up, and its kill revokes the successor.
   */
  lemma LateLookupKillsSuccessor(s: System, h: History, f: nat, g: nat, account: Account, now: int, later: int, r: Reply)
    requires CanRotate(s, f, account, now, r) && !Used(s, g) && g != f
    ensures var es := [RefreshRequested(g), Reloaded] + Rotation(f, account, now, r)
                      + [LookedUp(g, true, account, later), AbandonedServed(g, r)];
            var s', h' := FireSystemAll(s, es), RememberAll(h, s, es);
            && s'.client.stored == Some(r.newId) && StartsRefresh(s'.client) && Revoked(s'.server, r.newId)
            && h'.lost == h.lost && h'.late == h.late + {g} && r.newId in h'.swept
  {
    var t := s.client.stored.value;
    var s1 := FireSystem(s, RefreshRequested(g));
    var s2 := FireSystem(s1, Reloaded);
    var tail := [LookedUp(g, true, account, later), AbandonedServed(g, r)];
    var middle := Rotation(f, account, now, r) + tail;
    assert [RefreshRequested(g), Reloaded] + Rotation(f, account, now, r) + tail == [RefreshRequested(g)] + ([Reloaded] + middle);
    FireFirst(s, h, RefreshRequested(g), [Reloaded] + middle);
    FireFirst(s1, h, Reloaded, middle);
    assert s2.sent == s.sent[g := t] && s2.server == s.server && s2.client == Client(None, Some(t), None, map[]);
    assert LosesRotation(s1, Reloaded) == {};
    hide FireSystemAll, RememberAll;
    RotationRuns(s2, h, f, account, now, r, tail);
    var s3 := Rotated(s2, f, account, r);
    LateKill(s3, h, g, t, r.newId, account, later, r);
  }

  // ----- reliable runs -------------------------------------------------

  /** No rotation is lost, and the client does not give up on a refresh before the server is done with it. */
  predicate Reliable(s: System, e: SystemEvent) {
    && LosesRotation(s, e) == {}
    && (e.RefreshFailed? || e.Reloaded? ==> s.client.inFlight.None? || Standing(s) == Some(Denied))
  }

  ghost predicate ReliableRun(s: System, es: seq<SystemEvent>)
    decreases |es|
  {
    es == [] || (Reliable(s, es[0]) && ReliableRun(FireSystem(s, es[0]), es[1..]))
  }

  /** The requests, on their way or on the server, that may still claim or rotate a token. */
  predicate Refreshing(s: System, f: nat) {
    f in s.sent || (f in s.server.flights && (s.server.flights[f].Claiming? || Rotating(s.server.flights[f])))
  }

  /** The refresh the client waits for is the only one. */
  ghost predicate OneRefresh(s: System) {
    forall f | Refreshing(s, f) :: s.client.inFlight.Some? && s.client.inFlight.value.flight == f
  }

  lemma ReliableKeepsOneRefresh(s: System, e: SystemEvent)
    requires OneRefresh(s) && NoOtherWork(s) && Reliable(s, e)
    ensures OneRefresh(FireSystem(s, e))
  {
    var s' := FireSystem(s, e);
    forall f | Refreshing(s', f)
      ensures s'.client.inFlight.Some? && s'.client.inFlight.value.flight == f
    {
      if Presents(s, e) {
        NewRefreshing(s, e, f);
      } else {
        RefreshingBefore(s, e, f);
        assert s.client.inFlight.Some? && s.client.inFlight.value.flight == f;
        RefreshGoesOn(s, e, f);
      }
    }
  }

  lemma StepStartsNoRefresh(s: State, g: nat, reply: Reply, f: nat)
    requires g in s.flights && f in Step(s, g, reply).flights
    requires var after := Step(s, g, reply).flights[f]; after.Claiming? || Rotating(after)
    ensures f in s.flights && (s.flights[f].Claiming? || Rotating(s.flights[f]))
  {
  }

  lemma RefreshingBefore(s: System, e: SystemEvent, f: nat)
    requires !Presents(s, e) && Refreshing(FireSystem(s, e), f)
    ensures Refreshing(s, f)
  {
    var s' := FireSystem(s, e);
    if f !in s'.sent && s' != s && (e.Served? || e.AbandonedServed? || e.LoginServed?) {
      var g := if e.Served? then s.client.inFlight.value.flight else e.flight;
      StepStartsNoRefresh(s.server, g, e.reply, f);
    }
    hide Lookup, Step, Call, OnRefreshed, OnLoggedIn, Resume;
  }

  /** A refresh that is not over keeps its place at the client. */
  lemma RefreshGoesOn(s: System, e: SystemEvent, f: nat)
    requires Refreshing(s, f) && s.client.inFlight.Some? && s.client.inFlight.value.flight == f
    requires Reliable(s, e) && NoOtherWork(s)
    ensures FireSystem(s, e).client.inFlight == s.client.inFlight
  {
    assert f in s.sent ==> f !in s.server.flights;
    hide Lookup, Step, LosesRotation, NoOtherWork;
  }

  lemma NewRefreshing(s: System, e: SystemEvent, f: nat)
    requires OneRefresh(s) && Presents(s, e) && Refreshing(FireSystem(s, e), f)
    ensures var c := FireSystem(s, e).client; c.inFlight.Some? && c.inFlight.value.flight == f
  {
    assert !Refreshing(s, f);
    hide OneRefresh, Lookup;
  }

  lemma NothingToRemember(s: System, e: SystemEvent)
    requires SystemInv(s, NOTHING) && OneRefresh(s) && Reliable(s, e)
    ensures Remember(NOTHING, s, e) == NOTHING
  {
    assert forall f | f in s.sent :: Refreshing(s, f);
    AwaitedIsNotLate(s, e);
    hide SystemInv, LosesRotation, LateLookup, KillOf;
  }

  lemma {:induction false} ReliableRunsKeepInv(s: System, es: seq<SystemEvent>)
    requires SystemInv(s, NOTHING) && OneRefresh(s) && ReliableRun(s, es)
    ensures SystemInv(FireSystemAll(s, es), NOTHING) && OneRefresh(FireSystemAll(s, es))
    decreases |es|
  {
    assert NoOtherWork(s);
    hide SystemInv, FireSystem, LosesRotation, OneRefresh, Remember, NoOtherWork;
    if es != [] {
      FireSystemKeepsInv(s, es[0], NOTHING);
      NothingToRemember(s, es[0]);
      ReliableKeepsOneRefresh(s, es[0]);
      ReliableRunsKeepInv(FireSystem(s, es[0]), es[1..]);
    }
  }

  /**
   * One client, no lost rotation, no request given up too early, no revocation
   * but rotation: however calls, refreshes and logins interleave, the reuse
   * kill-switch never fires, at most one refresh is on its way, no request is
   * sent a third time, and none waits for a refresh that is not running.
   */
  lemma ClientNeverTriggersReuse(s: System, es: seq<SystemEvent>)
    requires SystemInv(s, NOTHING) && OneRefresh(s) && ReliableRun(s, es)
    ensures var s' := FireSystemAll(s, es);
            && (forall f | f in s'.server.flights :: !s'.server.flights[f].Killing?)
            && (forall f, g | Refreshing(s', f) && Refreshing(s', g) :: f == g)
            && (forall r | r in s'.client.requests :: s'.client.requests[r].sends <= 2)
            && (forall r | r in s'.client.requests && s'.client.requests[r].phase.AwaitingRefresh? :: s'.client.inFlight.Some?)
  {
    ReliableRunsKeepInv(s, es);
  }

  /** Whenever the client presents a stored token, the server holds it as a live row. */
  lemma PresentedTokenIsLive(s: System, es: seq<SystemEvent>)
    requires SystemInv(s, NOTHING) && OneRefresh(s) && ReliableRun(s, es)
    ensures var s' := FireSystemAll(s, es); StartsRefresh(s'.client) ==> Live(s'.server, s'.client.stored.value)
  {
    ReliableRunsKeepInv(s, es);
  }

  /** A refresh with no waiter lost: every request that waited continues with the refresh's own result. */
  lemma EveryWaiterIsWoken(s: System, h: History)
    requires SystemInv(s, h) && Standing(s).Some? && (Standing(s).value.Granted? || Standing(s).value.Denied?)
    ensures var s' := FireSystem(s, RefreshSettled);
            var f := s.server.flights[s.client.inFlight.value.flight];
            && s'.client.inFlight.None? && s'.server == s.server
            && (forall r | r in s'.client.requests :: !s'.client.requests[r].phase.AwaitingRefresh?)
            && (forall r | r in s.client.requests && s.client.requests[r].phase.AwaitingRefresh? ::
                  s'.client.requests[r].phase == Woken(if f.Granted? then Some(f.token) else None))
            && (f.Granted? ==> s'.client.stored == Some(f.token) && (Live(s'.server, f.token) <==> !Dead(h, f.token)))
  {
    assert GrantOf(s, s.client.inFlight.value.flight) ==
           (var f := s.server.flights[s.client.inFlight.value.flight]; if f.Granted? then Some(f.token) else None);
  }

  /** A refresh whose call fails frees the slot and wakes every request that waited, without a token. */
  lemma LostRefreshWakesWaiters(s: System)
    requires s.client.inFlight.Some?
    ensures var c, c' := s.client, FireSystem(s, RefreshFailed).client;
            && c'.inFlight.None? && c'.requests.Keys == c.requests.Keys
            && forall r | r in c.requests ::
                 c'.requests[r].phase == if c.requests[r].phase.AwaitingRefresh? then Woken(None) else c.requests[r].phase
  {
  }

  // ----- how calls end --------------------------------------------------

  /** A call is sent at most twice, and waits for a refresh after its first time only. */
  ghost predicate RetriedOnce(c: Client) {
    forall r | r in c.requests ::
      var q := c.requests[r];
      1 <= q.sends <= 2 && (q.phase.AwaitingRefresh? || q.phase.Woken? ==> q.sends == 1 && q.refreshable)
  }

  function PhaseOf(c: Client, r: nat): Option<Phase> {
    if r in c.requests then Some(c.requests[r].phase) else None
  }

  lemma EventKeepsRetriedOnce(s: System, e: SystemEvent)
    requires RetriedOnce(s.client)
    ensures RetriedOnce(FireSystem(s, e).client)
  {
    hide Fire;
  }

  /** One event makes a call successful only as its reply; it makes it fail as a reply, or as the end of the session. */
  lemma SettledByEvent(s: System, e: SystemEvent, r: nat, ok: bool)
    requires RetriedOnce(s.client)
    requires PhaseOf(FireSystem(s, e).client, r) == Some(Settled(ok)) && PhaseOf(s.client, r) != Some(Settled(ok))
    ensures ok ==> e.Replied? && e.r == r && e.status == Status.Success
    ensures !ok ==>
              || (e.Replied? && e.r == r && e.status == OtherFailure)
              || (e.Replied? && e.r == r && e.status == Unauthorized && !s.client.requests[r].refreshable)
              || (e.Replied? && e.r == r && e.status == Unauthorized && s.client.requests[r].sends == 2
                  && FireSystem(s, e).client.access == None && FireSystem(s, e).client.stored == None)
              || (e == Resumed(r) && s.client.requests[r].phase == Woken(None)
                  && FireSystem(s, e).client.access == None && FireSystem(s, e).client.stored == None)
  {
    hide Fire;
  }

  lemma {:induction false} RunsRetryOnce(s: System, es: seq<SystemEvent>)
    requires RetriedOnce(s.client)
    ensures RetriedOnce(FireSystemAll(s, es).client)
    decreases |es|
  {
    hide FireSystem, RetriedOnce;
    if es != [] {
      EventKeepsRetriedOnce(s, es[0]);
      RunsRetryOnce(FireSystem(s, es[0]), es[1..]);
    }
  }

  /**
   * Over every run: no call is sent a third time, and a call that ends
   * successfully was answered so by the server, however often refreshes failed.
   */
  lemma {:induction false} SuccessIsAnswered(s: System, es: seq<SystemEvent>, r: nat)
    requires RetriedOnce(s.client) && PhaseOf(s.client, r) != Some(Settled(true))
    ensures PhaseOf(FireSystemAll(s, es).client, r) == Some(Settled(true)) ==>
              exists e | e in es :: e.Replied? && e.r == r && e.status == Status.Success
    ensures r in FireSystemAll(s, es).client.requests ==> FireSystemAll(s, es).client.requests[r].sends <= 2
    decreases |es|
  {
    RunsRetryOnce(s, es);
    if es != [] {
      var s1 := FireSystem(s, es[0]);
      EventKeepsRetriedOnce(s, es[0]);
      if PhaseOf(s1.client, r) == Some(Settled(true)) {
        SettledByEvent(s, es[0], r, true);
        assert es[0] in es;
      } else {
        hide FireSystem, PhaseOf;
        SuccessIsAnswered(s1, es[1..], r);
        assert forall e | e in es[1..] :: e in es;
      }
    }
  }

  // ----- what the client holds ------------------------------------------

  /** The event hands the client a token: the refresh or a login of its own was granted it. */
  function HandedOver(s: System, e: SystemEvent): Option<Id> {
    if e.RefreshSettled? && Standing(s).Some? && Standing(s).value.Granted? then Some(Standing(s).value.token)
    else if e.LoginReplied? && e.flight in s.logins && e.flight in s.server.flights && s.server.flights[e.flight].Granted?
    then Some(s.server.flights[e.flight].token)
    else None
  }

  /** The event ends the client's session: on request, for a call that woke up without a token, or after the second 401 of one. */
  predicate EndsSession(s: System, e: SystemEvent) {
    || e.SessionCleared?
    || (e.Resumed? && PhaseOf(s.client, e.r) == Some(Woken(None)))
    || (e.Replied? && !Used(s, e.flight) && PhaseOf(s.client, e.r) == Some(AwaitingReply) && e.status == Unauthorized
        && s.client.requests[e.r].refreshable && s.client.requests[e.r].sends > 1)
  }

  /**
   * The stored token and the access token change together and only when a
   * token is handed over or the session ends; a refresh that fails drops
   * neither, and a reload forgets the access token alone.
   */
  lemma TokensFollowSession(s: System, e: SystemEvent)
    requires RetriedOnce(s.client)
    ensures var c, c' := s.client, FireSystem(s, e).client;
            && (HandedOver(s, e).Some? ==> c'.stored == HandedOver(s, e) && c'.access == HandedOver(s, e))
            && (EndsSession(s, e) ==> c'.stored == None && c'.access == None)
            && (HandedOver(s, e).None? && !EndsSession(s, e) ==>
                  c'.stored == c.stored && c'.access == if e.Reloaded? then None else c.access)
  {
    hide Fire;
  }
}
