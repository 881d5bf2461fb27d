/**
 * The browser client of the token protocol: one refresh at a time, one retry
 * per request.
 */
module ApiClients {
  import opened Wrappers
  import opened TokenRotation

  datatype Status = Success | Unauthorized | OtherFailure

  datatype Phase =
    | AwaitingReply
    | AwaitingRefresh
    /** The refresh this request waits for has settled; the request continues at its next turn. */
    | Woken(token: Option<Id>)
    | Settled(ok: bool)

  /** `refreshable` is false for the authentication endpoints, which never refresh. */
  datatype Request = Request(refreshable: bool, sends: nat, phase: Phase)

  datatype Pending = Pending(flight: nat, presented: Id)

  /** The module variables: access token, stored refresh token, refresh in flight; and the calls in progress. */
  datatype Client = Client(
    access: Option<Id>, stored: Option<Id>, inFlight: Option<Pending>, requests: map<nat, Request>)

  function Call(c: Client, r: nat, refreshable: bool): Client {
    if r in c.requests then c
    else c.(requests := c.requests[r := Request(refreshable, 1, AwaitingReply)])
  }

  /** `handleSessionExpired`. */
  function Expire(c: Client): Client {
    c.(access := None, stored := None)
  }

  function Settle(c: Client, r: nat, ok: bool): Client
    requires r in c.requests
  {
    c.(requests := c.requests[r := c.requests[r].(phase := Settled(ok))])
  }

  /** Whether a reply makes the request wait for a refresh. */
  predicate NeedsRefresh(c: Client, r: nat, status: Status) {
    && r in c.requests && c.requests[r].phase.AwaitingReply?
    && status.Unauthorized? && c.requests[r].refreshable && c.requests[r].sends == 1
  }

  /** `refreshAccessToken` has something to send. */
  predicate StartsRefresh(c: Client) {
    c.inFlight.None? && c.stored.Some?
  }

  function JoinRefresh(c: Client, flight: nat): Client {
    if StartsRefresh(c) then c.(inFlight := Some(Pending(flight, c.stored.value))) else c
  }

  /** A reply to request `r`; `flight` names the refresh it may start. */
  function OnReply(c: Client, r: nat, status: Status, flight: nat): Client {
    if r !in c.requests || !c.requests[r].phase.AwaitingReply? then c
    else if NeedsRefresh(c, r, status) then
      var c' := JoinRefresh(c, flight);
      var phase := if c'.inFlight.Some? then AwaitingRefresh else Woken(None);
      c'.(requests := c'.requests[r := c'.requests[r].(phase := phase)])
    else if status.Unauthorized? && c.requests[r].refreshable then Expire(Settle(c, r, false))
    else Settle(c, r, status.Success?)
  }

  /** The refresh settles: tokens first, then the slot is freed and every waiter is woken. */
  function OnRefreshed(c: Client, granted: Option<Id>): Client {
    c.(access := if granted.Some? then granted else c.access,
       stored := if granted.Some? then granted else c.stored,
       inFlight := None,
       requests := map r | r in c.requests ::
         if c.requests[r].phase.AwaitingRefresh? then c.requests[r].(phase := Woken(granted)) else c.requests[r])
  }

  /** A woken request is sent again, or ends the session. */
  function Resume(c: Client, r: nat): Client {
    if r !in c.requests || !c.requests[r].phase.Woken? then c
    else if c.requests[r].phase.token.None? then Expire(Settle(c, r, false))
    else c.(requests := c.requests[r := Request(c.requests[r].refreshable, c.requests[r].sends + 1, AwaitingReply)])
  }

  function OnLoggedIn(c: Client, token: Id): Client {
    c.(access := Some(token), stored := Some(token))
  }

  class ApiClient {
    var accessToken: Option<Id>
    var storedRefreshToken: Option<Id>
    var refreshInFlight: Option<Pending>
    var requests: map<nat, Request>

    constructor (stored: Option<Id>)
      ensures State() == Client(None, stored, None, map[])
    {
      accessToken, storedRefreshToken, refreshInFlight, requests := None, stored, None, map[];
    }

    function State(): Client
      reads this
    {
      Client(accessToken, storedRefreshToken, refreshInFlight, requests)
    }

    method HandleSessionExpired()
      modifies this`accessToken, this`storedRefreshToken
      ensures State() == Expire(old(State()))
    {
      accessToken := None;
      storedRefreshToken := None;
    }

    /** Single flight: `started` says which token to present, if this call starts the refresh. */
    method RefreshAccessToken(flight: nat) returns (started: Option<Id>)
      modifies this`refreshInFlight
      ensures State() == JoinRefresh(old(State()), flight)
      ensures started == if StartsRefresh(old(State())) then old(storedRefreshToken) else None
    {
      started := None;
      if refreshInFlight.None? {
        if storedRefreshToken.Some? {
          started := storedRefreshToken;
          refreshInFlight := Some(Pending(flight, storedRefreshToken.value));
        }
      }
    }

    method HandleReply(r: nat, status: Status, flight: nat) returns (started: Option<Id>)
      requires r in requests && requests[r].phase.AwaitingReply?
      modifies this
      ensures State() == OnReply(old(State()), r, status, flight)
      ensures started.Some? <==> NeedsRefresh(old(State()), r, status) && StartsRefresh(old(State()))
      ensures started.Some? ==> started == old(storedRefreshToken)
    {
      started := None;
      var request := requests[r];
      if status.Unauthorized? && request.refreshable {
        if request.sends == 1 {
          started := RefreshAccessToken(flight);
          var phase := if refreshInFlight.Some? then AwaitingRefresh else Woken(None);
          requests := requests[r := request.(phase := phase)];
          return;
        }
        HandleSessionExpired();
      }
      requests := requests[r := request.(phase := Settled(status.Success?))];
    }

    method HandleRefreshed(granted: Option<Id>)
      modifies this
      ensures State() == OnRefreshed(old(State()), granted)
    {
      if granted.Some? {
        accessToken := granted;
        storedRefreshToken := granted;
      }
      refreshInFlight := None;
      requests := map r | r in requests ::
        if requests[r].phase.AwaitingRefresh? then requests[r].(phase := Woken(granted)) else requests[r];
    }
  }

  /**
   * The whole path of a call that is unauthorised twice: it joins or starts
   * one refresh, is sent again with the new token, and then ends the session.
   */
  lemma UnauthorisedCallIsRetriedOnce(c: Client, r: nat, flight: nat, token: Id)
    requires r !in c.requests && c.stored.Some?
    ensures var waiting := OnReply(Call(c, r, true), r, Unauthorized, flight);
            var resent := Resume(OnRefreshed(waiting, Some(token)), r);
            var ended := OnReply(resent, r, Unauthorized, flight);
            && waiting.requests[r].phase.AwaitingRefresh? && waiting.inFlight.Some?
            && (c.inFlight.Some? ==> waiting.inFlight == c.inFlight)
            && resent.requests[r] == Request(true, 2, AwaitingReply) && resent.access == Some(token)
            && ended.requests[r].phase == Settled(false) && ended.access == None && ended.stored == None
            && (forall other | other in c.requests && !c.requests[other].phase.AwaitingRefresh? ::
                  ended.requests[other] == c.requests[other])
  {
  }

  /**
   * A call that wakes up without a token has failed and takes both tokens with
   * it, whether the refresh it waited for failed or there was nothing to send.
   */
  lemma FailedRefreshEndsTheSession(c: Client, r: nat)
    requires r in c.requests
    ensures c.requests[r].phase == Woken(None) ==>
              Resume(c, r) == Client(None, None, c.inFlight, c.requests[r := c.requests[r].(phase := Settled(false))])
    ensures c.requests[r].phase.AwaitingRefresh? ==>
              var ended := Resume(OnRefreshed(c, None), r);
              && ended.requests[r].phase == Settled(false) && ended.requests[r].sends == c.requests[r].sends
              && ended.access == None && ended.stored == None && ended.inFlight == None
    ensures forall flight | NeedsRefresh(c, r, Unauthorized) && c.inFlight.None? && c.stored.None? ::
              var ended := Resume(OnReply(c, r, Unauthorized, flight), r);
              ended.requests[r].phase == Settled(false) && ended.access == None && ended.stored == None
  {
  }

  /** An authentication endpoint never refreshes: its failure is the answer. */
  lemma AuthenticationCallNeverRefreshes(c: Client, r: nat, status: Status, flight: nat)
    requires r !in c.requests
    ensures var answered := OnReply(Call(c, r, false), r, status, flight);
            && answered.requests[r] == Request(false, 1, Settled(status.Success?))
            && answered.inFlight == c.inFlight && answered.access == c.access && answered.stored == c.stored
  {
  }
}
