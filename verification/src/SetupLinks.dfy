/**
 * One-time setup links: minting rotates, redemption consumes the token and
 * claims the pending First Admin in one transaction.
 */
module SetupLinks {
  import opened Wrappers
  import opened FirstAdmins

  const SETUP_TOKEN_TTL_MS := 24 * 60 * 60 * 1000

  /** Keyed by token hash; the hash stands for the token. */
  datatype SetupToken = SetupToken(tenantId: Id, expiresAt: int, revoked: bool, used: bool)

  type Tokens = map<string, SetupToken>

  predicate Live(t: SetupToken) {
    !t.revoked && !t.used
  }

  function Revoke(tokens: Tokens, tenantId: Id): Tokens {
    map h | h in tokens ::
      if tokens[h].tenantId == tenantId && !tokens[h].revoked then tokens[h].(revoked := true) else tokens[h]
  }

  /** `None` when the tenant has no member yet. */
  function Generate(users: seq<TenantUser>, tokens: Tokens, tenantId: Id, hash: string, now: int): Option<Tokens> {
    if FirstUser(users, tenantId) == |users| then None
    else Some(Revoke(tokens, tenantId)[hash := SetupToken(tenantId, now + SETUP_TOKEN_TTL_MS, false, false)])
  }

  /** Index of the tenant's first pending, active member, or the length. */
  function FirstPending(users: seq<TenantUser>, tenantId: Id): (i: nat)
    ensures i <= |users|
    ensures i < |users| ==> Pending(users[i], tenantId)
    ensures forall j | 0 <= j < i :: !Pending(users[j], tenantId)
  {
    if users == [] then 0
    else if Pending(users[0], tenantId) then 0
    else 1 + FirstPending(users[1..], tenantId)
  }

  predicate Pending(u: TenantUser, tenantId: Id) {
    u.tenantId == tenantId && u.status == PendingSetup && u.isActive
  }

  datatype Setup = Setup(accounts: map<Id, Account>, users: seq<TenantUser>, tokens: Tokens)

  predicate Redeemable(s: Setup, hash: string, now: int) {
    && hash in s.tokens && Live(s.tokens[hash]) && now < s.tokens[hash].expiresAt
    && FirstPending(s.users, s.tokens[hash].tenantId) < |s.users|
    && s.users[FirstPending(s.users, s.tokens[hash].tenantId)].accountId in s.accounts
  }

  /** Marks `hash` used and revokes the tenant's other live tokens. */
  function Consume(tokens: Tokens, hash: string): Tokens
    requires hash in tokens
  {
    map h | h in tokens ::
      if h == hash then tokens[h].(used := true)
      else if tokens[h].tenantId == tokens[hash].tenantId && Live(tokens[h]) then tokens[h].(revoked := true)
      else tokens[h]
  }

  function Redeem(s: Setup, hash: string, passwordHash: string, now: int): Setup
    requires Redeemable(s, hash, now)
  {
    var i := FirstPending(s.users, s.tokens[hash].tenantId);
    Setup(s.accounts[s.users[i].accountId := s.accounts[s.users[i].accountId].(passwordHash := passwordHash)],
          s.users[i := s.users[i].(status := ActiveUser)],
          Consume(s.tokens, hash))
  }

  /** The token is neither used nor revoked nor expired, and its tenant has a pending active member. */
  ghost predicate CanRedeem(s: Setup, hash: string, now: int) {
    && hash in s.tokens && !s.tokens[hash].revoked && !s.tokens[hash].used && now < s.tokens[hash].expiresAt
    && exists u | u in s.users :: u.tenantId == s.tokens[hash].tenantId && u.status == PendingSetup && u.isActive
  }

  /**
   * From `s` to `s'` member `i`, pending, active and of the token's tenant,
   * became an active user with the new password; no other member and no other
   * account changed, and of the tokens only the tenant's, none of which is live.
   */
  ghost predicate ClaimsMember(s: Setup, s': Setup, hash: string, passwordHash: string, i: nat) {
    && hash in s.tokens && i < |s.users| && s.users[i].accountId in s.accounts
    && s.users[i].tenantId == s.tokens[hash].tenantId && s.users[i].status == PendingSetup && s.users[i].isActive
    && |s'.users| == |s.users| && s'.users[i] == s.users[i].(status := ActiveUser)
    && (forall j | 0 <= j < |s.users| && j != i :: s'.users[j] == s.users[j])
    && s'.accounts.Keys == s.accounts.Keys
    && s'.accounts[s.users[i].accountId] == Account(s.accounts[s.users[i].accountId].email, passwordHash)
    && (forall a | a in s.accounts && a != s.users[i].accountId :: s'.accounts[a] == s.accounts[a])
    && s'.tokens.Keys == s.tokens.Keys && s'.tokens[hash].used
    && (forall h | h in s.tokens && s.tokens[h].tenantId == s.tokens[hash].tenantId :: s'.tokens[h].revoked || s'.tokens[h].used)
    && forall h | h in s.tokens && s.tokens[h].tenantId != s.tokens[hash].tenantId :: s'.tokens[h] == s.tokens[h]
  }

  /** When a link can be redeemed, and whom it claims. */
  lemma RedeemClaimsOwnMember(s: Setup, hash: string, passwordHash: string, now: int)
    ensures (forall u | u in s.users :: u.accountId in s.accounts) ==> (Redeemable(s, hash, now) <==> CanRedeem(s, hash, now))
    ensures Redeemable(s, hash, now) ==>
              && CanRedeem(s, hash, now)
              && exists i :: ClaimsMember(s, Redeem(s, hash, passwordHash, now), hash, passwordHash, i)
  {
    if hash in s.tokens {
      var i := FirstPending(s.users, s.tokens[hash].tenantId);
      if i < |s.users| {
        assert Pending(s.users[i], s.tokens[hash].tenantId) && s.users[i] in s.users;
      }
      if Redeemable(s, hash, now) {
        assert ClaimsMember(s, Redeem(s, hash, passwordHash, now), hash, passwordHash, i);
      }
    }
  }

  class SetupLinkService {
    var accounts: map<Id, Account>
    var users: seq<TenantUser>
    var tokens: Tokens

    constructor (s: Setup)
      ensures Tables() == s
    {
      accounts, users, tokens := s.accounts, s.users, s.tokens;
    }

    function Tables(): Setup
      reads this
    {
      Setup(accounts, users, tokens)
    }

    method RevokeAll(tenantId: Id)
      modifies this`tokens
      ensures tokens == Revoke(old(tokens), tenantId)
    {
      tokens := map h | h in tokens ::
        SetupToken(tokens[h].tenantId, tokens[h].expiresAt, tokens[h].revoked || tokens[h].tenantId == tenantId, tokens[h].used);
    }

    method GenerateLink(tenantId: Id, hash: string, now: int) returns (ok: bool)
      modifies this`tokens
      ensures match Generate(users, old(tokens), tenantId, hash, now)
              case Some(ts) => ok && tokens == ts
              case None => !ok && tokens == old(tokens)
    {
      if FirstUser(users, tenantId) == |users| {
        return false;
      }
      RevokeAll(tenantId);
      tokens := tokens[hash := SetupToken(tenantId, now + SETUP_TOKEN_TTL_MS, false, false)];
      ok := true;
    }

    method RedeemLink(hash: string, passwordHash: string, now: int) returns (ok: bool)
      modifies this
      ensures ok <==> Redeemable(old(Tables()), hash, now)
      ensures Tables() == if ok then Redeem(old(Tables()), hash, passwordHash, now) else old(Tables())
      ensures (forall u | u in old(users) :: u.accountId in old(accounts)) ==>
                (ok <==> CanRedeem(old(Tables()), hash, now))
      ensures ok ==> exists i :: ClaimsMember(old(Tables()), Tables(), hash, passwordHash, i)
    {
      RedeemClaimsOwnMember(Tables(), hash, passwordHash, now);
      if hash !in tokens || tokens[hash].revoked || tokens[hash].used || tokens[hash].expiresAt <= now {
        return false;
      }
      var i := FirstPending(users, tokens[hash].tenantId);
      if i == |users| || users[i].accountId !in accounts {
        return false;
      }
      var account := users[i].accountId;
      accounts := accounts[account := Account(accounts[account].email, passwordHash)];
      users := users[i := users[i].(status := ActiveUser)];
      var tenantId := tokens[hash].tenantId;
      var consumed := tokens[hash := tokens[hash].(used := true)];
      tokens := map h | h in consumed ::
        if consumed[h].tenantId == tenantId && h != hash && !consumed[h].revoked && !consumed[h].used
        then consumed[h].(revoked := true) else consumed[h];
      ok := true;
    }
  }

  // ----- every interleaving of the transactions ------------------------

  /** The tables plus two histories: tokens that were redeemed and members that were claimed. */
  datatype History = History(s: Setup, redeemed: seq<string>, claimed: seq<Id>)

  datatype Event =
    | Mint(tenantId: Id, hash: string, now: int)
    | RevokeTokens(tenantId: Id)
    | Present(hash: string, passwordHash: string, now: int)
    | AddMember(user: TenantUser, account: Account)
    | RemoveMember(index: nat)

  /** Hashes and ids are fresh when they are generated; a new member starts pending. */
  predicate Fresh(h: History, e: Event) {
    match e
    case Mint(_, hash, _) => hash !in h.s.tokens
    case AddMember(u, _) =>
      u.id !in h.claimed && u.status == PendingSetup && forall v | v in h.s.users :: v.id != u.id
    case _ => true
  }

  function Fire(h: History, e: Event): History {
    match e
    case Mint(tenantId, hash, now) =>
      (match Generate(h.s.users, h.s.tokens, tenantId, hash, now)
       case Some(tokens) => h.(s := h.s.(tokens := tokens))
       case None => h)
    case RevokeTokens(tenantId) => h.(s := h.s.(tokens := Revoke(h.s.tokens, tenantId)))
    case Present(hash, passwordHash, now) =>
      if Redeemable(h.s, hash, now)
      then History(Redeem(h.s, hash, passwordHash, now), h.redeemed + [hash],
                   h.claimed + [h.s.users[FirstPending(h.s.users, h.s.tokens[hash].tenantId)].id])
      else h
    case AddMember(u, a) =>
      h.(s := h.s.(users := h.s.users + [u], accounts := h.s.accounts[u.accountId := a]))
    case RemoveMember(i) =>
      if i < |h.s.users| then h.(s := h.s.(users := h.s.users[..i] + h.s.users[i + 1..])) else h
  }

  ghost predicate OneLiveToken(tokens: Tokens) {
    forall h, h' | h in tokens && h' in tokens && tokens[h].tenantId == tokens[h'].tenantId ::
      Live(tokens[h]) && Live(tokens[h']) ==> h == h'
  }

  ghost predicate Inv(h: History) {
    && OneLiveToken(h.s.tokens)
    && NoRepeats(h.redeemed) && NoRepeats(h.claimed)
    && (forall x | x in h.redeemed :: x in h.s.tokens && h.s.tokens[x].used)
    && (forall u | u in h.s.users :: u.id in h.claimed ==> u.status == ActiveUser)
    && (forall i, j | 0 <= i < j < |h.s.users| :: h.s.users[i].id != h.s.users[j].id)
  }

  lemma PresentKeepsInv(h: History, hash: string, passwordHash: string, now: int)
    requires Inv(h) && Redeemable(h.s, hash, now)
    ensures Inv(Fire(h, Present(hash, passwordHash, now)))
  {
    var h' := Fire(h, Present(hash, passwordHash, now));
    var i := FirstPending(h.s.users, h.s.tokens[hash].tenantId);
    assert h.s.users[i] in h.s.users && h.s.users[i].id !in h.claimed;
    assert hash !in h.redeemed;
    forall u | u in h'.s.users
      ensures u.id in h'.claimed ==> u.status == ActiveUser
    {
      var j :| 0 <= j < |h'.s.users| && h'.s.users[j] == u;
      if j != i {
        assert h.s.users[j] == u && u in h.s.users;
      }
    }
    ConsumeKeepsOneLive(h.s.tokens, hash);
    hide OneLiveToken, FirstPending;
  }

  lemma ConsumeKeepsOneLive(tokens: Tokens, hash: string)
    requires OneLiveToken(tokens) && hash in tokens
    ensures OneLiveToken(Consume(tokens, hash))
  {
  }

  lemma FireKeepsInv(h: History, e: Event)
    requires Inv(h) && Fresh(h, e)
    ensures Inv(Fire(h, e))
  {
    match e
    case Present(hash, passwordHash, now) =>
      if Redeemable(h.s, hash, now) {
        PresentKeepsInv(h, hash, passwordHash, now);
      }
      hide Inv;
    case AddMember(u, _) =>
    case RemoveMember(i) =>
      assert forall u | u in Fire(h, e).s.users :: u in h.s.users;
      hide OneLiveToken;
    case Mint(tenantId, hash, now) =>
    case RevokeTokens(tenantId) =>
  }

  ghost predicate FreshRun(h: History, es: seq<Event>)
    decreases |es|
  {
    es == [] || (Fresh(h, es[0]) && FreshRun(Fire(h, es[0]), es[1..]))
  }

  function FireAll(h: History, es: seq<Event>): History
    decreases |es|
  {
    if es == [] then h else FireAll(Fire(h, es[0]), es[1..])
  }

  /**
   * In every interleaving of minting, revoking, redeeming and membership
   * changes a tenant has at most one live token, no token is redeemed twice
   * and no First Admin is claimed twice.
   */
  lemma {:induction false} SetupLinksAreOneTime(h: History, es: seq<Event>)
    requires Inv(h) && FreshRun(h, es)
    ensures OneLiveToken(FireAll(h, es).s.tokens)
    ensures NoRepeats(FireAll(h, es).redeemed) && NoRepeats(FireAll(h, es).claimed)
    decreases |es|
  {
    if es != [] {
      FireKeepsInv(h, es[0]);
      SetupLinksAreOneTime(Fire(h, es[0]), es[1..]);
    }
  }

  // ----- who is claimed by which link -----------------------------------

  /** The run so far ends in a redemption of a token of `tenantId` that claims member `id`. */
  ghost predicate ClaimedBy(h: History, e: Event, id: Id, tenantId: Id) {
    && e.Present? && CanRedeem(h.s, e.hash, e.now) && h.s.tokens[e.hash].tenantId == tenantId
    && exists i: nat | i < |h.s.users| :: ClaimsMember(h.s, Fire(h, e).s, e.hash, e.passwordHash, i) && h.s.users[i].id == id
  }

  /** One event turns a member active only by redeeming a link of the member's tenant. */
  lemma ActivatedByEvent(h: History, e: Event, u: TenantUser)
    requires Inv(h) && Fresh(h, e) && u in Fire(h, e).s.users && u.status == ActiveUser
    requires forall v | v in h.s.users :: v.id == u.id ==> v.status != ActiveUser
    ensures ClaimedBy(h, e, u.id, u.tenantId) && u.id in Fire(h, e).claimed
  {
    hide Inv;
    match e {
      case Present(hash, passwordHash, now) =>
        RedeemClaimsOwnMember(h.s, hash, passwordHash, now);
        hide CanRedeem;
        assert Redeemable(h.s, hash, now);
        var i := FirstPending(h.s.users, h.s.tokens[hash].tenantId);
        var k :| 0 <= k < |h.s.users| && Fire(h, e).s.users[k] == u;
        assert h.s.users[k] in h.s.users && k == i;
        assert Pending(h.s.users[i], h.s.tokens[hash].tenantId);
        assert ClaimsMember(h.s, Redeem(h.s, hash, passwordHash, now), hash, passwordHash, i);
      case _ =>
    }
  }

  /** A claimed id is never given to another member. */
  lemma {:induction false} ClaimedMembersKeepTenant(h: History, es: seq<Event>, u: TenantUser)
    requires Inv(h) && FreshRun(h, es) && u in FireAll(h, es).s.users && u.id in h.claimed
    ensures exists v | v in h.s.users :: v.id == u.id && v.tenantId == u.tenantId
    decreases |es|
  {
    if es != [] {
      FireKeepsInv(h, es[0]);
      var h1 := Fire(h, es[0]);
      assert u.id in h1.claimed;
      hide Inv, Fire;
      ClaimedMembersKeepTenant(h1, es[1..], u);
      var v :| v in h1.s.users && v.id == u.id && v.tenantId == u.tenantId;
      MemberBefore(h, es[0], v);
    }
  }

  lemma MemberBefore(h: History, e: Event, v: TenantUser)
    requires Fresh(h, e) && v in Fire(h, e).s.users && v.id in h.claimed
    ensures exists w | w in h.s.users :: w.id == v.id && w.tenantId == v.tenantId
  {
    hide CanRedeem, ClaimsMember;
    match e {
      case Present(hash, passwordHash, now) =>
        var k :| 0 <= k < |Fire(h, e).s.users| && Fire(h, e).s.users[k] == v;
        assert h.s.users[k] in h.s.users;
      case RemoveMember(i) =>
        assert v in h.s.users;
      case AddMember(u, _) =>
        assert v in h.s.users;
      case _ =>
        assert v in h.s.users;
    }
  }

  /**
   * Over every interleaving: a member who is active at the end and was not at
   * the start was claimed in between, by the redemption of a link of the
   * member's own tenant that was then neither used, revoked nor expired; that
   * redemption changed no other member, no other account and no other tenant.
   */
  lemma {:induction false} ActivatedByOwnLink(h: History, es: seq<Event>, u: TenantUser)
    requires Inv(h) && FreshRun(h, es) && u in FireAll(h, es).s.users && u.status == ActiveUser
    requires forall v | v in h.s.users :: v.id == u.id ==> v.status != ActiveUser
    ensures exists k | 0 <= k < |es| :: ClaimedBy(FireAll(h, es[..k]), es[k], u.id, u.tenantId)
    decreases |es|
  {
    hide Inv, Fire, ClaimedBy;
    if es == [] {
    } else {
      var h1 := Fire(h, es[0]);
      FireKeepsInv(h, es[0]);
      Prefix(h, es, 0);
      if v :| v in h1.s.users && v.id == u.id && v.status == ActiveUser {
        ActivatedByEvent(h, es[0], v);
        ClaimedMembersKeepTenant(h1, es[1..], u);
        SameIdSameMember(h1, v, u);
      } else {
        ActivatedByOwnLink(h1, es[1..], u);
        hide FireAll, FreshRun;
        var k :| 0 <= k < |es[1..]| && ClaimedBy(FireAll(h1, es[1..][..k]), es[1..][k], u.id, u.tenantId);
        Prefix(h, es, k + 1);
        assert ClaimedBy(FireAll(h, es[..k + 1]), es[k + 1], u.id, u.tenantId);
      }
    }
  }

  lemma Prefix(h: History, es: seq<Event>, k: nat)
    requires es != [] && k <= |es|
    ensures FireAll(h, es[..k]) == if k == 0 then h else FireAll(Fire(h, es[0]), es[1..][..k - 1])
  {
    hide Fire;
    if k > 0 {
      assert es[..k][0] == es[0] && es[..k][1..] == es[1..][..k - 1];
    }
  }

  lemma SameIdSameMember(h: History, v: TenantUser, u: TenantUser)
    requires Inv(h) && v in h.s.users && v.id == u.id
    requires exists w | w in h.s.users :: w.id == u.id && w.tenantId == u.tenantId
    ensures v.tenantId == u.tenantId
  {
    var w :| w in h.s.users && w.id == u.id && w.tenantId == u.tenantId;
    var i :| 0 <= i < |h.s.users| && h.s.users[i] == v;
    var j :| 0 <= j < |h.s.users| && h.s.users[j] == w;
    assert i == j;
  }

  // ----- revoked links --------------------------------------------------

  /** No token of the tenant is live. */
  ghost predicate NoLink(tokens: Tokens, tenantId: Id) {
    forall h | h in tokens && tokens[h].tenantId == tenantId :: tokens[h].revoked || tokens[h].used
  }

  lemma NoLinkKept(h: History, e: Event, tenantId: Id)
    requires NoLink(h.s.tokens, tenantId) && !(e.Mint? && e.tenantId == tenantId)
    requires Fresh(h, e)
    ensures NoLink(Fire(h, e).s.tokens, tenantId)
  {
    hide FirstPending, FirstUser;
  }

  /**
   * Over every interleaving: once a tenant's links are revoked, none of them
   * can be redeemed, whatever happens, until a new one is generated for that tenant.
   */
  lemma RevokedLinksStayDead(h: History, es: seq<Event>, tenantId: Id)
    requires FreshRun(Fire(h, RevokeTokens(tenantId)), es) && forall e | e in es :: !(e.Mint? && e.tenantId == tenantId)
    ensures var h' := FireAll(Fire(h, RevokeTokens(tenantId)), es);
            && NoLink(h'.s.tokens, tenantId)
            && forall hash, now | hash in h'.s.tokens && h'.s.tokens[hash].tenantId == tenantId :: !Redeemable(h'.s, hash, now)
  {
    var h1 := Fire(h, RevokeTokens(tenantId));
    assert NoLink(h1.s.tokens, tenantId);
    NoLinkOverRun(h1, es, tenantId);
    hide FireAll, FirstPending;
  }

  lemma {:induction false} NoLinkOverRun(h: History, es: seq<Event>, tenantId: Id)
    requires NoLink(h.s.tokens, tenantId) && FreshRun(h, es) && forall e | e in es :: !(e.Mint? && e.tenantId == tenantId)
    ensures NoLink(FireAll(h, es).s.tokens, tenantId)
    decreases |es|
  {
    if es != [] {
      assert es[0] in es;
      NoLinkKept(h, es[0], tenantId);
      hide Fire, NoLink;
      NoLinkOverRun(Fire(h, es[0]), es[1..], tenantId);
    }
  }

  /**
   * A minted link is the tenant's only live one; it can be redeemed until its
   * day is over, as long as a First Admin is waiting for it, and no later.
   */
  lemma MintedLinkIsTheOnlyOne(s: Setup, tenantId: Id, hash: string, now: int, later: int)
    requires hash !in s.tokens && Generate(s.users, s.tokens, tenantId, hash, now).Some?
    requires forall u | u in s.users :: u.accountId in s.accounts
    ensures var s' := s.(tokens := Generate(s.users, s.tokens, tenantId, hash, now).value);
            && (forall h | h in s'.tokens && s'.tokens[h].tenantId == tenantId && Live(s'.tokens[h]) :: h == hash)
            && (forall h | h in s.tokens && s.tokens[h].tenantId != tenantId :: s'.tokens[h] == s.tokens[h])
            && (forall h | h in s.tokens && s.tokens[h].tenantId == tenantId :: s'.tokens[h] == s.tokens[h].(revoked := true))
            && (Redeemable(s', hash, later) <==>
                  later < now + 24 * 60 * 60 * 1000 && exists u | u in s.users :: u.tenantId == tenantId && u.status == PendingSetup && u.isActive)
  {
    var i := FirstPending(s.users, tenantId);
    if i < |s.users| {
      assert s.users[i] in s.users;
    }
  }
}
