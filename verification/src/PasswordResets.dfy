/**
 * Emailed reset codes: at most one live code an account, a budget of wrong
 * attempts kept by optimistic writes, and a code that sets one password.
 */
module PasswordResets {
  import opened Wrappers
  import opened TokenRotation

  const PASSWORD_RESET_OTP_LENGTH := 6
  const PASSWORD_RESET_OTP_TTL_MS := 5 * 60 * 1000
  const PASSWORD_RESET_OTP_COOLDOWN_MS := 60 * 1000
  const PASSWORD_RESET_OTP_MAX_ATTEMPTS := 3

  /** The stored hash stands for the code it was made from. */
  datatype Code = Code(account: Account, otp: string, createdAt: int, expiresAt: int, attempts: nat, consumed: bool)

  type Codes = map<Id, Code>

  datatype Credential = Credential(passwordHash: string, mustChange: bool)

  datatype Tables = Tables(codes: Codes, credentials: map<Account, Credential>, sessions: Tokens)

  predicate IsCodeShaped(s: string) {
    |s| == PASSWORD_RESET_OTP_LENGTH && forall i | 0 <= i < |s| :: '0' <= s[i] <= '9'
  }

  predicate OtpMatches(submitted: string, code: Code) {
    IsCodeShaped(submitted) && submitted == code.otp
  }

  /** The newest code of the account is younger than the cooldown, whether or not it is consumed. */
  predicate WithinCooldown(codes: Codes, account: Account, now: int) {
    exists c | c in codes :: codes[c].account == account && now - codes[c].createdAt < PASSWORD_RESET_OTP_COOLDOWN_MS
  }

  function LiveCodes(codes: Codes, account: Account): set<Id> {
    set c | c in codes && codes[c].account == account && !codes[c].consumed
  }

  function ConsumeAll(codes: Codes, account: Account): Codes {
    map c | c in codes :: if codes[c].account == account then codes[c].(consumed := true) else codes[c]
  }

  /** The transaction of `requestReset`. */
  function IssueCode(codes: Codes, account: Account, id: Id, otp: string, now: int): Codes {
    ConsumeAll(codes, account)[id := Code(account, otp, now, now + PASSWORD_RESET_OTP_TTL_MS, 0, false)]
  }

  /** What a reset has decided on after reading code `id`. */
  datatype Decision =
    | Expire(id: Id)
    | CountWrong(id: Id, attempts: nat)
    | SetPassword(id: Id, account: Account, passwordHash: string)

  function Decide(codes: Codes, id: Id, submitted: string, passwordHash: string, now: int): Decision
    requires id in codes
  {
    if codes[id].expiresAt <= now then Expire(id)
    else if !OtpMatches(submitted, codes[id]) then CountWrong(id, codes[id].attempts)
    else SetPassword(id, codes[id].account, passwordHash)
  }

  /** The one conditional write, or transaction, of a decision; true when a password was set. */
  function Apply(t: Tables, d: Decision): (Tables, bool) {
    if d.id !in t.codes || t.codes[d.id].consumed then (t, false)
    else
      match d
      case Expire(id) => (t.(codes := t.codes[id := t.codes[id].(consumed := true)]), false)
      case CountWrong(id, attempts) =>
        if t.codes[id].attempts != attempts then (t, false)
        else
          var spent := attempts + 1 >= PASSWORD_RESET_OTP_MAX_ATTEMPTS;
          (t.(codes := t.codes[id := t.codes[id].(attempts := attempts + 1, consumed := spent)]), false)
      case SetPassword(id, account, passwordHash) =>
        (Tables(t.codes[id := t.codes[id].(consumed := true)],
                t.credentials[account := Credential(passwordHash, false)],
                RevokeAll(t.sessions, account, None)),
         true)
  }

  class PasswordResetService {
    var codes: Codes
    var credentials: map<Account, Credential>
    var sessions: Tokens

    constructor (t: Tables)
      ensures State() == t
    {
      codes, credentials, sessions := t.codes, t.credentials, t.sessions;
    }

    function State(): Tables
      reads this
    {
      Tables(codes, credentials, sessions)
    }

    /** `actor` is the active account behind the address, if there is one; the answer never depends on it. */
    method RequestReset(actor: Option<Account>, id: Id, otp: string, now: int) returns (sent: bool)
      modifies this`codes
      ensures sent <==> actor.Some? && !WithinCooldown(old(codes), actor.value, now)
      ensures codes == if sent then IssueCode(old(codes), actor.value, id, otp, now) else old(codes)
    {
      if actor.None? || WithinCooldown(codes, actor.value, now) {
        return false;
      }
      var account := actor.value;
      codes := map c | c in codes ::
        if codes[c].account == account && !codes[c].consumed then codes[c].(consumed := true) else codes[c];
      codes := codes[id := Code(account, otp, now, now + PASSWORD_RESET_OTP_TTL_MS, 0, false)];
      sent := true;
    }

    /** A reset that nothing interleaves with: it decides on the live code, if any, and applies the decision. */
    method ResetPassword(actor: Option<Account>, submitted: string, passwordHash: string, now: int) returns (ok: bool)
      requires OneLiveCode(codes)
      modifies this
      ensures actor.None? || LiveCodes(old(codes), actor.value) == {} ==> !ok && State() == old(State())
      ensures actor.Some? ==> forall id | id in LiveCodes(old(codes), actor.value) ::
                (State(), ok) == Apply(old(State()), Decide(old(codes), id, submitted, passwordHash, now))
      ensures ok <==> actor.Some? && exists id | id in old(codes) ::
                && old(codes)[id].account == actor.value && !old(codes)[id].consumed && now < old(codes)[id].expiresAt
                && submitted == old(codes)[id].otp && |submitted| == 6 && forall i | 0 <= i < 6 :: '0' <= submitted[i] <= '9'
      ensures ok ==> credentials == old(credentials)[actor.value := Credential(passwordHash, false)]
      ensures ok ==> forall x | x in old(sessions) ::
                && x in sessions
                && (if old(sessions)[x].account == actor.value then sessions[x].revoked else sessions[x] == old(sessions)[x])
      ensures ok ==> forall id | id in old(codes) && old(codes)[id].account == actor.value :: id in codes && codes[id].consumed
      ensures !ok ==> credentials == old(credentials) && sessions == old(sessions)
      ensures actor.Some? ==> forall id | id in LiveCodes(old(codes), actor.value) ::
                var code := old(codes)[id];
                && (code.expiresAt <= now ==> codes == old(codes)[id := code.(consumed := true)])
                && (now < code.expiresAt && submitted != code.otp ==>
                      codes == old(codes)[id := code.(attempts := code.attempts + 1, consumed := 3 <= code.attempts + 1)])
    {
      if actor.None? || LiveCodes(codes, actor.value) == {} {
        assert actor.Some? ==> forall id | id in codes && codes[id].account == actor.value && !codes[id].consumed ::
          id in LiveCodes(codes, actor.value);
        return false;
      }
      var id :| id in LiveCodes(codes, actor.value);
      var code := codes[id];
      if code.expiresAt <= now {
        codes := codes[id := code.(consumed := true)];
        return false;
      }
      if !OtpMatches(submitted, code) {
        var attempts := code.attempts + 1;
        codes := codes[id := code.(attempts := attempts, consumed := attempts >= PASSWORD_RESET_OTP_MAX_ATTEMPTS)];
        return false;
      }
      codes := codes[id := code.(consumed := true)];
      credentials := credentials[code.account := Credential(passwordHash, false)];
      sessions := RevokeAll(sessions, code.account, None);
      ok := true;
    }
  }

  ghost predicate OneLiveCode(codes: Codes) {
    forall c, c' | c in codes && c' in codes && codes[c].account == codes[c'].account ::
      !codes[c].consumed && !codes[c'].consumed ==> c == c'
  }

  // ----- every interleaving --------------------------------------------

  datatype Flight =
    | Sending(account: Account)
    | Deciding(decision: Decision)
    | Done(ok: bool)

  /**
   * The tables and the requests in flight, with the codes that set a password and, for each code, how often other digits
   * were compared with it before it expired.
   */
  datatype System = System(t: Tables, flights: map<nat, Flight>, redeemed: seq<Id>, wrong: map<Id, nat>)

  datatype Event =
    | AskCode(flight: nat, account: Account, now: int)
    /** The drawn code, always six digits, is stored. */
    | StoreCode(flight: nat, id: Id, otp: string, now: int)
    /** A reset reads code `id`, compares, and decides. */
    | ReadCode(flight: nat, id: Id, submitted: string, passwordHash: string, now: int)
    | WriteDecision(flight: nat)
    /** A forced reset: password and sessions in one transaction, the codes afterwards in another. */
    | ForcePassword(account: Account, passwordHash: string)
    | BurnCodes(account: Account)
    | StartSession(account: Account, id: Id, expiresAt: int)

  function Wrong(s: System, id: Id): nat {
    if id in s.wrong then s.wrong[id] else 0
  }

  /** Events that are not possible leave the system as it is. */
  function Fire(s: System, e: Event): System {
    match e
    case AskCode(f, account, now) =>
      if f in s.flights then s
      else s.(flights := s.flights[f := if WithinCooldown(s.t.codes, account, now) then Done(false) else Sending(account)])
    case StoreCode(f, id, otp, now) =>
      if f !in s.flights || !s.flights[f].Sending? || id in s.t.codes || !IsCodeShaped(otp) then s
      else s.(t := s.t.(codes := IssueCode(s.t.codes, s.flights[f].account, id, otp, now)), flights := s.flights[f := Done(true)])
    case ReadCode(f, id, submitted, passwordHash, now) =>
      if f in s.flights || id !in s.t.codes || s.t.codes[id].consumed then s
      else
        var d := Decide(s.t.codes, id, submitted, passwordHash, now);
        s.(flights := s.flights[f := Deciding(d)],
           wrong := if now < s.t.codes[id].expiresAt && submitted != s.t.codes[id].otp then s.wrong[id := Wrong(s, id) + 1]
                    else s.wrong)
    case WriteDecision(f) =>
      if f !in s.flights || !s.flights[f].Deciding? then s
      else
        var (t, ok) := Apply(s.t, s.flights[f].decision);
        s.(t := t, flights := s.flights[f := Done(ok)],
           redeemed := if ok then s.redeemed + [s.flights[f].decision.id] else s.redeemed)
    case ForcePassword(account, passwordHash) =>
      s.(t := s.t.(credentials := s.t.credentials[account := Credential(passwordHash, true)],
                   sessions := RevokeAll(s.t.sessions, account, None)))
    case BurnCodes(account) => s.(t := s.t.(codes := ConsumeAll(s.t.codes, account)))
    case StartSession(account, id, expiresAt) =>
      if id in s.t.sessions then s
      else s.(t := s.t.(sessions := s.t.sessions[id := Token(account, expiresAt, false)]))
  }

  function FireAll(s: System, es: seq<Event>): System
    decreases |es|
  {
    if es == [] then s else FireAll(Fire(s, es[0]), es[1..])
  }

  ghost predicate Inv(s: System) {
    && OneLiveCode(s.t.codes)
    && (forall c | c in s.t.codes ::
          IsCodeShaped(s.t.codes[c].otp)
          && s.t.codes[c].attempts <= PASSWORD_RESET_OTP_MAX_ATTEMPTS
          && (!s.t.codes[c].consumed ==> s.t.codes[c].attempts < PASSWORD_RESET_OTP_MAX_ATTEMPTS))
    && NoRepeats(s.redeemed)
    && (forall c | c in s.redeemed :: c in s.t.codes && s.t.codes[c].consumed)
    && (forall f | f in s.flights && s.flights[f].Deciding? && s.flights[f].decision.SetPassword? ::
          s.flights[f].decision.id in s.t.codes
          && s.t.codes[s.flights[f].decision.id].account == s.flights[f].decision.account)
  }

  lemma DecisionKeepsInv(s: System, f: nat)
    requires Inv(s) && f in s.flights && s.flights[f].Deciding?
    ensures Inv(Fire(s, WriteDecision(f)))
  {
    var d := s.flights[f].decision;
    if Apply(s.t, d).1 {
      assert d.id !in s.redeemed;
    }
  }

  lemma OtherEventsKeepInv(s: System, e: Event)
    requires Inv(s) && !e.WriteDecision?
    ensures Inv(Fire(s, e))
  {
    hide NoRepeats, OtpMatches, WithinCooldown;
  }

  lemma FireKeepsInv(s: System, e: Event)
    requires Inv(s)
    ensures Inv(Fire(s, e))
  {
    hide Inv;
    match e
    case WriteDecision(f) =>
      if f in s.flights && s.flights[f].Deciding? {
        DecisionKeepsInv(s, f);
      }
    case _ =>
      OtherEventsKeepInv(s, e);
  }

  lemma {:induction false} RunsKeepInv(s: System, es: seq<Event>)
    requires Inv(s)
    ensures Inv(FireAll(s, es))
    decreases |es|
  {
    hide Inv, Fire;
    if es != [] {
      FireKeepsInv(s, es[0]);
      RunsKeepInv(Fire(s, es[0]), es[1..]);
    }
  }

  /**
   * Over every interleaving: an account has at most one live code, a live code
   * has fewer than three recorded wrong attempts, and no code sets a password twice.
   */
  lemma ResetCodesAreOneTime(s: System, es: seq<Event>)
    requires Inv(s)
    ensures var s' := FireAll(s, es);
            && OneLiveCode(s'.t.codes) && NoRepeats(s'.redeemed)
            && forall c | c in s'.t.codes && !s'.t.codes[c].consumed :: s'.t.codes[c].attempts < PASSWORD_RESET_OTP_MAX_ATTEMPTS
  {
    RunsKeepInv(s, es);
  }

  /**
   * An event that redeems a code burns it, sets the password of the code's
   * account and of no other, and leaves that account without a live session.
   */
  lemma RedeemingEndsSessions(s: System, e: Event)
    requires Inv(s) && Fire(s, e).redeemed != s.redeemed
    ensures e.WriteDecision? && e.flight in s.flights && s.flights[e.flight].Deciding?
    ensures s.flights[e.flight].decision.SetPassword?
    ensures var d, s' := s.flights[e.flight].decision, Fire(s, e);
            && s'.redeemed == s.redeemed + [d.id] && s'.t.codes[d.id].consumed && !s.t.codes[d.id].consumed
            && s.t.codes[d.id].account == d.account
            && s'.t.credentials == s.t.credentials[d.account := Credential(d.passwordHash, false)]
            && (forall x | x in s'.t.sessions && s'.t.sessions[x].account == d.account :: s'.t.sessions[x].revoked)
            && (forall x | x in s.t.sessions && s.t.sessions[x].account != d.account ::
                  x in s'.t.sessions && s'.t.sessions[x] == s.t.sessions[x])
  {
  }

  // ----- what a reset was submitted with -------------------------------

  /** What a decision says of the submission it was made from. */
  ghost predicate Explains(read: Event, d: Decision, code: Code)
    requires read.ReadCode?
  {
    && (d.SetPassword? <==> read.now < code.expiresAt && read.submitted == code.otp)
    && (d.SetPassword? ==> d.account == code.account && d.passwordHash == read.passwordHash)
    && (d.CountWrong? <==> read.now < code.expiresAt && read.submitted != code.otp)
  }

  /** Every request about to write read its code at an event of `past`. */
  ghost predicate AllExplained(past: seq<Event>, s: System) {
    forall f | f in s.flights && s.flights[f].Deciding? ::
      exists read: Event | read in past ::
        && read.ReadCode? && read.flight == f && read.id == s.flights[f].decision.id && read.id in s.t.codes
        && Explains(read, s.flights[f].decision, s.t.codes[read.id])
  }

  /** What a stored code is, and whose, never changes. */
  lemma CodesKeepTheirDigits(s: System, e: Event, id: Id)
    requires id in s.t.codes
    ensures var code, codes' := s.t.codes[id], Fire(s, e).t.codes;
            && id in codes' && codes'[id].otp == code.otp && codes'[id].account == code.account
            && codes'[id].expiresAt == code.expiresAt && codes'[id].createdAt == code.createdAt
            && (code.consumed ==> codes'[id].consumed)
  {
    hide WithinCooldown, OtpMatches, IsCodeShaped, Decide;
  }

  /** A request that has read its code only ever writes. */
  lemma DecidedFlights(s: System, e: Event, f: nat)
    requires f in Fire(s, e).flights && Fire(s, e).flights[f].Deciding?
    ensures (f in s.flights && s.flights[f] == Fire(s, e).flights[f])
            || (e.ReadCode? && e.flight == f && e.id in s.t.codes && Fire(s, e).t == s.t
                && Fire(s, e).flights[f].decision == Decide(s.t.codes, e.id, e.submitted, e.passwordHash, e.now))
  {
    hide WithinCooldown, OtpMatches, IsCodeShaped, Decide;
  }

  lemma FireKeepsExplained(past: seq<Event>, s: System, e: Event)
    requires Inv(s) && AllExplained(past, s)
    ensures AllExplained(past + [e], Fire(s, e))
  {
    var s' := Fire(s, e);
    forall f | f in s'.flights && s'.flights[f].Deciding?
      ensures exists read: Event | read in past + [e] ::
                && read.ReadCode? && read.flight == f && read.id == s'.flights[f].decision.id && read.id in s'.t.codes
                && Explains(read, s'.flights[f].decision, s'.t.codes[read.id])
    {
      DecidedFlights(s, e, f);
      if f in s.flights && s.flights[f] == s'.flights[f] {
        var read: Event :| read in past && read.ReadCode? && read.flight == f && read.id == s.flights[f].decision.id
          && read.id in s.t.codes && Explains(read, s.flights[f].decision, s.t.codes[read.id]);
        CodesKeepTheirDigits(s, e, read.id);
        assert read in past + [e];
      } else {
        assert e in past + [e];
      }
    }
  }

  lemma {:induction false} RunsKeepExplained(past: seq<Event>, s: System, es: seq<Event>)
    requires Inv(s) && AllExplained(past, s)
    ensures Inv(FireAll(s, es)) && AllExplained(past + es, FireAll(s, es))
    decreases |es|
  {
    hide Inv, Fire, AllExplained;
    if es == [] {
      assert past + es == past;
    } else {
      FireKeepsInv(s, es[0]);
      FireKeepsExplained(past, s, es[0]);
      RunsKeepExplained(past + [es[0]], Fire(s, es[0]), es[1..]);
      assert past + [es[0]] + es[1..] == past + es;
    }
  }

  /**
   * Over every interleaving: whatever event redeems a code, its request read
   * that code earlier in the run, before the code expired, with exactly the
   * code's digits, and the password set is the one that request submitted.
   */
  lemma RedeemedByItsOwnDigits(s: System, es: seq<Event>, e: Event)
    requires Inv(s) && forall f | f in s.flights :: !s.flights[f].Deciding?
    requires Fire(FireAll(s, es), e).redeemed != FireAll(s, es).redeemed
    ensures exists read: Event | read in es ::
              var s1, s' := FireAll(s, es), Fire(FireAll(s, es), e);
              && read.ReadCode? && e == WriteDecision(read.flight) && read.id in s1.t.codes
              && read.submitted == s1.t.codes[read.id].otp && read.now < s1.t.codes[read.id].expiresAt
              && s'.redeemed == s1.redeemed + [read.id]
              && s'.t.credentials == s1.t.credentials[s1.t.codes[read.id].account := Credential(read.passwordHash, false)]
  {
    RunsKeepExplained([], s, es);
    assert [] + es == es;
    var s1 := FireAll(s, es);
    RedeemingEndsSessions(s1, e);
    hide FireAll, Inv;
    var d := s1.flights[e.flight].decision;
    var read: Event :| read in es && read.ReadCode? && read.flight == e.flight && read.id == d.id
      && read.id in s1.t.codes && Explains(read, d, s1.t.codes[read.id]);
  }

  /** Until it writes, a request stands where its read left it. */
  lemma {:induction false} FlightWaits(s: System, es: seq<Event>, f: nat, id: Id)
    requires f in s.flights && s.flights[f].Deciding? && WriteDecision(f) !in es && id in s.t.codes
    ensures var s' := FireAll(s, es);
            && f in s'.flights && s'.flights[f] == s.flights[f] && id in s'.t.codes
            && s'.t.codes[id].account == s.t.codes[id].account
    decreases |es|
  {
    if es != [] {
      CodesKeepTheirDigits(s, es[0], id);
      FlightKept(s, es[0], f);
      hide Fire;
      FlightWaits(Fire(s, es[0]), es[1..], f, id);
    }
  }

  lemma FlightKept(s: System, e: Event, f: nat)
    requires f in s.flights && s.flights[f].Deciding? && e != WriteDecision(f)
    ensures f in Fire(s, e).flights && Fire(s, e).flights[f] == s.flights[f]
  {
    hide WithinCooldown, OtpMatches, IsCodeShaped, Decide;
  }

  /**
   * Over every interleaving, what a reset that read a live code does when it
   * writes, whatever happened in between. It sets the password if and only if
   * its digits were the code's, in time, and the code is still live. Other
   * digits change no credential and no session, and raise the attempts unless
   * the code is gone or another failure was recorded since.
   */
  lemma DigitsDecide(s: System, read: Event, es: seq<Event>)
    requires Inv(s) && read.ReadCode? && read.flight !in s.flights && read.id in s.t.codes && !s.t.codes[read.id].consumed
    requires WriteDecision(read.flight) !in es
    ensures var code, s1 := s.t.codes[read.id], FireAll(Fire(s, read), es);
            var s', live := Fire(s1, WriteDecision(read.flight)), read.id in s1.t.codes && !s1.t.codes[read.id].consumed;
            && read.id in s1.t.codes
            && (s'.redeemed != s1.redeemed <==> live && read.now < code.expiresAt && read.submitted == code.otp)
            && (s'.redeemed != s1.redeemed ==>
                  && s'.redeemed == s1.redeemed + [read.id] && s'.t.codes == s1.t.codes[read.id := s1.t.codes[read.id].(consumed := true)]
                  && s'.t.credentials == s1.t.credentials[code.account := Credential(read.passwordHash, false)]
                  && forall x | x in s1.t.sessions :: x in s'.t.sessions &&
                       if s1.t.sessions[x].account == code.account then s'.t.sessions[x].revoked
                       else s'.t.sessions[x] == s1.t.sessions[x])
            && (s'.redeemed == s1.redeemed ==> s'.t.credentials == s1.t.credentials && s'.t.sessions == s1.t.sessions)
            && (live && read.now < code.expiresAt && read.submitted != code.otp && s1.t.codes[read.id].attempts == code.attempts ==>
                  s'.t.codes == s1.t.codes[read.id := s1.t.codes[read.id].(attempts := code.attempts + 1,
                                                                           consumed := 3 <= code.attempts + 1)])
            && (live && code.expiresAt <= read.now ==> s'.t.codes == s1.t.codes[read.id := s1.t.codes[read.id].(consumed := true)])
  {
    var s0 := Fire(s, read);
    FlightWaits(s0, es, read.flight, read.id);
    hide FireAll;
  }

  // ----- the budget of wrong attempts ----------------------------------

  /** Requests one after the other: a reset's read is followed at once by its write. */
  datatype Request =
    | Send(account: Account, askedAt: int, id: Id, otp: string, storedAt: int)
    | Reset(id: Id, submitted: string, passwordHash: string, now: int)
    | Other(event: Event)

  /** The events of one request, under an unused flight number. */
  function EventsOf(r: Request, flight: nat): seq<Event> {
    match r
    case Send(account, askedAt, id, otp, storedAt) =>
      [AskCode(flight, account, askedAt), StoreCode(flight, id, otp, storedAt)]
    case Reset(id, submitted, passwordHash, now) =>
      [ReadCode(flight, id, submitted, passwordHash, now), WriteDecision(flight)]
    case Other(e) => if e.ForcePassword? || e.BurnCodes? || e.StartSession? then [e] else []
  }

  function Serve(s: System, r: Request, flight: nat): System {
    FireAll(s, EventsOf(r, flight))
  }

  function ServeAll(s: System, rs: seq<Request>, flight: nat): System
    decreases |rs|
  {
    if rs == [] then s else ServeAll(Serve(s, rs[0], flight), rs[1..], flight + 1)
  }

  /** Every wrong comparison is on record. */
  ghost predicate WrongsRecorded(s: System) {
    && (forall c :: c in s.t.codes ==> Wrong(s, c) == s.t.codes[c].attempts)
    && (forall c :: c !in s.t.codes ==> Wrong(s, c) == 0)
  }

  /** The requests, numbered `since` or later, that found their submission wrong and have not written that yet. */
  function Undecided(flights: map<nat, Flight>, since: nat, c: Id): set<nat> {
    set f | f in flights && since <= f && flights[f].Deciding? && flights[f].decision.CountWrong?
            && flights[f].decision.id == c
  }

  /** Those of them whose write can still succeed. */
  function Current(s: System, since: nat, c: Id): set<nat>
    requires c in s.t.codes
  {
    set f | f in Undecided(s.flights, since, c) && s.flights[f].decision.attempts == s.t.codes[c].attempts
  }

  /** The reads of the run are by requests numbered `since` or later, of which at most `k` are undecided about `c` at any time. */
  predicate OverlapAtMost(s: System, es: seq<Event>, since: nat, c: Id, k: nat)
    decreases |es|
  {
    && |Undecided(s.flights, since, c)| <= k
    && (es == [] || ((es[0].ReadCode? ==> since <= es[0].flight) && OverlapAtMost(Fire(s, es[0]), es[1..], since, c, k)))
  }

  /** What `k` overlapping requests can compare: `k` for each recorded attempt, and the ones in flight. */
  ghost predicate WithinBudget(s: System, since: nat, c: Id, k: nat) {
    if c !in s.t.codes then Wrong(s, c) == 0
    else if s.t.codes[c].consumed then Wrong(s, c) <= PASSWORD_RESET_OTP_MAX_ATTEMPTS * k
    else Wrong(s, c) <= s.t.codes[c].attempts * k + |Current(s, since, c)|
  }

  lemma Multiples(attempts: nat, k: nat)
    requires attempts < PASSWORD_RESET_OTP_MAX_ATTEMPTS
    ensures attempts * k + k <= PASSWORD_RESET_OTP_MAX_ATTEMPTS * k
    ensures attempts * k + k == (attempts + 1) * k
  {
  }

  lemma CurrentIsUndecided(s: System, since: nat, c: Id)
    requires c in s.t.codes
    ensures |Current(s, since, c)| <= |Undecided(s.flights, since, c)|
  {
    SubsetIsSmaller(Current(s, since, c), Undecided(s.flights, since, c));
  }

  lemma ReadKeepsBudget(s: System, e: Event, since: nat, c: Id, k: nat)
    requires Inv(s) && WithinBudget(s, since, c, k) && e.ReadCode? && since <= e.flight
    ensures WithinBudget(Fire(s, e), since, c, k)
  {
    var s' := Fire(s, e);
    if c in s.t.codes && e.flight !in s.flights {
      if s'.wrong != s.wrong && e.id == c {
        assert Current(s', since, c) == Current(s, since, c) + {e.flight};
      } else {
        assert Current(s', since, c) == Current(s, since, c);
      }
    }
    hide Inv, OtpMatches;
  }

  lemma WriteKeepsBudget(s: System, f: nat, since: nat, c: Id, k: nat)
    requires Inv(s) && WithinBudget(s, since, c, k) && |Undecided(s.flights, since, c)| <= k
    ensures WithinBudget(Fire(s, WriteDecision(f)), since, c, k)
  {
    var s' := Fire(s, WriteDecision(f));
    if c in s.t.codes && !s.t.codes[c].consumed {
      CurrentIsUndecided(s, since, c);
      Multiples(s.t.codes[c].attempts, k);
      if s'.t.codes[c] == s.t.codes[c] {
        assert Current(s', since, c) == Current(s, since, c);
      }
    }
  }

  lemma OthersDecideNothing(s: System, e: Event, since: nat, c: Id)
    requires !e.ReadCode? && !e.WriteDecision? && c in s.t.codes
    ensures c in Fire(s, e).t.codes
    ensures Fire(s, e).t.codes[c].attempts == s.t.codes[c].attempts ==> Current(Fire(s, e), since, c) == Current(s, since, c)
    ensures Wrong(Fire(s, e), c) == Wrong(s, c)
  {
    hide WithinCooldown, OtpMatches;
    assert Undecided(Fire(s, e).flights, since, c) == Undecided(s.flights, since, c);
  }

  lemma OthersKeepBudget(s: System, e: Event, since: nat, c: Id, k: nat)
    requires Inv(s) && WithinBudget(s, since, c, k) && |Undecided(s.flights, since, c)| <= k
    requires !e.ReadCode? && !e.WriteDecision?
    ensures WithinBudget(Fire(s, e), since, c, k)
  {
    hide WithinCooldown, OtpMatches, NoRepeats;
    var s' := Fire(s, e);
    if c in s.t.codes {
      assert s'.t.codes[c].attempts == s.t.codes[c].attempts && (s.t.codes[c].consumed ==> s'.t.codes[c].consumed);
      OthersDecideNothing(s, e, since, c);
      hide Fire, Undecided, Current;
      if !s.t.codes[c].consumed {
        CurrentIsUndecided(s, since, c);
        Multiples(s.t.codes[c].attempts, k);
      }
    }
  }

  lemma {:induction false} RunKeepsBudget(s: System, es: seq<Event>, since: nat, c: Id, k: nat)
    requires Inv(s) && WithinBudget(s, since, c, k) && OverlapAtMost(s, es, since, c, k)
    ensures Inv(FireAll(s, es)) && WithinBudget(FireAll(s, es), since, c, k)
    ensures Wrong(FireAll(s, es), c) <= PASSWORD_RESET_OTP_MAX_ATTEMPTS * k
    decreases |es|
  {
    if es == [] {
      BudgetAtMost(s, since, c, k);
    } else {
      FireKeepsInv(s, es[0]);
      match es[0] {
        case ReadCode(_, _, _, _, _) => ReadKeepsBudget(s, es[0], since, c, k);
        case WriteDecision(f) => WriteKeepsBudget(s, f, since, c, k);
        case _ => OthersKeepBudget(s, es[0], since, c, k);
      }
      hide Inv, Fire, WithinBudget, Undecided, Wrong;
      RunKeepsBudget(Fire(s, es[0]), es[1..], since, c, k);
    }
  }

  lemma BudgetAtMost(s: System, since: nat, c: Id, k: nat)
    requires Inv(s) && WithinBudget(s, since, c, k) && |Undecided(s.flights, since, c)| <= k
    ensures Wrong(s, c) <= PASSWORD_RESET_OTP_MAX_ATTEMPTS * k
  {
    if c in s.t.codes && !s.t.codes[c].consumed {
      CurrentIsUndecided(s, since, c);
      Multiples(s.t.codes[c].attempts, k);
    }
  }

  /**
   * Over every interleaving in which at most `k` requests at a time are
   * undecided about a code, at most `3 * k` wrong submissions are compared with it.
   */
  lemma OverlapBudget(s: System, es: seq<Event>, since: nat, c: Id, k: nat)
    requires Inv(s) && WrongsRecorded(s) && 1 <= k && OverlapAtMost(s, es, since, c, k)
    ensures Wrong(FireAll(s, es), c) <= PASSWORD_RESET_OTP_MAX_ATTEMPTS * k
  {
    RecordedIsWithin(s, since, c, k);
    RunKeepsBudget(s, es, since, c, k);
  }

  lemma RecordedIsWithin(s: System, since: nat, c: Id, k: nat)
    requires Inv(s) && WrongsRecorded(s) && 1 <= k
    ensures WithinBudget(s, since, c, k)
  {
    if c in s.t.codes {
      var n := s.t.codes[c].attempts;
      assert n <= PASSWORD_RESET_OTP_MAX_ATTEMPTS;
      assert n <= n * k && n * k <= PASSWORD_RESET_OTP_MAX_ATTEMPTS * k;
    }
  }

  // ----- requests one after the other ----------------------------------

  ghost predicate FlightsBelow(s: System, flight: nat) {
    forall f | f in s.flights :: f < flight
  }

  /** No request numbered `since` or later is undecided about `c`, and the next number is free. */
  ghost predicate Quiet(s: System, since: nat, flight: nat, c: Id) {
    FlightsBelow(s, flight) && Undecided(s.flights, since, c) == {}
  }

  lemma FirstEvent(s: System, e: Event, rest: seq<Event>, since: nat, c: Id, k: nat)
    ensures FireAll(s, [e] + rest) == FireAll(Fire(s, e), rest)
    ensures OverlapAtMost(s, [e] + rest, since, c, k) <==>
            && |Undecided(s.flights, since, c)| <= k && (e.ReadCode? ==> since <= e.flight)
            && OverlapAtMost(Fire(s, e), rest, since, c, k)
  {
    hide Fire, Undecided;
    assert ([e] + rest)[0] == e && ([e] + rest)[1..] == rest;
  }

  lemma NoEvents(s: System, since: nat, c: Id, k: nat)
    ensures FireAll(s, []) == s
    ensures OverlapAtMost(s, [], since, c, k) <==> |Undecided(s.flights, since, c)| <= k
  {
    hide Undecided;
  }

  lemma TwoEvents(s: System, a: Event, b: Event, since: nat, c: Id)
    ensures FireAll(s, [a, b]) == Fire(Fire(s, a), b)
    ensures OverlapAtMost(s, [a, b], since, c, 1) <==>
            && |Undecided(s.flights, since, c)| <= 1 && |Undecided(Fire(s, a).flights, since, c)| <= 1
            && |Undecided(Fire(Fire(s, a), b).flights, since, c)| <= 1
            && (a.ReadCode? ==> since <= a.flight) && (b.ReadCode? ==> since <= b.flight)
  {
    hide Fire, Undecided, FireAll, OverlapAtMost;
    assert [a, b] == [a] + [b];
    FirstEvent(s, a, [b], since, c, 1);
    OneEvent(Fire(s, a), b, since, c);
  }

  lemma OneEvent(s: System, a: Event, since: nat, c: Id)
    ensures FireAll(s, [a]) == Fire(s, a)
    ensures OverlapAtMost(s, [a], since, c, 1) <==>
            && |Undecided(s.flights, since, c)| <= 1 && |Undecided(Fire(s, a).flights, since, c)| <= 1
            && (a.ReadCode? ==> since <= a.flight)
  {
    hide Fire, Undecided, FireAll, OverlapAtMost;
    assert [a] == [a] + [];
    FirstEvent(s, a, [], since, c, 1);
    NoEvents(Fire(s, a), since, c, 1);
  }

  lemma ResetDoesNotOverlap(s: System, r: Request, since: nat, flight: nat, c: Id)
    requires Quiet(s, since, flight, c) && since <= flight && r.Reset?
    ensures Quiet(Serve(s, r, flight), since, flight + 1, c) && OverlapAtMost(s, EventsOf(r, flight), since, c, 1)
  {
    var read := ReadCode(flight, r.id, r.submitted, r.passwordHash, r.now);
    var s1 := Fire(s, read);
    TwoEvents(s, read, WriteDecision(flight), since, c);
    assert Undecided(s1.flights, since, c) <= {flight};
    SubsetIsSmaller(Undecided(s1.flights, since, c), {flight});
    assert Undecided(Fire(s1, WriteDecision(flight)).flights, since, c) == {};
    hide FireAll, OverlapAtMost;
  }

  lemma OtherRequestsDoNotOverlap(s: System, r: Request, since: nat, flight: nat, c: Id)
    requires Quiet(s, since, flight, c) && !r.Reset?
    ensures Quiet(Serve(s, r, flight), since, flight + 1, c) && OverlapAtMost(s, EventsOf(r, flight), since, c, 1)
  {
    match r
    case Send(account, askedAt, id, otp, storedAt) =>
      var ask := AskCode(flight, account, askedAt);
      TwoEvents(s, ask, StoreCode(flight, id, otp, storedAt), since, c);
      assert Undecided(Fire(s, ask).flights, since, c) == {};
      hide FireAll, OverlapAtMost, WithinCooldown, ConsumeAll;
    case Other(e) =>
      OneEvent(s, e, since, c);
  }

  lemma {:induction false} SequentialIsWithin(s: System, rs: seq<Request>, since: nat, flight: nat, c: Id)
    requires Inv(s) && WithinBudget(s, since, c, 1) && Quiet(s, since, flight, c) && since <= flight
    ensures Wrong(ServeAll(s, rs, flight), c) <= PASSWORD_RESET_OTP_MAX_ATTEMPTS
    decreases |rs|
  {
    hide Inv, WithinBudget, OverlapAtMost, FireAll, EventsOf;
    if rs == [] {
      BudgetAtMost(s, since, c, 1);
    } else {
      if rs[0].Reset? {
        ResetDoesNotOverlap(s, rs[0], since, flight, c);
      } else {
        OtherRequestsDoNotOverlap(s, rs[0], since, flight, c);
      }
      RunKeepsBudget(s, EventsOf(rs[0], flight), since, c, 1);
      SequentialIsWithin(Serve(s, rs[0], flight), rs[1..], since, flight + 1, c);
    }
  }

  /** Served one after the other, no code is compared with more than three wrong submissions: the case of one request at a time. */
  lemma SequentialBudget(s: System, rs: seq<Request>, flight: nat)
    requires Inv(s) && WrongsRecorded(s) && FlightsBelow(s, flight)
    ensures forall c :: Wrong(ServeAll(s, rs, flight), c) <= PASSWORD_RESET_OTP_MAX_ATTEMPTS
  {
    forall c
      ensures Wrong(ServeAll(s, rs, flight), c) <= PASSWORD_RESET_OTP_MAX_ATTEMPTS
    {
      RecordedIsWithin(s, flight, c, 1);
      SequentialIsWithin(s, rs, flight, flight, c);
    }
  }

  // ----- the bound is reached ------------------------------------------

  /** A wrong submission: the code read, the digits sent and the time. */
  datatype Guess = Guess(id: Id, submitted: string, passwordHash: string, now: int)

  /** Reads of one code by requests `f`, `f + 1`, ... that all overlap. */
  function OverlappingReads(f: nat, n: nat, g: Guess): seq<Event>
    decreases n
  {
    if n == 0 then [] else [ReadCode(f, g.id, g.submitted, g.passwordHash, g.now)] + OverlappingReads(f + 1, n - 1, g)
  }

  /** Then all of them write what they decided. */
  function Writes(f: nat, n: nat): seq<Event>
    decreases n
  {
    if n == 0 then [] else [WriteDecision(f)] + Writes(f + 1, n - 1)
  }

  function Rounds(f: nat, n: nat, rounds: nat, g: Guess): seq<Event>
    decreases rounds
  {
    if rounds == 0 then [] else OverlappingReads(f, n, g) + Writes(f, n) + Rounds(f + n, n, rounds - 1, g)
  }

  /** The numbers `f`, ..., `f + n - 1`. */
  function Span(f: nat, n: nat): set<nat>
    decreases n
  {
    if n == 0 then {} else {f} + Span(f + 1, n - 1)
  }

  lemma {:induction false} SpanIs(f: nat, n: nat)
    ensures |Span(f, n)| == n
    ensures forall i :: i in Span(f, n) <==> f <= i < f + n
    decreases n
  {
    if n > 0 {
      SpanIs(f + 1, n - 1);
    }
  }

  predicate IsWrong(s: System, g: Guess) {
    g.id in s.t.codes && g.now < s.t.codes[g.id].expiresAt && g.submitted != s.t.codes[g.id].otp
  }

  /** The flights once requests `f`, ..., `f + n - 1` stand at `flight`. */
  function WithFlights(flights: map<nat, Flight>, f: nat, n: nat, flight: Flight): map<nat, Flight> {
    map i | i in flights.Keys + Span(f, n) :: if i in Span(f, n) then flight else flights[i]
  }

  lemma NextFlight(flights: map<nat, Flight>, f: nat, n: nat, flight: Flight)
    ensures WithFlights(flights, f, 0, flight) == flights
    ensures 1 <= n ==> WithFlights(flights, f, n, flight) == WithFlights(flights[f := flight], f + 1, n - 1, flight)
  {
    if 1 <= n {
      assert Span(f, n) == {f} + Span(f + 1, n - 1);
      hide Span;
      assert WithFlights(flights, f, n, flight) == WithFlights(flights[f := flight], f + 1, n - 1, flight);
    }
  }

  lemma UndecidedGrows(flights: map<nat, Flight>, f: nat, id: Id, attempts: nat, since: nat)
    requires since <= f
    ensures Undecided(flights[f := Deciding(CountWrong(id, attempts))], since, id) == Undecided(flights, since, id) + {f}
    ensures |Undecided(flights[f := Deciding(CountWrong(id, attempts))], since, id)| <= |Undecided(flights, since, id)| + 1
  {
    var flights' := flights[f := Deciding(CountWrong(id, attempts))];
    forall g
      ensures g in Undecided(flights', since, id) <==> g in Undecided(flights, since, id) || g == f
    {
    }
    hide Undecided;
  }

  lemma UndecidedShrinks(flights: map<nat, Flight>, f: nat, id: Id, since: nat)
    ensures Undecided(flights[f := Done(false)], since, id) == Undecided(flights, since, id) - {f}
    ensures |Undecided(flights[f := Done(false)], since, id)| <= |Undecided(flights, since, id)|
  {
    var flights' := flights[f := Done(false)];
    assert Undecided(flights', since, id) == Undecided(flights, since, id) - {f};
    SubsetIsSmaller(Undecided(flights', since, id), Undecided(flights, since, id));
  }

  lemma {:induction false} FireConcat(s: System, a: seq<Event>, b: seq<Event>, since: nat, c: Id, k: nat)
    ensures FireAll(s, a + b) == FireAll(FireAll(s, a), b)
    ensures OverlapAtMost(s, a, since, c, k) && OverlapAtMost(FireAll(s, a), b, since, c, k) ==>
            OverlapAtMost(s, a + b, since, c, k)
    decreases |a|
  {
    hide Fire, Undecided;
    if a == [] {
      assert a + b == b;
    } else {
      assert (a + b)[1..] == a[1..] + b;
      FireConcat(Fire(s, a[0]), a[1..], b, since, c, k);
    }
  }

  lemma OneRead(s: System, f: nat, g: Guess)
    requires IsWrong(s, g) && !s.t.codes[g.id].consumed && f !in s.flights
    ensures var s' := Fire(s, ReadCode(f, g.id, g.submitted, g.passwordHash, g.now));
            && s'.t == s.t && Wrong(s', g.id) == Wrong(s, g.id) + 1
            && s'.flights == s.flights[f := Deciding(CountWrong(g.id, s.t.codes[g.id].attempts))]
  {
  }

  /** Any number of requests can compare the same live code before the first records its failure. */
  lemma {:induction false} OverlappingReadsCompare(s: System, f: nat, n: nat, g: Guess, since: nat, k: nat)
    requires IsWrong(s, g) && !s.t.codes[g.id].consumed && FlightsBelow(s, f) && since <= f
    requires |Undecided(s.flights, since, g.id)| + n <= k
    ensures var s' := FireAll(s, OverlappingReads(f, n, g));
            && s'.t == s.t && Wrong(s', g.id) == Wrong(s, g.id) + n
            && s'.flights == WithFlights(s.flights, f, n, Deciding(CountWrong(g.id, s.t.codes[g.id].attempts)))
    ensures OverlapAtMost(s, OverlappingReads(f, n, g), since, g.id, k)
    decreases n
  {
    hide Fire, Undecided, Wrong, OtpMatches, FireAll, OverlapAtMost, WithFlights, Span;
    NextFlight(s.flights, f, n, Deciding(CountWrong(g.id, s.t.codes[g.id].attempts)));
    if n == 0 {
      NoEvents(s, since, g.id, k);
    } else {
      var e, rest := ReadCode(f, g.id, g.submitted, g.passwordHash, g.now), OverlappingReads(f + 1, n - 1, g);
      OneRead(s, f, g);
      UndecidedGrows(s.flights, f, g.id, s.t.codes[g.id].attempts, since);
      FirstEvent(s, e, rest, since, g.id, k);
      assert OverlappingReads(f, n, g) == [e] + rest;
      OverlappingReadsCompare(Fire(s, e), f + 1, n - 1, g, since, k);
    }
  }

  /** A write of a request that found the code wrong at `attempts`. */
  lemma OneWrite(s: System, f: nat, id: Id, attempts: nat)
    requires id in s.t.codes && f in s.flights && s.flights[f] == Deciding(CountWrong(id, attempts))
    ensures var code, s' := s.t.codes[id], Fire(s, WriteDecision(f));
            && s'.wrong == s.wrong && s'.flights == s.flights[f := Done(false)]
            && s'.t.codes == (if code.consumed || code.attempts != attempts then s.t.codes
                              else s.t.codes[id := code.(attempts := attempts + 1,
                                                         consumed := attempts + 1 >= PASSWORD_RESET_OTP_MAX_ATTEMPTS)])
  {
  }

  /** Requests `f` to `f + n - 1` have found the code wrong at `attempts`. */
  ghost predicate AllUndecided(s: System, f: nat, n: nat, id: Id, attempts: nat) {
    forall i | f <= i < f + n :: i in s.flights && s.flights[i] == Deciding(CountWrong(id, attempts))
  }

  /** Writes that come too late change nothing but their own requests. */
  lemma {:induction false} LateWrites(s: System, f: nat, n: nat, id: Id, attempts: nat, since: nat, k: nat)
    requires id in s.t.codes && s.t.codes[id].attempts != attempts && AllUndecided(s, f, n, id, attempts)
    requires |Undecided(s.flights, since, id)| <= k
    ensures var s' := FireAll(s, Writes(f, n));
            && s'.t.codes == s.t.codes && s'.wrong == s.wrong && s'.flights == WithFlights(s.flights, f, n, Done(false))
    ensures OverlapAtMost(s, Writes(f, n), since, id, k)
    decreases n
  {
    hide Fire, Undecided, FireAll, OverlapAtMost, WithFlights, Span;
    NextFlight(s.flights, f, n, Done(false));
    if n == 0 {
      NoEvents(s, since, id, k);
    } else {
      var e, rest := WriteDecision(f), Writes(f + 1, n - 1);
      OneWrite(s, f, id, attempts);
      UndecidedShrinks(s.flights, f, id, since);
      FirstEvent(s, e, rest, since, id, k);
      assert Writes(f, n) == [e] + rest;
      LateWrites(Fire(s, e), f + 1, n - 1, id, attempts, since, k);
    }
  }

  /** Of writes that overlapped, the first is recorded. */
  lemma WritesCountOnce(s: System, f: nat, n: nat, id: Id, attempts: nat, since: nat)
    requires 1 <= n && id in s.t.codes && !s.t.codes[id].consumed && s.t.codes[id].attempts == attempts
    requires AllUndecided(s, f, n, id, attempts) && |Undecided(s.flights, since, id)| <= n
    ensures var s' := FireAll(s, Writes(f, n));
            && s'.wrong == s.wrong && s'.flights == WithFlights(s.flights, f, n, Done(false))
            && s'.t.codes == s.t.codes[id := s.t.codes[id].(
                 attempts := attempts + 1, consumed := attempts + 1 >= PASSWORD_RESET_OTP_MAX_ATTEMPTS)]
    ensures OverlapAtMost(s, Writes(f, n), since, id, n)
  {
    hide Fire, Undecided, FireAll, OverlapAtMost, WithFlights, Span;
    var e, rest := WriteDecision(f), Writes(f + 1, n - 1);
    NextFlight(s.flights, f, n, Done(false));
    OneWrite(s, f, id, attempts);
    UndecidedShrinks(s.flights, f, id, since);
    FirstEvent(s, e, rest, since, id, n);
    assert Writes(f, n) == [e] + rest;
    LateWrites(Fire(s, e), f + 1, n - 1, id, attempts, since, n);
  }

  /** After a round nothing is undecided again. */
  lemma RoundFlights(s: System, f: nat, n: nat, id: Id, attempts: nat, since: nat)
    requires Quiet(s, since, f, id) && since <= f
    ensures var read := WithFlights(s.flights, f, n, Deciding(CountWrong(id, attempts)));
            var done := WithFlights(read, f, n, Done(false));
            && Undecided(read, since, id) == Span(f, n)
            && (forall i | f <= i < f + n :: i in read && read[i] == Deciding(CountWrong(id, attempts)))
            && Undecided(done, since, id) == {}
            && forall i | i in done :: i < f + n
  {
    var read := WithFlights(s.flights, f, n, Deciding(CountWrong(id, attempts)));
    SpanIs(f, n);
    hide Span;
    forall i | i in s.flights
      ensures i !in Undecided(s.flights, since, id)
    {
    }
    forall i
      ensures i in Undecided(read, since, id) <==> i in Span(f, n)
    {
    }
  }

  lemma SameWrong(s: System, s': System, id: Id)
    requires s'.wrong == s.wrong
    ensures Wrong(s', id) == Wrong(s, id)
  {
  }

  /** One round: `n` wrong comparisons, one recorded attempt. */
  lemma OneRound(s: System, f: nat, n: nat, g: Guess, since: nat)
    requires 1 <= n && IsWrong(s, g) && !s.t.codes[g.id].consumed && since <= f && Quiet(s, since, f, g.id)
    ensures var code, s' := s.t.codes[g.id], FireAll(s, OverlappingReads(f, n, g) + Writes(f, n));
            && Wrong(s', g.id) == Wrong(s, g.id) + n && Quiet(s', since, f + n, g.id)
            && s'.t.codes == s.t.codes[g.id := code.(
                 attempts := code.attempts + 1, consumed := code.attempts + 1 >= PASSWORD_RESET_OTP_MAX_ATTEMPTS)]
    ensures OverlapAtMost(s, OverlappingReads(f, n, g) + Writes(f, n), since, g.id, n)
  {
    hide Undecided, Span, OverlappingReads, Writes, OverlapAtMost, FireAll, WithFlights, OtpMatches, Wrong;
    var s1 := FireAll(s, OverlappingReads(f, n, g));
    RoundFlights(s, f, n, g.id, s.t.codes[g.id].attempts, since);
    SpanIs(f, n);
    OverlappingReadsCompare(s, f, n, g, since, n);
    WritesCountOnce(s1, f, n, g.id, s.t.codes[g.id].attempts, since);
    SameWrong(s1, FireAll(s1, Writes(f, n)), g.id);
    FireConcat(s, OverlappingReads(f, n, g), Writes(f, n), since, g.id, n);
  }

  lemma {:induction false} RoundsCompare(s: System, f: nat, n: nat, rounds: nat, g: Guess, since: nat)
    requires 1 <= n && IsWrong(s, g) && since <= f && Quiet(s, since, f, g.id)
    requires rounds > 0 ==> !s.t.codes[g.id].consumed
    requires s.t.codes[g.id].attempts + rounds == PASSWORD_RESET_OTP_MAX_ATTEMPTS
    ensures Wrong(FireAll(s, Rounds(f, n, rounds, g)), g.id) == Wrong(s, g.id) + rounds * n
    ensures OverlapAtMost(s, Rounds(f, n, rounds, g), since, g.id, n)
    decreases rounds
  {
    hide FireAll, OverlapAtMost, OverlappingReads, Writes, Wrong, Undecided;
    if rounds == 0 {
      NoEvents(s, since, g.id, n);
    } else {
      var round, rest := OverlappingReads(f, n, g) + Writes(f, n), Rounds(f + n, n, rounds - 1, g);
      OneRound(s, f, n, g, since);
      var s1 := FireAll(s, round);
      RoundsCompare(s1, f + n, n, rounds - 1, g, since);
      FireConcat(s, round, rest, since, g.id, n);
      assert (rounds - 1) * n + n == rounds * n;
    }
  }

  /** The bound is tight: `n` requests at a time do compare `3 * n` wrong submissions with a fresh code. */
  lemma BudgetIsTight(s: System, f: nat, n: nat, g: Guess)
    requires 1 <= n && IsWrong(s, g) && FlightsBelow(s, f) && Wrong(s, g.id) == 0
    requires !s.t.codes[g.id].consumed && s.t.codes[g.id].attempts == 0
    ensures var es := Rounds(f, n, PASSWORD_RESET_OTP_MAX_ATTEMPTS, g);
            OverlapAtMost(s, es, f, g.id, n) && Wrong(FireAll(s, es), g.id) == PASSWORD_RESET_OTP_MAX_ATTEMPTS * n
  {
    RoundsCompare(s, f, n, PASSWORD_RESET_OTP_MAX_ATTEMPTS, g, f);
  }

  /** The three attempts of a fresh code are a bound on comparisons if and only if requests about it do not overlap. */
  lemma ThreeAttemptsIffNoOverlap(s: System, f: nat, c: Id, k: nat)
    requires Inv(s) && WrongsRecorded(s) && FlightsBelow(s, f) && 1 <= k
    requires c in s.t.codes && !s.t.codes[c].consumed && s.t.codes[c].attempts == 0
    ensures (forall es | OverlapAtMost(s, es, f, c, k) :: Wrong(FireAll(s, es), c) <= PASSWORD_RESET_OTP_MAX_ATTEMPTS)
            <==> k == 1
  {
    forall es | OverlapAtMost(s, es, f, c, k)
      ensures Wrong(FireAll(s, es), c) <= PASSWORD_RESET_OTP_MAX_ATTEMPTS * k
    {
      OverlapBudget(s, es, f, c, k);
    }
    var g := Guess(c, "", "", s.t.codes[c].expiresAt - 1);
    BudgetIsTight(s, f, k, g);
    hide OverlapAtMost, FireAll, Rounds, Inv, Wrong;
    var es := Rounds(f, k, PASSWORD_RESET_OTP_MAX_ATTEMPTS, g);
    assert OverlapAtMost(s, es, f, c, k);
  }

  // ----- the life of a code --------------------------------------------

  lemma {:induction false} CodesKeptOverRun(s: System, es: seq<Event>, id: Id)
    requires id in s.t.codes
    ensures var code, codes' := s.t.codes[id], FireAll(s, es).t.codes;
            id in codes' && codes'[id].account == code.account && codes'[id].createdAt == code.createdAt
    decreases |es|
  {
    if es != [] {
      CodesKeepTheirDigits(s, es[0], id);
      hide Fire;
      CodesKeptOverRun(Fire(s, es[0]), es[1..], id);
    }
  }

  /** Over every interleaving: for a minute after a code is stored, no other request of its account starts sending one. */
  lemma NoSecondCodeWithinMinute(s: System, f: nat, id: Id, otp: string, now: int, es: seq<Event>, g: nat, later: int)
    requires f in s.flights && s.flights[f].Sending? && id !in s.t.codes && IsCodeShaped(otp) && later < now + 60 * 1000
    ensures var s1 := FireAll(Fire(s, StoreCode(f, id, otp, now)), es);
            g !in s1.flights ==> Fire(s1, AskCode(g, s.flights[f].account, later)) == s1.(flights := s1.flights[g := Done(false)])
  {
    CodesKeptOverRun(Fire(s, StoreCode(f, id, otp, now)), es, id);
    hide FireAll;
  }

  lemma NoLiveCodeKept(s: System, e: Event, account: Account)
    requires Inv(s) && LiveCodes(s.t.codes, account) == {}
    requires !e.StoreCode? && !(e.ForcePassword? && e.account == account)
    ensures LiveCodes(Fire(s, e).t.codes, account) == {}
    ensures account in Fire(s, e).t.credentials <==> account in s.t.credentials
    ensures account in s.t.credentials ==> Fire(s, e).t.credentials[account] == s.t.credentials[account]
  {
    hide WithinCooldown, IsCodeShaped, OtpMatches, NoRepeats, LiveCodes;
    assert Fire(s, e).t.codes.Keys == s.t.codes.Keys;
    forall c | c in s.t.codes
      ensures Fire(s, e).t.codes[c].account == s.t.codes[c].account && (s.t.codes[c].consumed ==> Fire(s, e).t.codes[c].consumed)
    {
      CodesKeepTheirDigits(s, e, c);
    }
    NoLiveCode(s.t.codes, account);
    NoLiveCode(Fire(s, e).t.codes, account);
  }

  lemma NoLiveCode(codes: Codes, account: Account)
    ensures LiveCodes(codes, account) == {} <==> forall c | c in codes && codes[c].account == account :: codes[c].consumed
  {
    if LiveCodes(codes, account) == {} {
      forall c | c in codes && codes[c].account == account
        ensures codes[c].consumed
      {
        assert c !in LiveCodes(codes, account);
      }
    }
  }

  lemma {:induction false} SettledOverRun(s: System, es: seq<Event>, account: Account)
    requires Inv(s) && LiveCodes(s.t.codes, account) == {}
    requires forall e | e in es :: !e.StoreCode? && !(e.ForcePassword? && e.account == account)
    ensures var s' := FireAll(s, es);
            && LiveCodes(s'.t.codes, account) == {} && (account in s'.t.credentials <==> account in s.t.credentials)
            && (account in s.t.credentials ==> s'.t.credentials[account] == s.t.credentials[account])
    decreases |es|
  {
    hide Inv, Fire, LiveCodes;
    if es != [] {
      assert es[0] in es;
      NoLiveCodeKept(s, es[0], account);
      FireKeepsInv(s, es[0]);
      SettledOverRun(Fire(s, es[0]), es[1..], account);
    }
  }

  /**
   * Over every interleaving: once a forced reset has burned the account's
   * codes, its password stands until a new code is stored or it is forced
   * again, whatever resets had read before, and every session of before is over.
   */
  lemma ForcedPasswordStands(s: System, account: Account, passwordHash: string, es: seq<Event>)
    requires Inv(s) && forall e | e in es :: !e.StoreCode? && !(e.ForcePassword? && e.account == account)
    ensures var s1 := Fire(Fire(s, ForcePassword(account, passwordHash)), BurnCodes(account));
            var s' := FireAll(s1, es);
            && account in s'.t.credentials && s'.t.credentials[account] == Credential(passwordHash, true)
            && (forall c | c in s'.t.codes && s'.t.codes[c].account == account :: s'.t.codes[c].consumed)
            && (forall x | x in s.t.sessions && s.t.sessions[x].account == account ::
                  x in s1.t.sessions && s1.t.sessions[x].revoked)
  {
    var s0 := Fire(s, ForcePassword(account, passwordHash));
    var s1 := Fire(s0, BurnCodes(account));
    FireKeepsInv(s, ForcePassword(account, passwordHash));
    FireKeepsInv(s0, BurnCodes(account));
    NoLiveCode(s1.t.codes, account);
    SettledOverRun(s1, es, account);
    NoLiveCode(FireAll(s1, es).t.codes, account);
    hide FireAll, Inv;
  }

  /**
   * A new code is the account's only live one. For a minute no other is sent;
   * for five minutes the right digits set the password; after that the code expires.
   */
  lemma CodeLifetime(codes: Codes, account: Account, id: Id, otp: string, now: int, later: int, passwordHash: string)
    requires id !in codes && now <= later && IsCodeShaped(otp)
    requires forall c | c in codes && codes[c].account == account :: codes[c].createdAt <= now
    ensures var codes' := IssueCode(codes, account, id, otp, now);
            && LiveCodes(codes', account) == {id}
            && (forall c | c in codes && codes[c].account != account :: codes'[c] == codes[c])
            && (WithinCooldown(codes', account, later) <==> later < now + 60 * 1000)
            && (Decide(codes', id, otp, passwordHash, later) ==
                if later < now + 5 * 60 * 1000 then SetPassword(id, account, passwordHash) else Expire(id))
  {
    var codes' := IssueCode(codes, account, id, otp, now);
    assert codes'[id].account == account;
  }
}
