/**
 The second login factor over its tables. Each SQL statement is one step and the steps of any
 number of logins, completions, renewals and revocations interleave freely.
 */
module Mfa {
  import opened Text
  import Login

  type User = nat

  /** Random identifiers, taken to be fresh. */
  type Id = nat

  datatype Challenge = Challenge(user: User, expires: int)

  datatype Code = Code(user: User, used: bool)

  /** `DELETE ... WHERE id=?` claims the row for the caller that removes it. */
  predicate Claims(challenges: map<Id, Challenge>, id: Id, record: Challenge, now: int) {
    id in challenges && record.expires > now
  }

  /** `UPDATE ... WHERE id=? AND used_at IS NULL` affects a row. */
  predicate Unused(codes: map<Id, Code>, id: Id) {
    id in codes && !codes[id].used
  }

  function Marked(codes: map<Id, Code>, id: Id): map<Id, Code>
    requires id in codes
  {
    codes[id := codes[id].(used := true)]
  }

  /** The statements of one completion, with no other caller between them. */
  class Service {
    var challenges: map<Id, Challenge>
    var codes: map<Id, Code>
    var sessions: map<Id, User>

    method ClaimMFAChallenge(id: Id, now: int) returns (claimed: Option<Challenge>)
      modifies this`challenges
      ensures challenges == old(challenges) - {id}
      ensures claimed.Some? <==> id in old(challenges) && old(challenges)[id].expires > now
      ensures claimed.Some? ==> claimed.value == old(challenges)[id]
    {
      if id !in challenges {
        return None;
      }
      var record := challenges[id];
      var claims := Claims(challenges, id, record, now);
      challenges := challenges - {id};
      return if claims then Some(record) else None;
    }

    method MarkRecoveryCodeUsed(id: Id) returns (ok: bool)
      modifies this`codes
      ensures ok == Unused(old(codes), id)
      ensures codes == if ok then Marked(old(codes), id) else old(codes)
    {
      ok := Unused(codes, id);
      if ok {
        codes := Marked(codes, id);
      }
    }

    /**
      * The code loop of `verifyMFA` over the listed codes: the first match that is still unused is
      * spent, and only that one.
      */
    method SpendRecoveryCode(listed: seq<Id>, matches: Id -> bool) returns (spent: Option<Id>)
      modifies this`codes
      ensures spent.Some? <==> exists i :: 0 <= i < |listed| && matches(listed[i]) && Unused(old(codes), listed[i])
      ensures spent.Some? ==> spent.value in listed && matches(spent.value) && Unused(old(codes), spent.value)
      ensures codes == if spent.Some? then Marked(old(codes), spent.value) else old(codes)
    {
      for i := 0 to |listed|
        invariant codes == old(codes)
        invariant forall j :: 0 <= j < i ==> !(matches(listed[j]) && Unused(codes, listed[j]))
      {
        if matches(listed[i]) {
          var ok := MarkRecoveryCodeUsed(listed[i]);
          if ok {
            return Some(listed[i]);
          }
        }
      }
      return None;
    }

    /** `created` says whether the user lookup and the session insert at the end succeed. */
    method CompleteMFA(id: Id, now: int, bound: bool, totpOk: bool, listed: seq<Id>, matches: Id -> bool, created: bool, token: Id)
      returns (session: Option<Id>)
      modifies this
      ensures challenges == old(challenges) - {id}
      ensures session.Some? <==>
                && id in old(challenges) && old(challenges)[id].expires > now && bound && created
                && (totpOk || exists i :: 0 <= i < |listed| && matches(listed[i]) && Unused(old(codes), listed[i]))
      ensures sessions == if session.Some? then old(sessions)[token := old(challenges)[id].user] else old(sessions)
      ensures totpOk || !bound || id !in old(challenges) || old(challenges)[id].expires <= now ==> codes == old(codes)
      ensures codes == old(codes) || exists c :: c in listed && matches(c) && Unused(old(codes), c) && codes == Marked(old(codes), c)
      ensures session.Some? && !totpOk ==> codes != old(codes)
    {
      var claimed := ClaimMFAChallenge(id, now);
      if claimed.None? || !bound {
        return None;
      }
      if !totpOk {
        var spent := SpendRecoveryCode(listed, matches);
        if spent.None? {
          return None;
        }
      }
      if !created {
        return None;
      }
      sessions := sessions[token := claimed.value.user];
      return Some(token);
    }
  }

  /** Where a running completion stands. */
  datatype Phase =
    | Read(challenge: Id, record: Challenge)
    | Claimed(challenge: Id, user: User)
    | Trying(challenge: Id, user: User, listed: seq<Id>)
    | Verified(challenge: Id, user: User, code: Option<Id>)
    | Done

  /** How a session came to be. */
  datatype Origin =
    | Password(user: User, mfaRequired: bool)
    | Completed(user: User, call: Id, challenge: Id, code: Option<Id>)
    | Renewed(user: User, session: Id)

  datatype Claim = Claim(call: Id, user: User, at: int, expires: int)

  datatype Spend = Spend(call: Id, user: User)

  datatype Renewal = Renewal(session: Id, user: User)

  /** The tables, the running calls, and what has happened so far. */
  datatype State = State(next: Id, challenges: map<Id, Challenge>, codes: map<Id, Code>, sessions: map<Id, User>,
                         calls: map<Id, Phase>, renewals: map<Id, Renewal>,
                         issued: map<Id, Challenge>, claims: map<Id, Claim>, spent: map<Id, Spend>, born: map<Id, Origin>)

  datatype Step =
    | BeginLogin(accounts: Login.Accounts, attempt: Login.Attempt, expires: int)
    | Sweep(ids: set<Id>)
    | Select(challenge: Id)
    | Delete(call: Id, now: int)
    | CheckTotp(call: Id, bound: bool, totpOk: bool, listed: seq<Id>)
    | TryCode(call: Id, matches: bool)
    | CreateSession(call: Id)
    | Abort(call: Id)
    | AddCode(user: User)
    | DropCodes(user: User)
    | DropSessions(ids: set<Id>)
    | SelectSession(session: Id)
    | InsertRenewed(call: Id)

  ghost predicate KeepsOrigins(s: State, r: State) {
    forall id :: id in s.born && id < s.next ==> id in r.born && r.born[id] == s.born[id]
  }

  const Empty := State(0, map[], map[], map[], map[], map[], map[], map[], map[], map[])

  /** `UnusedRecoveryCodes`: unused codes of the user, in any order. */
  predicate Lists(codes: map<Id, Code>, user: User, listed: seq<Id>) {
    forall i :: 0 <= i < |listed| ==> Unused(codes, listed[i]) && codes[listed[i]].user == user
  }

  function NewSession(s: State, o: Origin): State {
    s.(next := s.next + 1, sessions := s.sessions[s.next := o.user], born := s.born[s.next := o])
  }

  function NewChallenge(s: State, c: Challenge): (r: State)
    ensures KeepsOrigins(s, r)
  {
    s.(next := s.next + 1, challenges := s.challenges[s.next := c], issued := s.issued[s.next := c])
  }

  /**
    * The last statement of a `BeginLogin` whose answer, on the account rows it has read, is a challenge or a
    * session.
    */
  function DoLogin(s: State, accounts: Login.Accounts, x: Login.Attempt, expires: int): (r: State)
    ensures KeepsOrigins(s, r)
  {
    match Login.Answer(accounts, x)
    case ChallengeIssued => NewChallenge(s, Challenge(x.user, expires))
    case SessionCreated => NewSession(s, Password(x.user, x.mfaRequired))
    case _ => s
  }

  function DoSelect(s: State, challenge: Id): (r: State)
    ensures KeepsOrigins(s, r)
  {
    if challenge in s.challenges then
      s.(next := s.next + 1, calls := s.calls[s.next := Read(challenge, s.challenges[challenge])])
    else s
  }

  /** The claimed challenge is gone for everyone else, and its user is the one the call goes on for. */
  function ClaimEffect(s: State, call: Id, id: Id, claim: Claim): (r: State)
    ensures id !in r.challenges && call in r.calls && r.calls[call] == Claimed(id, claim.user)
    ensures r.sessions == s.sessions && r.codes == s.codes && r.next == s.next
  {
    s.(challenges := s.challenges - {id}, calls := s.calls[call := Claimed(id, claim.user)], claims := s.claims[id := claim])
  }

  function SpendEffect(s: State, call: Id, p: Phase, code: Id): State
    requires p.Trying? && code in s.codes
  {
    s.(codes := Marked(s.codes, code), calls := s.calls[call := Verified(p.challenge, p.user, Some(code))],
       spent := s.spent[code := Spend(call, p.user)])
  }

  /** The expiry check and the delete; claimed only by the call whose delete removed the row. */
  function DoDelete(s: State, call: Id, now: int): (r: State)
    ensures KeepsOrigins(s, r)
  {
    if call in s.calls && s.calls[call].Read? then
      var id, record := s.calls[call].challenge, s.calls[call].record;
      if Claims(s.challenges, id, record, now) then
        ClaimEffect(s, call, id, Claim(call, record.user, now, record.expires))
      else s.(challenges := s.challenges - {id}, calls := s.calls[call := Done])
    else s
  }

  function DoCheckTotp(s: State, call: Id, bound: bool, totpOk: bool, listed: seq<Id>): (r: State)
    ensures KeepsOrigins(s, r)
  {
    if call in s.calls && s.calls[call].Claimed? then
      var p := s.calls[call];
      if !bound then s.(calls := s.calls[call := Done])
      else if totpOk then s.(calls := s.calls[call := Verified(p.challenge, p.user, None)])
      else if Lists(s.codes, p.user, listed) then s.(calls := s.calls[call := Trying(p.challenge, p.user, listed)])
      else s
    else s
  }

  function DoTryCode(s: State, call: Id, matches: bool): (r: State)
    ensures KeepsOrigins(s, r)
  {
    if call in s.calls && s.calls[call].Trying? then
      var p := s.calls[call];
      if p.listed == [] then s.(calls := s.calls[call := Done])
      else if matches && Unused(s.codes, p.listed[0]) then
        SpendEffect(s, call, p, p.listed[0])
      else s.(calls := s.calls[call := p.(listed := p.listed[1..])])
    else s
  }

  function DoCreateSession(s: State, call: Id): (r: State)
    ensures KeepsOrigins(s, r)
  {
    if call in s.calls && s.calls[call].Verified? then
      var p := s.calls[call];
      NewSession(s.(calls := s.calls[call := Done]), Completed(p.user, call, p.challenge, p.code))
    else s
  }

  function DoSelectSession(s: State, session: Id): (r: State)
    ensures KeepsOrigins(s, r)
  {
    if session in s.sessions then
      s.(next := s.next + 1, renewals := s.renewals[s.next := Renewal(session, s.sessions[session])])
    else s
  }

  /** The insert of `RotateSession`; its delete of the old row is a `DropSessions`. */
  function DoInsertRenewed(s: State, call: Id): (r: State)
    ensures KeepsOrigins(s, r)
  {
    if call in s.renewals then
      var r := s.renewals[call];
      NewSession(s.(renewals := s.renewals - {call}), Renewed(r.user, r.session))
    else s
  }

  function Apply(s: State, step: Step): (r: State)
    ensures KeepsOrigins(s, r)
  {
    match step
    case BeginLogin(accounts, x, expires) => DoLogin(s, accounts, x, expires)
    case Sweep(ids) => s.(challenges := s.challenges - ids)
    case Select(challenge) => DoSelect(s, challenge)
    case Delete(call, now) => DoDelete(s, call, now)
    case CheckTotp(call, bound, totpOk, listed) => DoCheckTotp(s, call, bound, totpOk, listed)
    case TryCode(call, matches) => DoTryCode(s, call, matches)
    case CreateSession(call) => DoCreateSession(s, call)
    case Abort(call) => if call in s.calls then s.(calls := s.calls[call := Done]) else s
    case AddCode(user) => s.(next := s.next + 1, codes := s.codes[s.next := Code(user, false)])
    case DropCodes(user) => s.(codes := map id | id in s.codes && s.codes[id].user != user :: s.codes[id])
    case DropSessions(ids) => s.(sessions := s.sessions - ids)
    case SelectSession(session) => DoSelectSession(s, session)
    case InsertRenewed(call) => DoInsertRenewed(s, call)
  }

  ghost predicate IsRun(steps: seq<Step>, log: seq<State>) {
    |log| == |steps| + 1 && log[0] == Empty && forall i :: 0 <= i < |steps| ==> log[i + 1] == Apply(log[i], steps[i])
  }

  /** Identifiers in use are below the next one. */
  ghost predicate Fresh(s: State) {
    && (forall c :: c in s.issued ==> c < s.next)
    && (forall c :: c in s.codes ==> c < s.next)
    && (forall c :: c in s.spent ==> c < s.next)
    && (forall c :: c in s.born ==> c < s.next)
    && (forall c :: c in s.calls ==> c < s.next)
  }

  /** A stored challenge is as issued and unclaimed; a claimed one was issued to that user and had not expired. */
  ghost predicate ChallengesOk(challenges: map<Id, Challenge>, issued: map<Id, Challenge>, claims: map<Id, Claim>) {
    && (forall c :: c in challenges ==> c in issued && challenges[c] == issued[c] && c !in claims)
    && (forall c :: c in claims ==>
          c in issued && issued[c] == Challenge(claims[c].user, claims[c].expires) && claims[c].at < claims[c].expires)
  }

  ghost predicate HoldsClaim(claims: map<Id, Claim>, challenge: Id, call: Id, user: User) {
    challenge in claims && claims[challenge].call == call && claims[challenge].user == user
  }

  ghost predicate HoldsCode(spent: map<Id, Spend>, code: Option<Id>, call: Id, user: User) {
    code.Some? ==> code.value in spent && spent[code.value] == Spend(call, user)
  }

  ghost predicate PhaseOk(issued: map<Id, Challenge>, claims: map<Id, Claim>, spent: map<Id, Spend>, call: Id, p: Phase) {
    match p
    case Read(c, record) => c in issued && issued[c] == record
    case Claimed(c, user) => HoldsClaim(claims, c, call, user)
    case Trying(c, user, listed) => HoldsClaim(claims, c, call, user)
    case Verified(c, user, code) => HoldsClaim(claims, c, call, user) && HoldsCode(spent, code, call, user)
    case Done => true
  }

  ghost predicate PhasesOk(calls: map<Id, Phase>, issued: map<Id, Challenge>, claims: map<Id, Claim>, spent: map<Id, Spend>) {
    forall call :: call in calls ==> PhaseOk(issued, claims, spent, call, calls[call])
  }

  /** Codes a call has listed are its user's. */
  ghost predicate ListOk(codes: map<Id, Code>, next: Id, p: Phase) {
    p.Trying? ==>
      forall i :: 0 <= i < |p.listed| ==>
        p.listed[i] < next && (p.listed[i] in codes ==> codes[p.listed[i]].user == p.user)
  }

  ghost predicate ListsOk(calls: map<Id, Phase>, codes: map<Id, Code>, next: Id) {
    forall call :: call in calls ==> ListOk(codes, next, calls[call])
  }

  /** Spent codes are never unused again. */
  ghost predicate CodesOk(codes: map<Id, Code>, spent: map<Id, Spend>) {
    forall c :: c in spent && c in codes ==> codes[c].used && codes[c].user == spent[c].user
  }

  ghost predicate OriginOk(born: map<Id, Origin>, calls: map<Id, Phase>, claims: map<Id, Claim>, spent: map<Id, Spend>, id: Id, o: Origin) {
    match o
    case Password(_, mfaRequired) => !mfaRequired
    case Completed(user, call, c, code) =>
      call in calls && calls[call] == Done && HoldsClaim(claims, c, call, user) && HoldsCode(spent, code, call, user)
    case Renewed(user, session) => session < id && session in born && born[session].user == user
  }

  ghost predicate OriginsOk(born: map<Id, Origin>, calls: map<Id, Phase>, claims: map<Id, Claim>, spent: map<Id, Spend>) {
    forall id :: id in born ==> OriginOk(born, calls, claims, spent, id, born[id])
  }

  ghost predicate OnePerCall(born: map<Id, Origin>) {
    forall a, b :: a in born && b in born && born[a].Completed? && born[b].Completed? && born[a].call == born[b].call ==> a == b
  }

  ghost predicate SessionsOk(sessions: map<Id, User>, renewals: map<Id, Renewal>, born: map<Id, Origin>) {
    && (forall id :: id in sessions ==> id in born && born[id].user == sessions[id])
    && (forall c :: c in renewals ==> renewals[c].session in born && born[renewals[c].session].user == renewals[c].user)
  }

  ghost predicate Inv(s: State) {
    && Fresh(s)
    && ChallengesOk(s.challenges, s.issued, s.claims)
    && CodesOk(s.codes, s.spent)
    && PhasesOk(s.calls, s.issued, s.claims, s.spent)
    && ListsOk(s.calls, s.codes, s.next)
    && OriginsOk(s.born, s.calls, s.claims, s.spent)
    && OnePerCall(s.born)
    && SessionsOk(s.sessions, s.renewals, s.born)
  }

  /** A call not yet done may move on to any phase that holds what it needs. */
  lemma AdvanceKeeps(s: State, call: Id, q: Phase)
    requires Inv(s) && call in s.calls && (s.calls[call] != Done || q == Done)
    requires PhaseOk(s.issued, s.claims, s.spent, call, q) && ListOk(s.codes, s.next, q)
    ensures Inv(s.(calls := s.calls[call := q]))
  {
  }

  predicate NewCall(born: map<Id, Origin>, o: Origin) {
    o.Completed? ==> forall a :: a in born && born[a].Completed? ==> born[a].call != o.call
  }

  /** A session under a new identifier, with its origin. */
  lemma BornGrows(born: map<Id, Origin>, calls: map<Id, Phase>, claims: map<Id, Claim>, spent: map<Id, Spend>,
                  sessions: map<Id, User>, renewals: map<Id, Renewal>, id: Id, o: Origin)
    requires OriginsOk(born, calls, claims, spent) && OnePerCall(born) && SessionsOk(sessions, renewals, born)
    requires id !in born && OriginOk(born, calls, claims, spent, id, o) && NewCall(born, o)
    ensures OriginsOk(born[id := o], calls, claims, spent) && OnePerCall(born[id := o])
    ensures SessionsOk(sessions[id := o.user], renewals, born[id := o])
  {
  }

  lemma NewSessionKeeps(s: State, o: Origin)
    requires Inv(s) && OriginOk(s.born, s.calls, s.claims, s.spent, s.next, o) && NewCall(s.born, o)
    ensures Inv(NewSession(s, o))
  {
    BornGrows(s.born, s.calls, s.claims, s.spent, s.sessions, s.renewals, s.next, o);
  }

  lemma NewChallengeKeeps(s: State, c: Challenge)
    requires Inv(s)
    ensures Inv(NewChallenge(s, c))
  {
  }

  lemma LoginKeeps(s: State, accounts: Login.Accounts, x: Login.Attempt, expires: int)
    requires Inv(s)
    ensures Inv(DoLogin(s, accounts, x, expires))
  {
    Login.AnswersExactly(accounts, x);
    match Login.Answer(accounts, x)
    case ChallengeIssued => NewChallengeKeeps(s, Challenge(x.user, expires));
    case SessionCreated => NewSessionKeeps(s, Password(x.user, x.mfaRequired));
    case _ =>
  }

  lemma SelectKeeps(s: State, challenge: Id)
    requires Inv(s)
    ensures Inv(DoSelect(s, challenge))
  {
  }

  lemma ClaimsGrow(calls: map<Id, Phase>, issued: map<Id, Challenge>, claims: map<Id, Claim>, spent: map<Id, Spend>,
                   born: map<Id, Origin>, call: Id, id: Id, claim: Claim)
    requires PhasesOk(calls, issued, claims, spent) && OriginsOk(born, calls, claims, spent)
    requires call in calls && calls[call] != Done && id !in claims && claim.call == call
    ensures PhasesOk(calls[call := Claimed(id, claim.user)], issued, claims[id := claim], spent)
    ensures OriginsOk(born, calls[call := Claimed(id, claim.user)], claims[id := claim], spent)
  {
  }

  lemma ClaimKeeps(s: State, call: Id, id: Id, claim: Claim)
    requires Inv(s) && call in s.calls && s.calls[call] != Done && id in s.challenges
    requires claim.call == call && s.challenges[id] == Challenge(claim.user, claim.expires) && claim.at < claim.expires
    ensures Inv(ClaimEffect(s, call, id, claim))
  {
    ClaimsGrow(s.calls, s.issued, s.claims, s.spent, s.born, call, id, claim);
  }

  lemma DeleteKeeps(s: State, call: Id, now: int)
    requires Inv(s)
    ensures Inv(DoDelete(s, call, now))
  {
    if call in s.calls && s.calls[call].Read? {
      var id, record := s.calls[call].challenge, s.calls[call].record;
      assert PhaseOk(s.issued, s.claims, s.spent, call, s.calls[call]);
      if Claims(s.challenges, id, record, now) {
        ClaimKeeps(s, call, id, Claim(call, record.user, now, record.expires));
      } else {
        AdvanceKeeps(s, call, Done);
      }
    }
  }

  lemma CheckTotpKeeps(s: State, call: Id, bound: bool, totpOk: bool, listed: seq<Id>)
    requires Inv(s)
    ensures Inv(DoCheckTotp(s, call, bound, totpOk, listed))
  {
    if call in s.calls && s.calls[call].Claimed? {
      var p := s.calls[call];
      assert PhaseOk(s.issued, s.claims, s.spent, call, p);
      if !bound {
        AdvanceKeeps(s, call, Done);
      } else if totpOk {
        AdvanceKeeps(s, call, Verified(p.challenge, p.user, None));
      } else if Lists(s.codes, p.user, listed) {
        AdvanceKeeps(s, call, Trying(p.challenge, p.user, listed));
      }
    }
  }

  lemma SpentGrows(calls: map<Id, Phase>, issued: map<Id, Challenge>, claims: map<Id, Claim>, spent: map<Id, Spend>,
                   born: map<Id, Origin>, call: Id, p: Phase, code: Id)
    requires PhasesOk(calls, issued, claims, spent) && OriginsOk(born, calls, claims, spent)
    requires call in calls && calls[call] == p && p.Trying? && code !in spent
    ensures PhasesOk(calls[call := Verified(p.challenge, p.user, Some(code))], issued, claims, spent[code := Spend(call, p.user)])
    ensures OriginsOk(born, calls[call := Verified(p.challenge, p.user, Some(code))], claims, spent[code := Spend(call, p.user)])
  {
  }

  lemma SpendKeeps(s: State, call: Id, p: Phase, code: Id)
    requires Inv(s) && call in s.calls && s.calls[call] == p && p.Trying? && code in p.listed && Unused(s.codes, code)
    ensures Inv(SpendEffect(s, call, p, code))
  {
    assert ListOk(s.codes, s.next, p);
    SpentGrows(s.calls, s.issued, s.claims, s.spent, s.born, call, p, code);
  }

  lemma TryCodeKeeps(s: State, call: Id, matches: bool)
    requires Inv(s)
    ensures Inv(DoTryCode(s, call, matches))
  {
    if call in s.calls && s.calls[call].Trying? {
      var p := s.calls[call];
      if p.listed == [] {
        AdvanceKeeps(s, call, Done);
      } else if matches && Unused(s.codes, p.listed[0]) {
        SpendKeeps(s, call, p, p.listed[0]);
      } else {
        assert PhaseOk(s.issued, s.claims, s.spent, call, p) && ListOk(s.codes, s.next, p);
        AdvanceKeeps(s, call, p.(listed := p.listed[1..]));
      }
    }
  }

  lemma CreateSessionKeeps(s: State, call: Id)
    requires Inv(s)
    ensures Inv(DoCreateSession(s, call))
  {
    if call in s.calls && s.calls[call].Verified? {
      var p := s.calls[call];
      assert PhaseOk(s.issued, s.claims, s.spent, call, p);
      forall a | a in s.born && s.born[a].Completed? ensures s.born[a].call != call {
        assert OriginOk(s.born, s.calls, s.claims, s.spent, a, s.born[a]);
      }
      AdvanceKeeps(s, call, Done);
      NewSessionKeeps(s.(calls := s.calls[call := Done]), Completed(p.user, call, p.challenge, p.code));
    }
  }

  lemma SelectSessionKeeps(s: State, session: Id)
    requires Inv(s)
    ensures Inv(DoSelectSession(s, session))
  {
  }

  lemma InsertRenewedKeeps(s: State, call: Id)
    requires Inv(s)
    ensures Inv(DoInsertRenewed(s, call))
  {
    if call in s.renewals {
      var r := s.renewals[call];
      NewSessionKeeps(s.(renewals := s.renewals - {call}), Renewed(r.user, r.session));
    }
  }

  lemma AddCodeKeeps(s: State, user: User)
    requires Inv(s)
    ensures Inv(Apply(s, AddCode(user)))
  {
  }

  lemma DropCodesKeeps(s: State, user: User)
    requires Inv(s)
    ensures Inv(Apply(s, DropCodes(user)))
  {
  }

  lemma DropRowsKeeps(s: State, ids: set<Id>)
    requires Inv(s)
    ensures Inv(Apply(s, Sweep(ids))) && Inv(Apply(s, DropSessions(ids)))
  {
  }

  lemma StepKeeps(s: State, step: Step)
    requires Inv(s)
    ensures Inv(Apply(s, step))
  {
    match step
    case BeginLogin(accounts, x, expires) => LoginKeeps(s, accounts, x, expires);
    case Select(challenge) => SelectKeeps(s, challenge);
    case Delete(call, now) => DeleteKeeps(s, call, now);
    case CheckTotp(call, bound, totpOk, listed) => CheckTotpKeeps(s, call, bound, totpOk, listed);
    case TryCode(call, matches) => TryCodeKeeps(s, call, matches);
    case CreateSession(call) => CreateSessionKeeps(s, call);
    case SelectSession(session) => SelectSessionKeeps(s, session);
    case InsertRenewed(call) => InsertRenewedKeeps(s, call);
    case Abort(call) =>
      if call in s.calls {
        AdvanceKeeps(s, call, Done);
      }
    case AddCode(user) => AddCodeKeeps(s, user);
    case DropCodes(user) => DropCodesKeeps(s, user);
    case Sweep(ids) => DropRowsKeeps(s, ids);
    case DropSessions(ids) => DropRowsKeeps(s, ids);
  }

  lemma {:induction false} RunKeeps(steps: seq<Step>, log: seq<State>, i: nat)
    requires IsRun(steps, log) && i < |log|
    ensures Inv(log[i])
  {
    if i > 0 {
      RunKeeps(steps, log, i - 1);
      StepKeeps(log[i - 1], steps[i - 1]);
    }
  }

  /** The session at the end of a chain of renewals. */
  ghost function Root(born: map<Id, Origin>, id: Id): (root: Id)
    requires id in born
    ensures root in born
  {
    if born[id].Renewed? && born[id].session < id && born[id].session in born then Root(born, born[id].session) else id
  }

  lemma {:induction false} RootOk(s: State, id: Id)
    requires OriginsOk(s.born, s.calls, s.claims, s.spent) && id in s.born
    ensures var r := Root(s.born, id);
            r in s.born && !s.born[r].Renewed? && s.born[r].user == s.born[id].user
            && OriginOk(s.born, s.calls, s.claims, s.spent, r, s.born[r])
    decreases id
  {
    assert OriginOk(s.born, s.calls, s.claims, s.spent, id, s.born[id]);
    if s.born[id].Renewed? {
      RootOk(s, s.born[id].session);
    }
  }

  /** The origin is a claim, before its expiry, of a challenge issued to `user`. */
  ghost predicate ByClaim(s: State, o: Origin, user: User) {
    && o.Completed? && o.challenge in s.claims
    && s.claims[o.challenge] == Claim(o.call, user, s.claims[o.challenge].at, s.claims[o.challenge].expires)
    && s.claims[o.challenge].at < s.claims[o.challenge].expires
    && o.challenge in s.issued && s.issued[o.challenge] == Challenge(user, s.claims[o.challenge].expires)
  }

  /**
    * Every session ever stored traces back through renewals to a login of its own user: a password
    * login that did not require the second factor, or a claimed, unexpired challenge of that user.
    */
  lemma SessionsTraced(steps: seq<Step>, log: seq<State>, i: nat, id: Id)
    requires IsRun(steps, log) && i < |log| && id in log[i].sessions
    ensures id in log[i].born
    ensures var o := log[i].born[Root(log[i].born, id)];
            ByClaim(log[i], o, log[i].sessions[id]) || o == Password(log[i].sessions[id], false)
  {
    RunKeeps(steps, log, i);
    RootOk(log[i], id);
  }

  /** In any interleaving each challenge and each recovery code is behind at most one origin session. */
  lemma SingleUse(steps: seq<Step>, log: seq<State>, i: nat, a: Id, b: Id)
    requires IsRun(steps, log) && i < |log| && a in log[i].born && b in log[i].born
    requires log[i].born[a].Completed? && log[i].born[b].Completed?
    requires || log[i].born[a].challenge == log[i].born[b].challenge
             || (log[i].born[a].code == log[i].born[b].code && log[i].born[a].code.Some?)
    ensures a == b
  {
    RunKeeps(steps, log, i);
    var s := log[i];
    assert OriginOk(s.born, s.calls, s.claims, s.spent, a, s.born[a]);
    assert OriginOk(s.born, s.calls, s.claims, s.spent, b, s.born[b]);
  }

  lemma StepKeepsOrigin(steps: seq<Step>, log: seq<State>, i: nat, id: Id)
    requires IsRun(steps, log) && i < |steps| && id in log[i].born
    ensures id in log[i + 1].born && log[i + 1].born[id] == log[i].born[id]
  {
    RunKeeps(steps, log, i);
    assert KeepsOrigins(log[i], log[i + 1]);
  }

  ghost predicate KeepsOrigin(s: State, t: State, id: Id) {
    id in s.born ==> id in t.born && t.born[id] == s.born[id]
  }

  lemma {:induction false} OriginKept(log: seq<State>, i: nat, j: nat, id: Id)
    requires i <= j < |log| && id in log[i].born && forall k :: i <= k < j ==> KeepsOrigin(log[k], log[k + 1], id)
    ensures id in log[j].born && log[j].born[id] == log[i].born[id]
  {
    if i < j {
      OriginKept(log, i, j - 1, id);
      assert KeepsOrigin(log[j - 1], log[j - 1 + 1], id);
    }
  }

  /** Origins are never rewritten, so what holds of a session's origin holds for the rest of the run. */
  lemma OriginsStay(steps: seq<Step>, log: seq<State>, i: nat, j: nat, id: Id)
    requires IsRun(steps, log) && i <= j < |log| && id in log[i].born
    ensures id in log[j].born && log[j].born[id] == log[i].born[id]
  {
    forall k | i <= k < j ensures KeepsOrigin(log[k], log[k + 1], id) {
      if id in log[k].born {
        StepKeepsOrigin(steps, log, k, id);
      }
    }
    OriginKept(log, i, j, id);
  }

  // ---- What completions bring about ----

  /** A call that read a stored challenge claims it if it has not expired, and then no other call can. */
  lemma ClaimSucceeds(s: State, call: Id, c: Id, record: Challenge, now: int)
    requires call in s.calls && s.calls[call] == Read(c, record) && c in s.challenges
    ensures record.expires > now ==> DoDelete(s, call, now) == ClaimEffect(s, call, c, Claim(call, record.user, now, record.expires))
    ensures record.expires <= now ==> DoDelete(s, call, now) == s.(challenges := s.challenges - {c}, calls := s.calls[call := Done])
  {
  }

  /** A valid code then makes a session of the challenge's user. */
  lemma CompletesByTotp(s: State, call: Id, c: Id, user: User)
    requires call in s.calls && s.calls[call] == Claimed(c, user)
    ensures DoCreateSession(DoCheckTotp(s, call, true, true, []), call).sessions == s.sessions[s.next := user]
    ensures DoCreateSession(DoCheckTotp(s, call, false, true, []), call).sessions == s.sessions
  {
  }

  /** So does an unused recovery code of that user, which is spent. */
  lemma CompletesByCode(s: State, call: Id, c: Id, user: User, code: Id)
    requires call in s.calls && s.calls[call] == Claimed(c, user) && Unused(s.codes, code) && s.codes[code].user == user
    ensures var s' := DoTryCode(DoCheckTotp(s, call, true, false, [code]), call, true);
            && !Unused(s'.codes, code) && s'.sessions == s.sessions
            && DoCreateSession(s', call).sessions == s.sessions[s.next := user]
  {
    var s1 := DoCheckTotp(s, call, true, false, [code]);
    assert s1.calls[call] == Trying(c, user, [code]);
  }
}
