/**
 Change requests from creation to their final state. Every SQL statement is one step; approval and
 execution handlers, job workers and trackers interleave, and the process may crash at any point.
 */
module ChangeRequests {
  import opened Text

  type RequestId = nat
  type JobId = nat
  type UserId = nat

  datatype Status = PendingApproval | Approved | Rejected | Expired | Executing | Completed | Failed | Cancelled | RolledBack

  datatype JobStatus = Queued | Active | Success | JobFailed | Partial | JobCancelled | JobRolledBack

  datatype Risk = RiskRead | RiskLow | RiskMedium | RiskHigh | RiskDestructive | RiskEmergency

  datatype Policy = Policy(risk: Risk, requiresApproval: bool, requiresWindow: bool, requiresSeparation: bool)

  /** What a request is created with; `gated` is the policy of its operation, see `GatedByPolicy`. */
  datatype Facts = Facts(operation: string, gated: bool, requester: UserId, start: int, end: int, expires: int)

  datatype Row = Row(facts: Facts, status: Status, job: Option<JobId>, approver: Option<UserId>, approvedAt: int)

  type Table = map<RequestId, Row>

  function Free(risk: Risk): Policy {
    Policy(risk, false, false, false)
  }

  function Gated(risk: Risk): Policy {
    Policy(risk, true, true, true)
  }

  /** The operations that need no approval: the inspections, validation, share creation and update, and rollback. */
  const UNGATED: set<string> := {
    "system.inspect", "filesystem.inspect", "acl.read", "cups.inspect", "domain.member.diagnose",
    "samba.config.validate", "share.create", "share.update", "rollback.execute"}

  /**
    * The policy table; every operation not named here, known or unknown, is of high risk. Approval, maintenance window and
    * separation of duties are asked for together, and exactly from high risk on.
    */
  function PolicyFor(operation: string): (p: Policy)
    ensures p.requiresApproval == p.requiresWindow == p.requiresSeparation
    ensures p.requiresApproval <==> p.risk.RiskHigh? || p.risk.RiskDestructive?
    ensures !p.requiresApproval <==> operation in UNGATED
    ensures p.risk.RiskDestructive? <==> operation in {"share.delete", "samba.ad_dc.promote"}
  {
    match operation
    case "system.inspect" => Free(RiskRead)
    case "filesystem.inspect" => Free(RiskRead)
    case "acl.read" => Free(RiskRead)
    case "cups.inspect" => Free(RiskRead)
    case "domain.member.diagnose" => Free(RiskRead)
    case "samba.config.validate" => Free(RiskLow)
    case "share.create" => Free(RiskMedium)
    case "share.update" => Free(RiskMedium)
    case "share.delete" => Gated(RiskDestructive)
    case "samba.ad_dc.promote" => Gated(RiskDestructive)
    case "rollback.execute" => Free(RiskMedium)
    case _ => Gated(RiskHigh)
  }

  predicate Terminal(s: JobStatus) {
    !s.Queued? && !s.Active?
  }

  /** The final state a tracker writes for a finished job. */
  function Verdict(s: JobStatus): FinalStatus
    requires Terminal(s)
  {
    match s
    case Success => Completed
    case JobFailed => Failed
    case Partial => Failed
    case JobCancelled => Cancelled
    case JobRolledBack => RolledBack
  }

  predicate Final(s: Status) {
    s.Completed? || s.Failed? || s.Cancelled? || s.RolledBack?
  }

  type FinalStatus = s: Status | Final(s) witness Completed

  predicate Absorbing(s: Status) {
    Final(s) || s.Rejected? || s.Expired?
  }

  predicate Has(t: Table, r: RequestId, s: Status) {
    r in t && t[r].status == s
  }

  /** `UPDATE ... SET status, approved_by, approved_at WHERE status = 'pending_approval'`. */
  function Decided(t: Table, r: RequestId, who: UserId, verdict: Status, at: int): (t': Table)
    requires verdict.Approved? || verdict.Rejected?
    ensures TableStep(t, t') && Quiet(t, t') && t'.Keys == t.Keys
    ensures verdict.Rejected? ==> NoApproval(t, t')
  {
    if Has(t, r, PendingApproval) then t[r := t[r].(status := verdict, approver := Some(who), approvedAt := at)] else t
  }

  function ExpiredAt(t: Table, r: RequestId): (t': Table)
    ensures TableStep(t, t') && Quiet(t, t') && t'.Keys == t.Keys && NoApproval(t, t')
  {
    if Has(t, r, PendingApproval) then t[r := t[r].(status := Expired)] else t
  }

  /** `UPDATE ... SET status = 'executing', job_id WHERE status = 'approved'`. */
  function Claimed(t: Table, r: RequestId, j: JobId): (t': Table)
    ensures TableStep(t, t') && NoApproval(t, t') && t'.Keys == t.Keys
  {
    if Has(t, r, Approved) then t[r := t[r].(status := Executing, job := Some(j))] else t
  }

  /** `UPDATE ... SET status = 'approved', job_id = NULL WHERE status = 'executing' AND job_id = ?`. */
  function Released(t: Table, r: RequestId, j: JobId): (t': Table)
    ensures TableStep(t, t') && NoApproval(t, t') && t'.Keys == t.Keys
  {
    if Has(t, r, Executing) && t[r].job == Some(j) then t[r := t[r].(status := Approved, job := None)] else t
  }

  /** `UPDATE ... SET status WHERE status = 'executing'`: not guarded by the job id. */
  function Finished(t: Table, r: RequestId, verdict: FinalStatus): (t': Table)
    ensures TableStep(t, t') && NoApproval(t, t') && t'.Keys == t.Keys
  {
    if Has(t, r, Executing) then t[r := t[r].(status := verdict)] else t
  }

  /** What one statement may do to one row; its facts never change. */
  predicate RowStep(a: Row, b: Row) {
    && a.facts == b.facts
    && (a == b || match a.status
                  case PendingApproval => b.status.Approved? || b.status.Rejected? || b.status.Expired?
                  case Approved => b.status.Executing? && b.approver == a.approver && b.approvedAt == a.approvedAt
                  case Executing =>
                    (b.status.Approved? || Final(b.status)) && b.approver == a.approver && b.approvedAt == a.approvedAt
                  case _ => false)
  }

  predicate PastApproval(s: Status) {
    s.Approved? || s.Executing? || Final(s)
  }

  /** No gated request becomes approved. */
  predicate NoApproval(t: Table, t': Table) {
    forall r :: r in t' && t'[r].facts.gated && PastApproval(t'[r].status) ==>
      r in t && PastApproval(t[r].status) && t'[r].approver == t[r].approver && t'[r].approvedAt == t[r].approvedAt
  }

  predicate TableStep(t: Table, t': Table) {
    forall r :: r in t ==> r in t' && RowStep(t[r], t'[r])
  }

  lemma SameTable(t: Table)
    ensures TableStep(t, t) && NoApproval(t, t)
  {
  }

  /** Rows that are executing or done stay as they are, and no others join them. */
  predicate Quiet(t: Table, t': Table) {
    && (forall q :: q in t && (t[q].status.Executing? || Final(t[q].status)) ==> q in t' && t'[q] == t[q])
    && (forall q :: q in t' && Final(t'[q].status) ==> q in t && t'[q] == t[q])
  }

  /** The guarded updates as store methods; each reports whether one row was affected. */
  class Store {
    var requests: Table

    method DecideChangeRequest(r: RequestId, who: UserId, approve: bool, readAt: int, at: int) returns (ok: bool)
      modifies this
      ensures ok <==> Has(old(requests), r, PendingApproval) && readAt < old(requests)[r].facts.expires
      ensures requests == if !Has(old(requests), r, PendingApproval) then old(requests)
                          else if ok then Decided(old(requests), r, who, if approve then Approved else Rejected, at)
                          else ExpiredAt(old(requests), r)
      ensures ok ==> requests[r] == old(requests)[r].(status := if approve then Approved else Rejected, approver := Some(who), approvedAt := at)
      ensures !ok && Has(old(requests), r, PendingApproval) ==> requests[r] == old(requests)[r].(status := Expired)
      ensures requests - {r} == old(requests) - {r}
    {
      if r !in requests || requests[r].status != PendingApproval {
        return false;
      }
      if requests[r].facts.expires <= readAt {
        requests := requests[r := requests[r].(status := Expired)];
        return false;
      }
      requests := requests[r := requests[r].(status := if approve then Approved else Rejected, approver := Some(who), approvedAt := at)];
      return true;
    }

    method SetChangeRequestJob(r: RequestId, j: JobId) returns (ok: bool)
      modifies this
      ensures ok <==> Has(old(requests), r, Approved)
      ensures requests == Claimed(old(requests), r, j)
      ensures requests == if ok then old(requests)[r := old(requests)[r].(status := Executing, job := Some(j))] else old(requests)
    {
      ok := r in requests && requests[r].status == Approved;
      if ok {
        requests := requests[r := requests[r].(status := Executing, job := Some(j))];
      }
    }

    method ResetChangeRequestJob(r: RequestId, j: JobId) returns (ok: bool)
      modifies this
      ensures ok <==> Has(old(requests), r, Executing) && old(requests)[r].job == Some(j)
      ensures requests == Released(old(requests), r, j)
      ensures requests == if ok then old(requests)[r := old(requests)[r].(status := Approved, job := None)] else old(requests)
    {
      ok := r in requests && requests[r].status == Executing && requests[r].job == Some(j);
      if ok {
        requests := requests[r := requests[r].(status := Approved, job := None)];
      }
    }

    method CompleteChangeRequest(r: RequestId, verdict: Status) returns (ok: bool)
      modifies this
      ensures ok <==> Final(verdict) && Has(old(requests), r, Executing)
      ensures requests == if Final(verdict) then Finished(old(requests), r, verdict) else old(requests)
      ensures requests == if ok then old(requests)[r := old(requests)[r].(status := verdict)] else old(requests)
    {
      if !Final(verdict) {
        return false;
      }
      ok := r in requests && requests[r].status == Executing;
      if ok {
        requests := requests[r := requests[r].(status := verdict)];
      }
    }
  }

  /** Where an execute handler is: checked the request, claimed it, or about to undo the claim. */
  datatype Execute = Checked(request: RequestId, at: int) | Claiming(request: RequestId, job: JobId) | Undoing(request: RequestId, job: JobId)

  /** Where a decision handler is, after it read the request. */
  datatype Decide = Deciding(request: RequestId, who: UserId, approve: bool, readAt: int) | Expiring(request: RequestId)

  /** A tracker polls its job, then writes the final state it has read. */
  datatype Tracker = Polling(request: RequestId, job: JobId) | Writing(request: RequestId, job: JobId, verdict: FinalStatus)

  /** An approval: who, on which reading of the clock, and the time it was stamped with. */
  datatype Decision = Decision(who: UserId, readAt: int, writtenAt: int)
  datatype Claim = Claim(request: RequestId, checkedAt: int)

  /** The tables, the running goroutines, and a record of what happened (`claimant`, `made`, `decisions`, `claims`). */
  datatype State = State(
    requests: Table, jobs: map<JobId, JobStatus>, next: JobId, claimant: map<JobId, nat>,
    executes: map<nat, Execute>, decides: map<nat, Decide>, workers: set<JobId>, trackers: map<nat, Tracker>,
    made: map<JobId, RequestId>, decisions: map<RequestId, Decision>, claims: seq<Claim>)

  const START: State := State(map[], map[], 0, map[], map[], map[], {}, map[], map[], map[], [])

  datatype Step =
    | Create(r: RequestId, operation: string, requester: UserId, start: int, end: int, now: int)
    | ReadForDecision(h: nat, r: RequestId, who: UserId, approve: bool, now: int)
    | WriteDecision(h: nat, now: int)
    | CheckExecute(h: nat, r: RequestId, now: int)
    | ClaimRequest(h: nat, job: JobId)
    | InsertJob(h: nat, ok: bool, tracker: nat)
    | Undo(h: nat, ok: bool)
    | OtherJob(job: JobId)
    | Work(job: JobId, status: JobStatus, ok: bool)
    | Poll(k: nat)
    | WriteFinal(k: nat, ok: bool)
    | GiveUp(k: nat)
    | Crash

  predicate NoNewCheck(e: map<nat, Execute>, e': map<nat, Execute>) {
    forall h :: h in e' && e'[h].Checked? ==> h in e && e'[h] == e[h]
  }

  /** Approve needs a gated operation and another user; reject needs another user. */
  predicate MayDecide(row: Row, who: UserId, approve: bool) {
    (approve ==> row.facts.gated) && row.facts.requester != who
  }

  predicate InWindow(row: Row, now: int) {
    row.facts.gated ==> row.facts.start <= now < row.facts.end
  }

  predicate CanCreate(s: State, r: RequestId, gated: bool, start: int, end: int, now: int) {
    r !in s.requests && (gated ==> start < end && now < end)
  }

  function CreateEffect(s: State, r: RequestId, operation: string, gated: bool, requester: UserId, start: int, end: int): (s': State)
    requires r !in s.requests
    ensures TableStep(s.requests, s'.requests) && Quiet(s.requests, s'.requests)
    ensures s' == s.(requests := s'.requests)
    ensures s'.decides == s.decides && s'.executes == s.executes && s'.claims == s.claims
    ensures NoApproval(s.requests, s'.requests) && s'.decisions == s.decisions
  {
    s.(requests := s.requests[r := Row(Facts(operation, gated, requester, start, end, end),
                                       if gated then PendingApproval else Approved, None, None, 0)])
  }

  /** `Request`, with the operation's policy: a gated operation needs a window that ends later than it starts and than now. */
  function DoCreate(s: State, r: RequestId, operation: string, gated: bool, requester: UserId, start: int, end: int, now: int): (s': State)
    ensures TableStep(s.requests, s'.requests)
    ensures s'.decides == s.decides && s'.executes == s.executes && s'.claims == s.claims
    ensures NoApproval(s.requests, s'.requests) && s'.decisions == s.decisions
  {
    if CanCreate(s, r, gated, start, end, now) then CreateEffect(s, r, operation, gated, requester, start, end) else s
  }

  /** The reads and checks of `Approve` and `Reject`. */
  function DoReadForDecision(s: State, h: nat, r: RequestId, who: UserId, approve: bool, now: int): (s': State)
    ensures s'.requests == s.requests && s'.decisions == s.decisions
    ensures s'.executes == s.executes && s'.claims == s.claims
  {
    if h in s.decides || !Has(s.requests, r, PendingApproval) || !MayDecide(s.requests[r], who, approve) then s
    else s.(decides := s.decides[h := if now < s.requests[r].facts.expires then Deciding(r, who, approve, now) else Expiring(r)])
  }

  predicate CanDecide(s: State, h: nat) {
    h in s.decides && Has(s.requests, s.decides[h].request, PendingApproval)
  }

  function ApproveEffect(s: State, h: nat, now: int): (s': State)
    requires CanDecide(s, h) && s.decides[h].Deciding?
    ensures s'.requests.Keys == s.requests.Keys
    ensures TableStep(s.requests, s'.requests) && Quiet(s.requests, s'.requests)
    ensures s'.decides == s.decides - {h} && s'.executes == s.executes && s'.claims == s.claims
    ensures s' == s.(requests := s'.requests, decides := s'.decides, decisions := s'.decisions)
  {
    var d := s.decides[h];
    s.(requests := Decided(s.requests, d.request, d.who, Approved, now), decides := s.decides - {h},
       decisions := s.decisions[d.request := Decision(d.who, d.readAt, now)])
  }

  function DecideEffect(s: State, h: nat, now: int): (s': State)
    requires CanDecide(s, h)
    ensures s'.requests.Keys == s.requests.Keys
    ensures TableStep(s.requests, s'.requests) && Quiet(s.requests, s'.requests)
    ensures s'.decides == s.decides - {h} && s'.executes == s.executes && s'.claims == s.claims
    ensures s' == s.(requests := s'.requests, decides := s'.decides, decisions := s'.decisions)
  {
    var d := s.decides[h];
    if d.Expiring? then s.(requests := ExpiredAt(s.requests, d.request), decides := s.decides - {h})
    else if d.approve then ApproveEffect(s, h, now)
    else s.(requests := Decided(s.requests, d.request, d.who, Rejected, now), decides := s.decides - {h})
  }

  /** The guarded update that follows them. */
  function DoWriteDecision(s: State, h: nat, now: int): (s': State)
    ensures s'.requests.Keys == s.requests.Keys
    ensures TableStep(s.requests, s'.requests)
    ensures s'.decides == s.decides - {h} && s'.executes == s.executes && s'.claims == s.claims
  {
    if CanDecide(s, h) then DecideEffect(s, h, now) else s.(decides := s.decides - {h})
  }

  /** The status and window checks of `executeChangeRequest`. */
  function DoCheckExecute(s: State, h: nat, r: RequestId, now: int): (s': State)
    ensures s'.requests == s.requests && s'.decisions == s.decisions
    ensures s'.decides == s.decides && s'.claims == s.claims
  {
    if h in s.executes || !Has(s.requests, r, Approved) || !InWindow(s.requests[r], now) then s
    else s.(executes := s.executes[h := Checked(r, now)])
  }

  predicate CanClaim(s: State, h: nat, job: JobId) {
    h in s.executes && s.executes[h].Checked? && s.next <= job && Has(s.requests, s.executes[h].request, Approved)
  }

  function ClaimEffect(s: State, h: nat, job: JobId): (s': State)
    requires CanClaim(s, h, job)
    ensures s'.requests.Keys == s.requests.Keys
    ensures TableStep(s.requests, s'.requests)
    ensures s'.decides == s.decides && NoNewCheck(s.executes, s'.executes)
    ensures NoApproval(s.requests, s'.requests) && s'.decisions == s.decisions
  {
    var c := s.executes[h];
    s.(requests := Claimed(s.requests, c.request, job), next := job + 1, claimant := s.claimant[job := h],
       executes := s.executes[h := Claiming(c.request, job)], claims := s.claims + [Claim(c.request, c.at)])
  }

  /** `MarkExecuting` with a fresh job id: random ids never repeat, which is all their order stands for here. */
  function DoClaimRequest(s: State, h: nat, job: JobId): (s': State)
    ensures s'.requests.Keys == s.requests.Keys
    ensures TableStep(s.requests, s'.requests)
    ensures s'.decides == s.decides && NoNewCheck(s.executes, s'.executes)
    ensures NoApproval(s.requests, s'.requests) && s'.decisions == s.decisions
  {
    if CanClaim(s, h, job) then ClaimEffect(s, h, job)
    else if h in s.executes && s.executes[h].Checked? then s.(executes := s.executes - {h})
    else s
  }

  predicate CanInsert(s: State, h: nat, tracker: nat) {
    h in s.executes && s.executes[h].Claiming? && tracker !in s.trackers
  }

  function InsertEffect(s: State, h: nat, tracker: nat): (s': State)
    requires CanInsert(s, h, tracker)
    ensures s'.requests == s.requests && s'.decisions == s.decisions
    ensures s'.decides == s.decides && s'.claims == s.claims && NoNewCheck(s.executes, s'.executes)
  {
    var c := s.executes[h];
    s.(jobs := s.jobs[c.job := Queued], made := s.made[c.job := c.request], workers := s.workers + {c.job},
       trackers := s.trackers[tracker := Polling(c.request, c.job)], executes := s.executes - {h})
  }

  /** `CreateWithID`: on success the worker and the tracker start. */
  function DoInsertJob(s: State, h: nat, ok: bool, tracker: nat): (s': State)
    ensures s'.requests == s.requests && s'.decisions == s.decisions
    ensures s'.decides == s.decides && s'.claims == s.claims && NoNewCheck(s.executes, s'.executes)
  {
    if !CanInsert(s, h, tracker) then s
    else if ok then InsertEffect(s, h, tracker)
    else s.(executes := s.executes[h := Undoing(s.executes[h].request, s.executes[h].job)])
  }

  predicate CanUndo(s: State, h: nat) {
    h in s.executes && s.executes[h].Undoing?
  }

  function UndoEffect(s: State, h: nat): (s': State)
    requires CanUndo(s, h)
    ensures s'.requests.Keys == s.requests.Keys
    ensures TableStep(s.requests, s'.requests)
    ensures s'.decides == s.decides && s'.claims == s.claims && NoNewCheck(s.executes, s'.executes)
    ensures NoApproval(s.requests, s'.requests) && s'.decisions == s.decisions
  {
    var c := s.executes[h];
    s.(requests := Released(s.requests, c.request, c.job), executes := s.executes - {h})
  }

  /** `ReleaseExecution` after a failed insert. */
  function DoUndo(s: State, h: nat, ok: bool): (s': State)
    ensures s'.requests.Keys == s.requests.Keys
    ensures TableStep(s.requests, s'.requests)
    ensures s'.decides == s.decides && s'.claims == s.claims && NoNewCheck(s.executes, s'.executes)
    ensures NoApproval(s.requests, s'.requests) && s'.decisions == s.decisions
  {
    if !CanUndo(s, h) then s
    else if ok then UndoEffect(s, h)
    else s.(executes := s.executes - {h})
  }

  function OtherJobEffect(s: State, job: JobId): (s': State)
    ensures s'.requests == s.requests && s'.decisions == s.decisions
    ensures s'.decides == s.decides && s'.executes == s.executes && s'.claims == s.claims
  {
    s.(jobs := s.jobs[job := Queued], next := job + 1, workers := s.workers + {job})
  }

  /** A job that no change request asked for. */
  function DoOtherJob(s: State, job: JobId): (s': State)
    ensures s'.requests == s.requests && s'.decisions == s.decisions
    ensures s'.decides == s.decides && s'.executes == s.executes && s'.claims == s.claims
  {
    if job < s.next then s else OtherJobEffect(s, job)
  }

  /** A worker writes its row; it stops after a terminal status, whether or not the write succeeded. */
  function DoWork(s: State, job: JobId, status: JobStatus, ok: bool): (s': State)
    ensures s'.requests == s.requests && s'.decisions == s.decisions
    ensures s'.decides == s.decides && s'.executes == s.executes && s'.claims == s.claims
  {
    if job !in s.workers then s
    else s.(jobs := if ok then s.jobs[job := status] else s.jobs,
            workers := if Terminal(status) then s.workers - {job} else s.workers)
  }

  /** A tracker reads its job. */
  function DoPoll(s: State, k: nat): (s': State)
    ensures s'.requests == s.requests && s'.decisions == s.decisions
    ensures s'.decides == s.decides && s'.executes == s.executes && s'.claims == s.claims
  {
    if k !in s.trackers || !s.trackers[k].Polling? then s
    else
      var t := s.trackers[k];
      if t.job !in s.jobs then s.(trackers := s.trackers - {k})
      else if Terminal(s.jobs[t.job]) then
        s.(trackers := s.trackers[k := Writing(t.request, t.job, Verdict(s.jobs[t.job]))])
      else s
  }

  predicate CanFinish(s: State, k: nat) {
    k in s.trackers && s.trackers[k].Writing? && Has(s.requests, s.trackers[k].request, Executing)
  }

  function FinishEffect(s: State, k: nat): (s': State)
    requires CanFinish(s, k)
    ensures s'.requests.Keys == s.requests.Keys
    ensures TableStep(s.requests, s'.requests)
    ensures s'.decides == s.decides && s'.executes == s.executes && s'.claims == s.claims
    ensures NoApproval(s.requests, s'.requests) && s'.decisions == s.decisions
  {
    var t := s.trackers[k];
    s.(requests := Finished(s.requests, t.request, t.verdict), trackers := s.trackers - {k})
  }

  /** A tracker writes the final state. */
  function DoWriteFinal(s: State, k: nat, ok: bool): (s': State)
    ensures s'.requests.Keys == s.requests.Keys
    ensures TableStep(s.requests, s'.requests)
    ensures s'.decides == s.decides && s'.executes == s.executes && s'.claims == s.claims
    ensures NoApproval(s.requests, s'.requests) && s'.decisions == s.decisions
  {
    if ok && CanFinish(s, k) then FinishEffect(s, k)
    else if k in s.trackers && s.trackers[k].Writing? then s.(trackers := s.trackers - {k})
    else s
  }

  /** A tracker times out. */
  function DoGiveUp(s: State, k: nat): (s': State)
    ensures s'.requests == s.requests && s'.decisions == s.decisions
    ensures s'.decides == s.decides && s'.executes == s.executes && s'.claims == s.claims
  {
    s.(trackers := s.trackers - {k})
  }

  /** The process dies; the tables stay. */
  function DoCrash(s: State): (s': State)
    ensures s'.requests == s.requests && s'.decisions == s.decisions && s'.claims == s.claims
    ensures s'.executes == map[] && s'.decides == map[]
  {
    s.(executes := map[], decides := map[], workers := {}, trackers := map[])
  }

  function Apply(s: State, step: Step): (s': State)
    ensures TableStep(s.requests, s'.requests)
    ensures step.Create? || s'.requests.Keys == s.requests.Keys
    ensures step.WriteDecision? || (NoApproval(s.requests, s'.requests) && s'.decisions == s.decisions)
  {
    SameTable(s.requests);
    match step
    case Create(r, operation, requester, start, end, now) =>
      DoCreate(s, r, operation, PolicyFor(operation).requiresApproval, requester, start, end, now)
    case ReadForDecision(h, r, who, approve, now) => DoReadForDecision(s, h, r, who, approve, now)
    case WriteDecision(h, now) => DoWriteDecision(s, h, now)
    case CheckExecute(h, r, now) => DoCheckExecute(s, h, r, now)
    case ClaimRequest(h, job) => DoClaimRequest(s, h, job)
    case InsertJob(h, ok, tracker) => DoInsertJob(s, h, ok, tracker)
    case Undo(h, ok) => DoUndo(s, h, ok)
    case OtherJob(job) => DoOtherJob(s, job)
    case Work(job, status, ok) => DoWork(s, job, status, ok)
    case Poll(k) => DoPoll(s, k)
    case WriteFinal(k, ok) => DoWriteFinal(s, k, ok)
    case GiveUp(k) => DoGiveUp(s, k)
    case Crash => DoCrash(s)
  }

  lemma HandlersFrame(s: State, step: Step)
    ensures step.ReadForDecision? || forall h :: h in Apply(s, step).decides ==>
              h in s.decides && Apply(s, step).decides[h] == s.decides[h]
    ensures step.CheckExecute? || NoNewCheck(s.executes, Apply(s, step).executes)
    ensures step.ClaimRequest? || Apply(s, step).claims == s.claims
  {
  }

  function Run(steps: seq<Step>): State {
    if steps == [] then START else Apply(Run(steps[..|steps| - 1]), steps[|steps| - 1])
  }

  // ---- Jobs ----

  /** Job ids of rows, claims and goroutines were all generated; a worker's row is not terminal. */
  predicate JobIds(s: State) {
    && (forall j :: j in s.jobs ==> j < s.next)
    && (forall j :: j in s.made ==> j in s.jobs)
    && (forall j :: j in s.workers ==> j in s.jobs && !Terminal(s.jobs[j]))
    && (forall j :: j in s.claimant ==> j < s.next)
    && forall h :: h in s.executes && !s.executes[h].Checked? ==> ClaimIs(s, h, s.executes[h].job)
  }

  predicate ClaimIs(s: State, h: nat, j: JobId) {
    j in s.claimant && s.claimant[j] == h && j !in s.jobs
  }

  predicate Holds(t: Table, r: RequestId, j: JobId) {
    Has(t, r, Executing) && t[r].job == Some(j)
  }

  predicate HoldsOrDone(t: Table, r: RequestId, j: JobId) {
    r in t && (t[r].status == Executing || Final(t[r].status)) && t[r].job == Some(j)
  }

  /** A handler past its claim holds the request; a request with a job row names that job for good. */
  predicate Ownership(s: State) {
    && (forall h :: h in s.executes && !s.executes[h].Checked? ==> Holds(s.requests, s.executes[h].request, s.executes[h].job))
    && (forall j :: j in s.made ==> HoldsOrDone(s.requests, s.made[j], j))
  }

  predicate TrackerOk(s: State, t: Tracker) {
    && t.job in s.made && s.made[t.job] == t.request
    && (t.Writing? ==> t.job in s.jobs && Terminal(s.jobs[t.job]) && t.verdict == Verdict(s.jobs[t.job]))
  }

  predicate Tracking(s: State) {
    forall k :: k in s.trackers ==> TrackerOk(s, s.trackers[k])
  }

  /** A request in a post-execution final state names a job whose stored status is the matching terminal one. */
  predicate FinalOk(s: State, r: RequestId) {
    r in s.requests && Final(s.requests[r].status) ==>
      && s.requests[r].job.Some? && s.requests[r].job.value in s.made && s.made[s.requests[r].job.value] == r
      && s.requests[r].job.value in s.jobs && Terminal(s.jobs[s.requests[r].job.value])
      && s.requests[r].status == Verdict(s.jobs[s.requests[r].job.value])
  }

  predicate Finals(s: State) {
    forall r :: r in s.requests ==> FinalOk(s, r)
  }

  predicate JobInv(s: State) {
    JobIds(s) && Ownership(s) && Tracking(s) && Finals(s)
  }

  lemma CreateKeepsJobs(s: State, r: RequestId, operation: string, gated: bool, requester: UserId, start: int, end: int, now: int)
    requires JobInv(s)
    ensures JobInv(DoCreate(s, r, operation, gated, requester, start, end, now))
  {
    if CanCreate(s, r, gated, start, end, now) {
      SameJobsSide(s, CreateEffect(s, r, operation, gated, requester, start, end));
    }
  }

  lemma ReadForDecisionKeepsJobs(s: State, h: nat, r: RequestId, who: UserId, approve: bool, now: int)
    requires JobInv(s)
    ensures JobInv(DoReadForDecision(s, h, r, who, approve, now))
  {
  }

  lemma SameJobsSide(s: State, s': State)
    requires JobInv(s)
    requires s' == s.(requests := s'.requests, decides := s'.decides, decisions := s'.decisions)
    requires Quiet(s.requests, s'.requests)
    ensures JobInv(s')
  {
    forall r | r in s'.requests ensures FinalOk(s', r) {
      if Final(s'.requests[r].status) {
        assert FinalOk(s, r);
      }
    }
    forall k | k in s'.trackers ensures TrackerOk(s', s'.trackers[k]) {
      assert TrackerOk(s, s.trackers[k]);
    }
  }

  lemma WriteDecisionKeepsJobs(s: State, h: nat, now: int)
    requires JobInv(s)
    ensures JobInv(DoWriteDecision(s, h, now))
  {
    if CanDecide(s, h) {
      SameJobsSide(s, DecideEffect(s, h, now));
    }
  }

  lemma CheckExecuteKeepsJobs(s: State, h: nat, r: RequestId, now: int)
    requires JobInv(s)
    ensures JobInv(DoCheckExecute(s, h, r, now))
  {
  }

  lemma ClaimKeepsIds(s: State, h: nat, job: JobId)
    requires JobIds(s) && CanClaim(s, h, job)
    ensures JobIds(ClaimEffect(s, h, job))
  {
  }

  lemma ClaimKeepsOwnership(s: State, h: nat, job: JobId)
    requires Ownership(s) && CanClaim(s, h, job)
    ensures Ownership(ClaimEffect(s, h, job))
  {
  }

  lemma ClaimKeepsFinals(s: State, h: nat, job: JobId)
    requires Tracking(s) && Finals(s) && CanClaim(s, h, job)
    ensures Tracking(ClaimEffect(s, h, job)) && Finals(ClaimEffect(s, h, job))
  {
  }

  lemma ClaimRequestKeepsJobs(s: State, h: nat, job: JobId)
    requires JobInv(s)
    ensures JobInv(DoClaimRequest(s, h, job))
  {
    if CanClaim(s, h, job) {
      ClaimKeepsIds(s, h, job);
      ClaimKeepsOwnership(s, h, job);
      ClaimKeepsFinals(s, h, job);
    }
  }

  lemma InsertKeepsIds(s: State, h: nat, tracker: nat)
    requires JobIds(s) && CanInsert(s, h, tracker)
    ensures JobIds(InsertEffect(s, h, tracker))
  {
  }

  lemma InsertKeepsRest(s: State, h: nat, tracker: nat)
    requires JobInv(s) && CanInsert(s, h, tracker)
    ensures Ownership(InsertEffect(s, h, tracker)) && Tracking(InsertEffect(s, h, tracker)) && Finals(InsertEffect(s, h, tracker))
  {
  }

  lemma InsertJobKeepsJobs(s: State, h: nat, ok: bool, tracker: nat)
    requires JobInv(s)
    ensures JobInv(DoInsertJob(s, h, ok, tracker))
  {
    if CanInsert(s, h, tracker) && ok {
      InsertKeepsIds(s, h, tracker);
      InsertKeepsRest(s, h, tracker);
    }
  }

  lemma UndoKeepsOwnership(s: State, h: nat)
    requires JobIds(s) && Ownership(s) && CanUndo(s, h)
    ensures JobIds(UndoEffect(s, h)) && Ownership(UndoEffect(s, h))
  {
    assert ClaimIs(s, h, s.executes[h].job);
  }

  lemma UndoKeepsFinals(s: State, h: nat)
    requires Tracking(s) && Finals(s) && CanUndo(s, h)
    ensures Tracking(UndoEffect(s, h)) && Finals(UndoEffect(s, h))
  {
  }

  lemma UndoKeepsJobs(s: State, h: nat, ok: bool)
    requires JobInv(s)
    ensures JobInv(DoUndo(s, h, ok))
  {
    if CanUndo(s, h) && ok {
      UndoKeepsOwnership(s, h);
      UndoKeepsFinals(s, h);
    }
  }

  lemma OtherJobKeepsIds(s: State, job: JobId)
    requires JobIds(s) && s.next <= job
    ensures JobIds(OtherJobEffect(s, job))
  {
  }

  lemma OtherJobKeepsRest(s: State, job: JobId)
    requires JobInv(s) && s.next <= job
    ensures Ownership(OtherJobEffect(s, job)) && Tracking(OtherJobEffect(s, job)) && Finals(OtherJobEffect(s, job))
  {
  }

  lemma OtherJobKeepsJobs(s: State, job: JobId)
    requires JobInv(s)
    ensures JobInv(DoOtherJob(s, job))
  {
    if s.next <= job {
      OtherJobKeepsIds(s, job);
      OtherJobKeepsRest(s, job);
    }
  }

  lemma WorkKeepsJobs(s: State, job: JobId, status: JobStatus, ok: bool)
    requires JobInv(s)
    ensures JobInv(DoWork(s, job, status, ok))
  {
  }

  lemma PollKeepsJobs(s: State, k: nat)
    requires JobInv(s)
    ensures JobInv(DoPoll(s, k))
  {
  }

  lemma FinishKeepsOwnership(s: State, k: nat)
    requires JobIds(s) && Ownership(s) && CanFinish(s, k) && TrackerOk(s, s.trackers[k])
    ensures JobIds(FinishEffect(s, k)) && Ownership(FinishEffect(s, k))
  {
  }

  lemma FinishKeepsFinals(s: State, k: nat)
    requires Tracking(s) && Ownership(s) && Finals(s) && CanFinish(s, k) && TrackerOk(s, s.trackers[k])
    ensures Tracking(FinishEffect(s, k)) && Finals(FinishEffect(s, k))
  {
    var t := s.trackers[k];
    assert HoldsOrDone(s.requests, s.made[t.job], t.job);
  }

  /** The unguarded final update is safe: the request it finds executing is the one the tracker's job was made for. */
  lemma FinishKeepsJobs(s: State, k: nat)
    requires JobInv(s) && CanFinish(s, k)
    ensures JobInv(FinishEffect(s, k))
  {
    assert TrackerOk(s, s.trackers[k]);
    FinishKeepsOwnership(s, k);
    FinishKeepsFinals(s, k);
  }

  lemma WriteFinalKeepsJobs(s: State, k: nat, ok: bool)
    requires JobInv(s)
    ensures JobInv(DoWriteFinal(s, k, ok))
  {
    if ok && CanFinish(s, k) {
      FinishKeepsJobs(s, k);
    }
  }

  // ---- Approval ----

  /** The request was approved by someone other than its requester, on a reading before its expiry. */
  predicate ApprovedByOther(s: State, r: RequestId) {
    && r in s.requests && r in s.decisions
    && s.requests[r].approver == Some(s.decisions[r].who) && s.requests[r].approvedAt == s.decisions[r].writtenAt
    && s.decisions[r].who != s.requests[r].facts.requester
    && s.decisions[r].readAt < s.requests[r].facts.expires
  }

  predicate Approvals(s: State) {
    forall r :: r in s.requests && s.requests[r].facts.gated && PastApproval(s.requests[r].status) ==> ApprovedByOther(s, r)
  }

  predicate DecideOk(t: Table, d: Decide) {
    d.Deciding? ==> d.request in t && MayDecide(t[d.request], d.who, d.approve) && d.readAt < t[d.request].facts.expires
  }

  predicate Decides(s: State) {
    forall h :: h in s.decides ==> DecideOk(s.requests, s.decides[h])
  }

  predicate WindowOk(t: Table, r: RequestId, at: int) {
    r in t && InWindow(t[r], at)
  }

  /** Every check in progress and every claim made was inside the request's window. */
  predicate Windows(s: State) {
    && (forall h :: h in s.executes && s.executes[h].Checked? ==> WindowOk(s.requests, s.executes[h].request, s.executes[h].at))
    && (forall i :: 0 <= i < |s.claims| ==> WindowOk(s.requests, s.claims[i].request, s.claims[i].checkedAt))
  }

  predicate ApprovalInv(s: State) {
    Approvals(s) && Decides(s) && Windows(s)
  }

  lemma ApprovalsFrame(s: State, s': State)
    requires Approvals(s) && TableStep(s.requests, s'.requests) && NoApproval(s.requests, s'.requests)
    requires s'.decisions == s.decisions
    ensures Approvals(s')
  {
    forall r | r in s'.requests && s'.requests[r].facts.gated && PastApproval(s'.requests[r].status) ensures ApprovedByOther(s', r) {
      assert RowStep(s.requests[r], s'.requests[r]);
      assert ApprovedByOther(s, r);
    }
  }

  lemma ApproveKeepsApprovals(s: State, h: nat, now: int)
    requires Approvals(s) && CanDecide(s, h) && s.decides[h].Deciding? && s.decides[h].approve
    requires DecideOk(s.requests, s.decides[h])
    ensures Approvals(ApproveEffect(s, h, now))
  {
    var s', q := ApproveEffect(s, h, now), s.decides[h].request;
    forall r | r in s'.requests && s'.requests[r].facts.gated && PastApproval(s'.requests[r].status) ensures ApprovedByOther(s', r) {
      if r != q {
        assert s'.requests[r] == s.requests[r];
        assert ApprovedByOther(s, r);
      }
    }
  }

  lemma DecisionKeepsApprovals(s: State, h: nat, now: int)
    requires Approvals(s) && Decides(s) && CanDecide(s, h)
    ensures Approvals(DecideEffect(s, h, now))
  {
    assert DecideOk(s.requests, s.decides[h]);
    if s.decides[h].Deciding? && s.decides[h].approve {
      ApproveKeepsApprovals(s, h, now);
    } else {
      ApprovalsFrame(s, DecideEffect(s, h, now));
    }
  }

  lemma ReadKeepsDecides(s: State, h: nat, r: RequestId, who: UserId, approve: bool, now: int)
    requires Decides(s)
    ensures Decides(DoReadForDecision(s, h, r, who, approve, now))
  {
  }

  lemma DecidesKept(s: State, step: Step)
    requires Decides(s)
    ensures Decides(Apply(s, step))
  {
    var s' := Apply(s, step);
    if step.ReadForDecision? {
      ReadKeepsDecides(s, step.h, step.r, step.who, step.approve, step.now);
    } else {
      HandlersFrame(s, step);
      forall h | h in s'.decides ensures DecideOk(s'.requests, s'.decides[h]) {
        assert DecideOk(s.requests, s.decides[h]);
      }
    }
  }

  lemma CheckKeepsWindows(s: State, h: nat, r: RequestId, now: int)
    requires Windows(s)
    ensures Windows(DoCheckExecute(s, h, r, now))
  {
  }

  lemma ClaimKeepsWindows(s: State, h: nat, job: JobId)
    requires Windows(s)
    ensures Windows(DoClaimRequest(s, h, job))
  {
    var s' := DoClaimRequest(s, h, job);
    if CanClaim(s, h, job) {
      assert WindowOk(s.requests, s.executes[h].request, s.executes[h].at);
    }
    forall i | 0 <= i < |s.claims| ensures WindowOk(s'.requests, s.claims[i].request, s.claims[i].checkedAt) {
      assert WindowOk(s.requests, s.claims[i].request, s.claims[i].checkedAt);
    }
  }

  lemma WindowsKept(s: State, step: Step)
    requires Windows(s)
    ensures Windows(Apply(s, step))
  {
    var s' := Apply(s, step);
    if step.CheckExecute? {
      CheckKeepsWindows(s, step.h, step.r, step.now);
    } else if step.ClaimRequest? {
      ClaimKeepsWindows(s, step.h, step.job);
    } else {
      HandlersFrame(s, step);
      forall h | h in s'.executes && s'.executes[h].Checked?
        ensures WindowOk(s'.requests, s'.executes[h].request, s'.executes[h].at)
      {
        assert WindowOk(s.requests, s.executes[h].request, s.executes[h].at);
      }
      forall i | 0 <= i < |s.claims| ensures WindowOk(s'.requests, s.claims[i].request, s.claims[i].checkedAt) {
        assert WindowOk(s.requests, s.claims[i].request, s.claims[i].checkedAt);
      }
    }
  }

  // ---- Runs ----

  lemma JobsKept(s: State, step: Step)
    requires JobInv(s)
    ensures JobInv(Apply(s, step))
  {
    match step
    case Create(r, operation, requester, start, end, now) =>
      CreateKeepsJobs(s, r, operation, PolicyFor(operation).requiresApproval, requester, start, end, now);
    case ReadForDecision(h, r, who, approve, now) => ReadForDecisionKeepsJobs(s, h, r, who, approve, now);
    case WriteDecision(h, now) => WriteDecisionKeepsJobs(s, h, now);
    case CheckExecute(h, r, now) => CheckExecuteKeepsJobs(s, h, r, now);
    case ClaimRequest(h, job) => ClaimRequestKeepsJobs(s, h, job);
    case InsertJob(h, ok, tracker) => InsertJobKeepsJobs(s, h, ok, tracker);
    case Undo(h, ok) => UndoKeepsJobs(s, h, ok);
    case OtherJob(job) => OtherJobKeepsJobs(s, job);
    case Work(job, status, ok) => WorkKeepsJobs(s, job, status, ok);
    case Poll(k) => PollKeepsJobs(s, k);
    case WriteFinal(k, ok) => WriteFinalKeepsJobs(s, k, ok);
    case GiveUp(k) => GiveUpKeepsJobs(s, k);
    case Crash => CrashKeepsJobs(s);
  }

  lemma GiveUpKeepsJobs(s: State, k: nat)
    requires JobInv(s)
    ensures JobInv(DoGiveUp(s, k))
  {
  }

  lemma CrashKeepsJobs(s: State)
    requires JobInv(s)
    ensures JobInv(DoCrash(s))
  {
  }

  lemma ApprovalKept(s: State, step: Step)
    requires ApprovalInv(s)
    ensures ApprovalInv(Apply(s, step))
  {
    DecidesKept(s, step);
    WindowsKept(s, step);
    if step.WriteDecision? {
      if CanDecide(s, step.h) {
        DecisionKeepsApprovals(s, step.h, step.now);
      } else {
        SameTable(s.requests);
        ApprovalsFrame(s, DoWriteDecision(s, step.h, step.now));
      }
    } else {
      ApprovalsFrame(s, Apply(s, step));
    }
  }

  lemma {:induction false} RunKeepsInv(steps: seq<Step>)
    ensures JobInv(Run(steps)) && ApprovalInv(Run(steps))
  {
    if steps != [] {
      RunKeepsInv(steps[..|steps| - 1]);
      JobsKept(Run(steps[..|steps| - 1]), steps[|steps| - 1]);
      ApprovalKept(Run(steps[..|steps| - 1]), steps[|steps| - 1]);
    }
  }

  /** In every interleaving a change request gets at most one job row. */
  lemma OneJobPerRequest(steps: seq<Step>, i: JobId, j: JobId)
    requires i in Run(steps).made && j in Run(steps).made && Run(steps).made[i] == Run(steps).made[j]
    ensures i == j
  {
    RunKeepsInv(steps);
    var s := Run(steps);
    assert HoldsOrDone(s.requests, s.made[i], i) && HoldsOrDone(s.requests, s.made[j], j);
  }

  /**
    * A completed, failed, cancelled or rolled-back request names its own job, and the job's stored status
    * is the one that goes with it.
    */
  lemma FinalNamesItsJob(steps: seq<Step>, r: RequestId) returns (j: JobId)
    requires r in Run(steps).requests && Final(Run(steps).requests[r].status)
    ensures var s := Run(steps);
            s.requests[r].job == Some(j) && j in s.made && s.made[j] == r && j in s.jobs
    ensures var s := Run(steps);
            && (s.requests[r].status == Completed <==> s.jobs[j] == Success)
            && (s.requests[r].status == Failed <==> s.jobs[j] == JobFailed || s.jobs[j] == Partial)
            && (s.requests[r].status == Cancelled <==> s.jobs[j] == JobCancelled)
            && (s.requests[r].status == RolledBack <==> s.jobs[j] == JobRolledBack)
  {
    RunKeepsInv(steps);
    assert FinalOk(Run(steps), r);
    j := Run(steps).requests[r].job.value;
  }

  /** A gated request that is approved, executing or done was approved by someone else, on a reading before its expiry. */
  lemma GatedNeedsAnother(steps: seq<Step>, r: RequestId)
    requires r in Run(steps).requests && Run(steps).requests[r].facts.gated && PastApproval(Run(steps).requests[r].status)
    ensures ApprovedByOther(Run(steps), r)
  {
    RunKeepsInv(steps);
  }

  /** Every execution claim of a gated request passed a check with start <= now < end. */
  lemma ClaimsInWindow(steps: seq<Step>, i: nat)
    requires i < |Run(steps).claims|
    ensures var s := Run(steps);
            && s.claims[i].request in s.requests
            && var f := s.requests[s.claims[i].request].facts;
               f.gated ==> f.start <= s.claims[i].checkedAt < f.end
  {
    RunKeepsInv(steps);
    var s := Run(steps);
    assert WindowOk(s.requests, s.claims[i].request, s.claims[i].checkedAt);
  }

  /** Final, rejected and expired requests never change again. */
  lemma {:induction false} AbsorbingForever(steps: seq<Step>, more: seq<Step>, r: RequestId)
    requires r in Run(steps).requests && Absorbing(Run(steps).requests[r].status)
    ensures r in Run(steps + more).requests && Run(steps + more).requests[r] == Run(steps).requests[r]
  {
    if more == [] {
      assert steps + more == steps;
    } else {
      var before := steps + more[..|more| - 1];
      assert (steps + more)[..|steps + more| - 1] == before;
      assert (steps + more)[|steps + more| - 1] == more[|more| - 1];
      AbsorbingForever(steps, more[..|more| - 1], r);
      assert TableStep(Run(before).requests, Apply(Run(before), more[|more| - 1]).requests);
      assert RowStep(Run(before).requests[r], Run(steps + more).requests[r]);
    }
  }

  lemma CreatedByPolicy(s: State, step: Step, r: RequestId)
    requires step.Create? && r in Apply(s, step).requests && r !in s.requests
    ensures var f := Apply(s, step).requests[r].facts; f.gated == PolicyFor(f.operation).requiresApproval
  {
  }

  /** A request is gated exactly as the policy of its operation says. */
  lemma {:induction false} GatedByPolicy(steps: seq<Step>, r: RequestId)
    requires r in Run(steps).requests
    ensures var f := Run(steps).requests[r].facts; f.gated == PolicyFor(f.operation).requiresApproval
  {
    if steps != [] {
      var s, step := Run(steps[..|steps| - 1]), steps[|steps| - 1];
      assert TableStep(s.requests, Apply(s, step).requests);
      if r in s.requests {
        GatedByPolicy(steps[..|steps| - 1], r);
        assert RowStep(s.requests[r], Apply(s, step).requests[r]);
      } else {
        CreatedByPolicy(s, step, r);
      }
    }
  }

  // ---- Approval times ----

  /** Approvals are written at most `d` after the clock was read for their expiry check. */
  predicate Prompt(s: State, d: nat) {
    forall r :: r in s.decisions ==> s.decisions[r].readAt <= s.decisions[r].writtenAt <= s.decisions[r].readAt + d
  }

  /** A gated request past approval, in a run whose approvals are prompt. */
  predicate PromptlyApproved(steps: seq<Step>, r: RequestId, d: nat) {
    var s := Run(steps);
    Prompt(s, d) && r in s.requests && s.requests[r].facts.gated && PastApproval(s.requests[r].status)
  }

  /** Its stored approval time is the time of the write, less than `d` after its expiry. */
  lemma StampWithin(steps: seq<Step>, r: RequestId, d: nat)
    requires PromptlyApproved(steps, r, d)
    ensures var s := Run(steps);
            && r in s.decisions && s.requests[r].approvedAt == s.decisions[r].writtenAt
            && s.requests[r].approvedAt < s.requests[r].facts.expires + d
  {
    GatedNeedsAnother(steps, r);
  }

  /** The approval was allowed on this reading of this expiry. */
  predicate AllowedOn(steps: seq<Step>, r: RequestId, readAt: int, expires: int) {
    var s := Run(steps);
    r in s.requests && r in s.decisions && s.decisions[r].readAt == readAt && s.requests[r].facts.expires == expires
  }

  predicate StampedInTime(steps: seq<Step>, r: RequestId) {
    var s := Run(steps);
    r in s.requests && s.requests[r].approvedAt < s.requests[r].facts.expires
  }

  /** The states of a request created, read for approval at `readAt` and stamped `d` later. */
  lemma LateStates(operation: string, readAt: int, d: nat, expires: int) returns (s1: State, s2: State, s3: State)
    requires readAt < expires
    ensures s1 == DoCreate(START, 0, operation, true, 1, expires - 1, expires, readAt)
    ensures s2 == DoReadForDecision(s1, 0, 0, 2, true, readAt)
    ensures s3 == DoWriteDecision(s2, 0, readAt + d)
    ensures s3.decisions == map[0 := Decision(2, readAt, readAt + d)] && 0 in s3.requests
    ensures s3.requests[0] == Row(Facts(operation, true, 1, expires - 1, expires, expires), Approved, None, Some(2), readAt + d)
  {
    s1 := DoCreate(START, 0, operation, true, 1, expires - 1, expires, readAt);
    assert s1.requests[0] == Row(Facts(operation, true, 1, expires - 1, expires, expires), PendingApproval, None, None, 0);
    s2 := DoReadForDecision(s1, 0, 0, 2, true, readAt);
    assert s2.decides[0] == Deciding(0, 2, true, readAt);
    s3 := DoWriteDecision(s2, 0, readAt + d);
  }

  lemma ThenCreate(steps: seq<Step>, r: RequestId, operation: string, requester: UserId, start: int, end: int, now: int)
    requires PolicyFor(operation).requiresApproval
    ensures Run(steps + [Create(r, operation, requester, start, end, now)])
            == DoCreate(Run(steps), r, operation, true, requester, start, end, now)
  {
    RunThen(steps, Create(r, operation, requester, start, end, now));
  }

  lemma ThenRead(steps: seq<Step>, h: nat, r: RequestId, who: UserId, now: int)
    ensures Run(steps + [ReadForDecision(h, r, who, true, now)]) == DoReadForDecision(Run(steps), h, r, who, true, now)
  {
    RunThen(steps, ReadForDecision(h, r, who, true, now));
  }

  lemma ThenWrite(steps: seq<Step>, h: nat, now: int)
    ensures Run(steps + [WriteDecision(h, now)]) == DoWriteDecision(Run(steps), h, now)
  {
    RunThen(steps, WriteDecision(h, now));
  }

  lemma LateRun(operation: string, r: RequestId, h: nat, requester: UserId, who: UserId, readAt: int, written: int, expires: int)
    returns (steps: seq<Step>)
    requires PolicyFor(operation).requiresApproval
    ensures Run(steps) == DoWriteDecision(
                            DoReadForDecision(DoCreate(START, r, operation, true, requester, expires - 1, expires, readAt),
                                              h, r, who, true, readAt), h, written)
  {
    steps := [];
    ThenCreate(steps, r, operation, requester, expires - 1, expires, readAt);
    steps := steps + [Create(r, operation, requester, expires - 1, expires, readAt)];
    ThenRead(steps, h, r, who, readAt);
    steps := steps + [ReadForDecision(h, r, who, true, readAt)];
    ThenWrite(steps, h, written);
    steps := steps + [WriteDecision(h, written)];
  }

  lemma StampedLate(operation: string, readAt: int, d: nat, expires: int) returns (steps: seq<Step>)
    requires readAt < expires && PolicyFor(operation).requiresApproval
    ensures PromptlyApproved(steps, 0, d) && AllowedOn(steps, 0, readAt, expires)
    ensures Run(steps).requests[0].approvedAt == readAt + d
  {
    steps := LateRun(operation, 0, 0, 1, 2, readAt, readAt + d, expires);
    var s1, s2, s3 := LateStates(operation, readAt, d, expires);
  }

  /**
    * The expiry is checked on reading, not on writing. For approvals written at most `d` after their
    * reading, the stored time is before the expiry in every run exactly when `readAt + d < expires`.
    */
  lemma StampInTimeExactly(d: nat, readAt: int, expires: int)
    requires readAt < expires
    ensures (forall steps, r :: PromptlyApproved(steps, r, d) && AllowedOn(steps, r, readAt, expires) ==> StampedInTime(steps, r))
            <==> readAt + d < expires
  {
    if readAt + d < expires {
      forall steps, r | PromptlyApproved(steps, r, d) && AllowedOn(steps, r, readAt, expires) ensures StampedInTime(steps, r) {
        StampWithin(steps, r, d);
      }
    } else {
      assert PolicyFor("share.delete").requiresApproval;
      var steps := StampedLate("share.delete", readAt, d, expires);
      assert !StampedInTime(steps, 0);
    }
  }

  // ---- What the handlers bring about ----

  /** A request is stored exactly if its operation needs no window or has a valid one; it waits exactly if it needs approval. */
  lemma CreatesExactly(s: State, r: RequestId, operation: string, requester: UserId, start: int, end: int, now: int)
    requires r !in s.requests
    ensures var t := Apply(s, Create(r, operation, requester, start, end, now)).requests;
            && (r in t <==> (PolicyFor(operation).requiresWindow ==> start < end && now < end))
            && (r in t ==> t[r].facts == Facts(operation, PolicyFor(operation).requiresApproval, requester, start, end, end)
                           && t[r].status == (if PolicyFor(operation).requiresApproval then PendingApproval else Approved))
  {
  }

  /** Another user's decision is taken up, unless it approves what needs no approval; a late one is to expire the request. */
  lemma ReadsExactly(s: State, h: nat, r: RequestId, who: UserId, approve: bool, readAt: int)
    requires h !in s.decides && Has(s.requests, r, PendingApproval)
    ensures var s' := DoReadForDecision(s, h, r, who, approve, readAt);
            && s'.requests == s.requests
            && (h in s'.decides <==> s.requests[r].facts.requester != who && (approve ==> s.requests[r].facts.gated))
            && (h in s'.decides ==>
                  s'.decides[h] == if readAt < s.requests[r].facts.expires then Deciding(r, who, approve, readAt) else Expiring(r))
  {
  }

  /** It is then written as it was made. */
  lemma WritesExactly(s: State, h: nat, now: int)
    requires h in s.decides && Has(s.requests, s.decides[h].request, PendingApproval)
    ensures var d, t := s.decides[h], DoWriteDecision(s, h, now).requests;
            && d.request in t
            && t[d.request] == if d.Expiring? then s.requests[d.request].(status := Expired)
                               else s.requests[d.request].(status := if d.approve then Approved else Rejected,
                                                           approver := Some(d.who), approvedAt := now)
  {
  }

  // ---- Execution to the end ----

  /** A fresh handler claims an approved request in its window. */
  lemma ClaimSucceeds(s: State, h: nat, r: RequestId, job: JobId, now: int) returns (s1: State, s2: State)
    requires h !in s.executes && Has(s.requests, r, Approved) && s.next <= job
    requires s.requests[r].facts.gated ==> s.requests[r].facts.start <= now < s.requests[r].facts.end
    ensures s1 == DoCheckExecute(s, h, r, now) && s2 == DoClaimRequest(s1, h, job)
    ensures h in s2.executes && s2.executes[h] == Claiming(r, job) && s2.trackers == s.trackers
    ensures r in s2.requests && s2.requests[r].status == Executing && s2.requests[r].job == Some(job)
  {
    s1 := DoCheckExecute(s, h, r, now);
    s2 := DoClaimRequest(s1, h, job);
  }

  /** Its job is inserted and worked to `status`. */
  lemma JobSucceeds(s: State, h: nat, r: RequestId, job: JobId, k: nat, status: JobStatus) returns (s1: State, s2: State)
    requires h in s.executes && s.executes[h] == Claiming(r, job) && k !in s.trackers
    ensures s1 == DoInsertJob(s, h, true, k) && s2 == DoWork(s1, job, status, true)
    ensures s2.requests == s.requests && job in s2.jobs && s2.jobs[job] == status
    ensures k in s2.trackers && s2.trackers[k] == Polling(r, job)
  {
    s1 := DoInsertJob(s, h, true, k);
    s2 := DoWork(s1, job, status, true);
  }

  /** Its tracker writes the final state. */
  lemma TrackerSucceeds(s: State, r: RequestId, job: JobId, k: nat) returns (s1: State, s2: State)
    requires k in s.trackers && s.trackers[k] == Polling(r, job) && job in s.jobs && Terminal(s.jobs[job])
    requires Has(s.requests, r, Executing) && s.requests[r].job == Some(job)
    ensures s1 == DoPoll(s, k) && s2 == DoWriteFinal(s1, k, true)
    ensures r in s2.requests && s2.requests[r].job == Some(job) && Final(s2.requests[r].status) && s2.jobs == s.jobs
  {
    s1 := DoPoll(s, k);
    s2 := DoWriteFinal(s1, k, true);
  }

  lemma ThenCheck(steps: seq<Step>, h: nat, r: RequestId, now: int)
    ensures Run(steps + [CheckExecute(h, r, now)]) == DoCheckExecute(Run(steps), h, r, now)
  {
    RunThen(steps, CheckExecute(h, r, now));
  }

  lemma ThenClaim(steps: seq<Step>, h: nat, job: JobId)
    ensures Run(steps + [ClaimRequest(h, job)]) == DoClaimRequest(Run(steps), h, job)
  {
    RunThen(steps, ClaimRequest(h, job));
  }

  lemma ThenInsert(steps: seq<Step>, h: nat, k: nat)
    ensures Run(steps + [InsertJob(h, true, k)]) == DoInsertJob(Run(steps), h, true, k)
  {
    RunThen(steps, InsertJob(h, true, k));
  }

  lemma ThenWork(steps: seq<Step>, job: JobId, status: JobStatus)
    ensures Run(steps + [Work(job, status, true)]) == DoWork(Run(steps), job, status, true)
  {
    RunThen(steps, Work(job, status, true));
  }

  lemma ThenPoll(steps: seq<Step>, k: nat)
    ensures Run(steps + [Poll(k)]) == DoPoll(Run(steps), k)
  {
    RunThen(steps, Poll(k));
  }

  lemma ThenFinish(steps: seq<Step>, k: nat)
    ensures Run(steps + [WriteFinal(k, true)]) == DoWriteFinal(Run(steps), k, true)
  {
    RunThen(steps, WriteFinal(k, true));
  }

  /**
    * From every reachable state, an approved request in its window can be executed, and its job can end in
    * any terminal status; the request then ends in the state that goes with it.
    */
  lemma ExecutesToEnd(steps: seq<Step>, h: nat, r: RequestId, job: JobId, k: nat, now: int, status: JobStatus)
    returns (more: seq<Step>)
    requires h !in Run(steps).executes && k !in Run(steps).trackers && Run(steps).next <= job
    requires Has(Run(steps).requests, r, Approved) && !status.Queued? && !status.Active?
    requires var f := Run(steps).requests[r].facts; f.gated ==> f.start <= now < f.end
    ensures var s := Run(more);
            && r in s.requests && s.requests[r].job == Some(job) && job in s.jobs && s.jobs[job] == status
            && (s.requests[r].status == match status
                                        case Success => Completed
                                        case JobCancelled => Cancelled
                                        case JobRolledBack => RolledBack
                                        case _ => Failed)
  {
    var a, b := ClaimSucceeds(Run(steps), h, r, job, now);
    var c, d := JobSucceeds(b, h, r, job, k, status);
    var e, f := TrackerSucceeds(d, r, job, k);
    ThenCheck(steps, h, r, now);
    more := steps + [CheckExecute(h, r, now)];
    ThenClaim(more, h, job);
    more := more + [ClaimRequest(h, job)];
    ThenInsert(more, h, k);
    more := more + [InsertJob(h, true, k)];
    ThenWork(more, job, status);
    more := more + [Work(job, status, true)];
    ThenPoll(more, k);
    more := more + [Poll(k)];
    ThenFinish(more, k);
    more := more + [WriteFinal(k, true)];
    var j := FinalNamesItsJob(more, r);
  }

  lemma RunThen(steps: seq<Step>, step: Step)
    ensures Run(steps + [step]) == Apply(Run(steps), step)
  {
    assert (steps + [step])[..|steps|] == steps;
  }
}
