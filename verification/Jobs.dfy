/**
 One job from creation to its end: the row writes, the events published and the lock and
 cancellation entries left behind, for every cancellation point, agent outcome and storage fault.
 */
module Jobs {
  import opened Timestamps
  import Locks

  type JobId = nat

  datatype Status = Queued | Validating | Running | Testing | Success | Failed | Cancelled

  datatype Event = Created | Updated(progress: nat) | Completed | FailedEvent | CancelledEvent

  /** A planned step of a run: the status and progress it writes. */
  datatype Planned = Planned(status: Status, progress: nat)

  const BEFORE_AGENT: seq<Planned> := [Planned(Validating, 10), Planned(Running, 25), Planned(Running, 45)]
  const AFTER_AGENT: seq<Planned> := [Planned(Testing, 75), Planned(Running, 90)]

  /**
   What the environment decides: which `advance` sees the cancellation, what the agent answers,
   which storage statements fail (`lost(n)` for the n-th row write), and what other jobs do to the
   lock table between this job's sweep and insert and while it holds its lock.
   */
  datatype Environment = Environment(cancelled: nat -> bool, agentOk: bool, lost: nat -> bool,
                                     sweepOk: bool, insertOk: bool, releaseOk: bool,
                                     between: Locks.Table -> Locks.Table, during: Locks.Table -> Locks.Table)

  predicate Terminal(s: Status) {
    s.Success? || s.Failed? || s.Cancelled?
  }

  predicate TerminalEvent(e: Event) {
    e.Completed? || e.FailedEvent? || e.CancelledEvent?
  }

  /** Creation, updates of strictly increasing progress below 100, and no terminal event yet. */
  predicate Unfinished(es: seq<Event>) {
    && |es| >= 1 && es[0].Created?
    && (forall i :: 1 <= i < |es| ==> es[i].Updated? && es[i].progress < 100)
    && (forall i, j :: 1 <= i < j < |es| ==> es[i].progress < es[j].progress)
  }

  /** An unfinished stretch closed by exactly one terminal event. */
  predicate Finished(es: seq<Event>) {
    |es| >= 2 && Unfinished(es[..|es| - 1]) && TerminalEvent(es[|es| - 1])
  }

  function Progress(es: seq<Event>): nat {
    if |es| >= 2 && es[|es| - 1].Updated? then es[|es| - 1].progress else 0
  }

  /** The terminal status that goes with a terminal event. */
  function StatusOf(e: Event): Status {
    match e
    case Completed => Success
    case FailedEvent => Failed
    case CancelledEvent => Cancelled
    case _ => Queued
  }

  /** The events after creation of a job that holds its lock, read off the environment. */
  function WorkEvents(env: Environment): seq<Event> {
    if env.cancelled(0) then [CancelledEvent]
    else if env.cancelled(1) then [Updated(10), CancelledEvent]
    else if env.cancelled(2) then [Updated(10), Updated(25), CancelledEvent]
    else [Updated(10), Updated(25), Updated(45)] +
         if !env.agentOk then [FailedEvent]
         else if env.cancelled(3) then [CancelledEvent]
         else if env.cancelled(4) then [Updated(75), CancelledEvent]
         else [Updated(75), Updated(90), Completed]
  }

  /**
    * A job that holds its lock completes exactly if the agent succeeds and no step sees a cancellation, fails
    * exactly if the agent is reached and fails, and is otherwise cancelled at the first step that sees it.
    */
  lemma WorkEndsExactly(env: Environment)
    ensures var es := WorkEvents(env);
            var n := |es| - 1;
            && 0 <= n <= 5 && (forall i :: 0 <= i < n ==> es[i] == Updated([10, 25, 45, 75, 90][i]))
            && (forall i :: 0 <= i < n && i < 5 && !(es[n].FailedEvent? && i >= 3) ==> !env.cancelled(i))
            && (es[n].Completed? <==> env.agentOk && forall i :: 0 <= i < 5 ==> !env.cancelled(i))
            && (es[n].FailedEvent? <==> !env.agentOk && forall i :: 0 <= i < 3 ==> !env.cancelled(i))
            && (es[n].CancelledEvent? ==> env.cancelled(n)) && (es[n].Completed? || es[n].FailedEvent? || es[n].CancelledEvent?)
  {
  }

  predicate NoneTerminal(ss: seq<Status>) {
    forall i :: 0 <= i < |ss| ==> !Terminal(ss[i])
  }

  /** The row's status after a sequence of writes, of which some are lost. */
  function Stored(writes: seq<Status>, lost: nat -> bool): Status {
    if writes == [] then Queued
    else if lost(|writes| - 1) then Stored(writes[..|writes| - 1], lost)
    else writes[|writes| - 1]
  }

  /** The lock table that this job's insert meets. */
  function Met(t: Locks.Table, now: Instant, env: Environment): Locks.Table {
    env.between(if env.sweepOk then Locks.Swept(StoredBefore, t, now) else t)
  }

  /** The lock table after a whole run, other jobs' statements included. */
  function LocksAfter(t: Locks.Table, r: Locks.Resource, job: JobId, now: Instant, env: Environment): Locks.Table
    requires now + Locks.TTL < LIMIT
  {
    var met := Met(t, now, env);
    if !env.insertOk || r in met then met
    else
      var held := env.during(Locks.Inserted(met, r, job, now + Locks.TTL));
      if env.releaseOk then Locks.Released(held, r, job) else held
  }

  predicate NoRowOf(t: Locks.Table, job: JobId) {
    forall q :: q in t ==> t[q].owner != job
  }

  /** Other jobs insert no rows in this job's name. */
  ghost predicate OthersOnly(job: JobId, f: Locks.Table -> Locks.Table) {
    forall t, q :: q in f(t) && f(t)[q].owner == job ==> q in t && t[q] == f(t)[q]
  }

  lemma OthersAddNoRow(job: JobId, f: Locks.Table -> Locks.Table, t: Locks.Table)
    requires OthersOnly(job, f) && NoRowOf(t, job)
    ensures NoRowOf(f(t), job)
  {
  }

  lemma ReleaseLeavesNoRow(met: Locks.Table, r: Locks.Resource, job: JobId, expires: Instant, f: Locks.Table -> Locks.Table)
    requires OthersOnly(job, f) && NoRowOf(met, job)
    ensures NoRowOf(Locks.Released(f(Locks.Inserted(met, r, job, expires)), r, job), job)
  {
    var inserted := Locks.Inserted(met, r, job, expires);
    var held := f(inserted);
    forall q | q in held && held[q].owner == job ensures q == r {
      assert q in inserted && inserted[q] == held[q];
    }
  }

  /** Whatever other jobs do meanwhile, a run whose release succeeds leaves no row of its own. */
  lemma RunLeavesNoLock(t: Locks.Table, r: Locks.Resource, job: JobId, now: Instant, env: Environment)
    requires now + Locks.TTL < LIMIT && env.releaseOk && NoRowOf(t, job)
    requires OthersOnly(job, env.between) && OthersOnly(job, env.during)
    ensures NoRowOf(LocksAfter(t, r, job, now, env), job)
  {
    var swept := if env.sweepOk then Locks.Swept(StoredBefore, t, now) else t;
    OthersAddNoRow(job, env.between, swept);
    ReleaseLeavesNoRow(Met(t, now, env), r, job, now + Locks.TTL, env.during);
  }

  class Manager {
    var writes: seq<Status>
    var events: seq<Event>
    var locks: Locks.Table
    var cancel: set<JobId>

    /** The worker is under way: nothing terminal written or published. */
    ghost predicate Underway()
      reads this
    {
      Unfinished(events) && NoneTerminal(writes)
    }

    /** The worker is done: its last write and its last event are the terminal ones, and they agree. */
    ghost predicate Done()
      reads this
    {
      && Finished(events) && |writes| >= 1 && NoneTerminal(writes[..|writes| - 1])
      && writes[|writes| - 1] == StatusOf(events[|events| - 1])
    }

    method Write(s: Status)
      modifies this`writes
      ensures writes == old(writes) + [s]
    {
      writes := writes + [s];
    }

    method Publish(e: Event)
      modifies this`events
      ensures events == old(events) + [e]
    {
      events := events + [e];
    }

    /** One `advance`: the cancellation is published, or the step is. */
    method Advance(p: Planned, cancelled: bool) returns (go: bool)
      requires Underway() && Progress(events) < p.progress < 100 && !Terminal(p.status)
      modifies this`writes, this`events
      ensures go == !cancelled
      ensures events == old(events) + [if cancelled then CancelledEvent else Updated(p.progress)]
      ensures writes == old(writes) + [if cancelled then Cancelled else p.status]
      ensures go ==> Underway() && Progress(events) == p.progress
      ensures !go ==> Done() && events[|events| - 1].CancelledEvent?
    {
      if cancelled {
        Write(Cancelled);
        Publish(CancelledEvent);
        return false;
      }
      Write(p.status);
      Publish(Updated(p.progress));
      return true;
    }

    method Fail()
      requires Underway()
      modifies this`writes, this`events
      ensures Done() && events == old(events) + [FailedEvent]
    {
      Write(Failed);
      Publish(FailedEvent);
    }

    method Succeed()
      requires Underway()
      modifies this`writes, this`events
      ensures Done() && events == old(events) + [Completed]
    {
      Write(Success);
      Publish(Completed);
    }

    method AcquireLock(r: Locks.Resource, job: JobId, now: Instant, env: Environment) returns (ok: bool)
      requires now + Locks.TTL < LIMIT
      modifies this`locks
      ensures ok == (env.insertOk && r !in Met(old(locks), now, env))
      ensures locks == if ok then Locks.Inserted(Met(old(locks), now, env), r, job, now + Locks.TTL) else Met(old(locks), now, env)
    {
      if env.sweepOk {
        locks := Locks.Swept(StoredBefore, locks, now);
      }
      locks := env.between(locks);
      if !env.insertOk || r in locks {
        return false;
      }
      locks := locks[r := Locks.Lock(job, now + Locks.TTL)];
      return true;
    }

    method ReleaseLock(r: Locks.Resource, job: JobId, env: Environment)
      modifies this`locks
      ensures locks == if env.releaseOk then Locks.Released(old(locks), r, job) else old(locks)
    {
      if env.releaseOk && r in locks && locks[r].owner == job {
        locks := locks - {r};
      }
    }

    method BeforeAgent(env: Environment) returns (go: bool)
      requires Underway() && |events| == 1
      modifies this`writes, this`events
      ensures go <==> !env.cancelled(0) && !env.cancelled(1) && !env.cancelled(2)
      ensures go ==> Underway() && Progress(events) == 45 && events == old(events) + [Updated(10), Updated(25), Updated(45)]
      ensures !go ==> Done() && events == old(events) + WorkEvents(env)
    {
      for i := 0 to |BEFORE_AGENT|
        invariant events == old(events) + [Updated(10), Updated(25), Updated(45)][..i]
        invariant Underway() && Progress(events) == if i == 0 then 0 else BEFORE_AGENT[i - 1].progress
        invariant forall n :: 0 <= n < i ==> !env.cancelled(n)
      {
        go := Advance(BEFORE_AGENT[i], env.cancelled(i));
        if !go {
          return;
        }
      }
      return true;
    }

    /** The part of a run that holds the lock. */
    method Work(env: Environment)
      requires Underway() && |events| == 1
      modifies this`writes, this`events
      ensures Done() && events == old(events) + WorkEvents(env)
    {
      var go := BeforeAgent(env);
      if !go {
        return;
      }
      if !env.agentOk {
        Fail();
        return;
      }
      assert AFTER_AGENT[0] == Planned(Testing, 75) && AFTER_AGENT[1] == Planned(Running, 90);
      go := Advance(AFTER_AGENT[0], env.cancelled(3));
      if !go {
        return;
      }
      go := Advance(AFTER_AGENT[1], env.cancelled(4));
      if !go {
        return;
      }
      Succeed();
    }

    method WorkNew(env: Environment)
      requires events == [Created] && writes == []
      modifies this`writes, this`events
      ensures Done() && events == [Created] + WorkEvents(env)
    {
      Work(env);
    }

    method FailNew()
      requires events == [Created] && writes == []
      modifies this`writes, this`events
      ensures Done() && events == [Created] + [FailedEvent]
    {
      Fail();
    }

    /** `run`: register the cancellation, take the lock, work, release, deregister. */
    method Run(job: JobId, r: Locks.Resource, now: Instant, env: Environment) returns (acquired: bool)
      requires now + Locks.TTL < LIMIT
      requires events == [Created] && writes == []
      modifies this
      ensures Done()
      ensures events == [Created] + if acquired then WorkEvents(env) else [FailedEvent]
      ensures cancel == old(cancel) - {job}
      ensures acquired == (env.insertOk && r !in Met(old(locks), now, env))
      ensures locks == LocksAfter(old(locks), r, job, now, env)
    {
      cancel := cancel + {job};
      acquired := AcquireLock(r, job, now, env);
      if !acquired {
        FailNew();
        cancel := cancel - {job};
        return;
      }
      WorkNew(env);
      locks := env.during(locks);
      ReleaseLock(r, job, env);
      cancel := cancel - {job};
    }
  }

  /** With every write stored, the row ends terminal; whatever is lost, it is terminal only if the last write was stored. */
  lemma RowEndsTerminal(writes: seq<Status>, lost: nat -> bool)
    requires writes != [] && Terminal(writes[|writes| - 1]) && NoneTerminal(writes[..|writes| - 1])
    ensures Terminal(Stored(writes, lost)) <==> !lost(|writes| - 1)
    ensures forall k :: 0 <= k < |writes| ==> !Terminal(Stored(writes[..k], lost))
  {
    forall k | 0 <= k < |writes| ensures !Terminal(Stored(writes[..k], lost)) {
      assert forall i :: 0 <= i < k ==> writes[i] == writes[..|writes| - 1][i];
      StoredFromWrites(writes[..k], lost);
    }
  }

  lemma {:induction false} StoredFromWrites(writes: seq<Status>, lost: nat -> bool)
    requires NoneTerminal(writes)
    ensures !Terminal(Stored(writes, lost))
  {
    if writes != [] {
      StoredFromWrites(writes[..|writes| - 1], lost);
    }
  }
}
