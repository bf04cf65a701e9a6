/**
 Resource locks: rows with an expiry compared as text, swept and inserted by two separate
 statements, released by owner. Many workers interleave; the process may crash.
 */
module Locks {
  import opened Timestamps

  type Resource = nat
  type JobId = nat

  /** The order in which stored times compare; `Timestamps.StoredBefore` in the program. */
  type Before = (Instant, Instant) -> bool

  /** An answer to "is `a` before `b`?" that is off by less than a second. */
  predicate Close(answer: bool, a: Instant, b: Instant) {
    if answer then a < b + SECOND else b < a + SECOND
  }

  ghost predicate WithinASecond(before: Before) {
    forall a: Instant, b: Instant :: Close(before(a, b), a, b)
  }

  lemma StoredOrderClose(a: Instant, b: Instant)
    ensures Close(StoredBefore(a, b), a, b)
  {
    StoredBeforeWithinASecond(a, b);
  }

  lemma StoredOrderWithinASecond()
    ensures WithinASecond(StoredBefore)
  {
    forall a: Instant, b: Instant ensures Close(StoredBefore(a, b), a, b) {
      StoredOrderClose(a, b);
    }
  }

  const TTL: int := 10 * MINUTE

  datatype Lock = Lock(owner: JobId, expires: Instant)

  type Table = map<Resource, Lock>

  /** `DELETE FROM resource_locks WHERE expires_at < now`. */
  function Swept(before: Before, t: Table, now: Instant): (t': Table)
    ensures t'.Keys <= t.Keys && forall r :: r in t' ==> t'[r] == t[r]
  {
    map r | r in t && !before(t[r].expires, now) :: t[r]
  }

  /** `INSERT`; the resource is the primary key. */
  function Inserted(t: Table, r: Resource, job: JobId, expires: Instant): Table {
    if r in t then t else t[r := Lock(job, expires)]
  }

  /** `DELETE ... WHERE resource_key = ? AND owner_job_id = ?`. */
  function Released(t: Table, r: Resource, job: JobId): Table {
    if r in t && t[r].owner == job then t - {r} else t
  }

  /** A whole `AcquireLock` with no other statement in between: sweep, then insert; the flag says whether it was inserted. */
  function Acquired(before: Before, t: Table, r: Resource, job: JobId, now: Instant, sweepOk: bool, insertOk: bool): (Table, bool)
    requires now + TTL < LIMIT
  {
    var swept := if sweepOk then Swept(before, t, now) else t;
    if insertOk && r !in swept then (Inserted(swept, r, job, now + TTL), true) else (swept, false)
  }

  /**
    * A lock of another job, on any resource, is lost in an acquire exactly when the sweep works and finds
    * its expiry text before the clock reading; it does not matter whether the acquire succeeds.
    */
  lemma AcquireRemovesExpired(before: Before, t: Table, r: Resource, job: JobId, now: Instant, sweepOk: bool, insertOk: bool, q: Resource)
    requires now + TTL < LIMIT && q in t && t[q].owner != job
    ensures var t' := Acquired(before, t, r, job, now, sweepOk, insertOk).0;
            !(q in t' && t'[q] == t[q]) <==> sweepOk && before(t[q].expires, now)
  {
  }

  /**
    * So a failed acquire can remove a lock that another job still holds: job 2 fails on resource 7, and
    * job 1's late lock on resource 0 is gone.
    */
  lemma FailedAcquireSweeps(before: Before, now: Instant) returns (t: Table)
    requires WithinASecond(before) && SECOND <= now && now + TTL < LIMIT
    ensures 0 in t && t[0].owner == 1
    ensures var (t', ok) := Acquired(before, t, 7, 2, now, true, true); !ok && 0 !in t'
  {
    t := map[0 := Lock(1, now - SECOND), 7 := Lock(3, now + SECOND)];
    assert before(now - SECOND, now) && !before(now + SECOND, now);
  }

  /** A worker: it has read the clock, it has swept, or it is between acquire and release. */
  datatype Worker = Read(resource: Resource, reading: Instant) | Ready(resource: Resource, reading: Instant)
                  | Holding(resource: Resource, reading: Instant)

  datatype State = State(clock: int, locks: Table, workers: map<JobId, Worker>)

  /** `reading + TTL` is stored, so readings leave room for it. */
  datatype Step =
    | ReadClock(at: Instant, job: JobId, resource: Resource)
    | Sweep(at: Instant, job: JobId, ok: bool)
    | Insert(at: Instant, job: JobId, ok: bool)
    | Release(at: Instant, job: JobId, ok: bool)
    | Crash(at: Instant)

  const START: State := State(0, map[], map[])

  /** What a step does once the clock stands at `step.at`. */
  function Act(before: Before, s: State, step: Step): State {
    match step
    case ReadClock(at, job, resource) =>
      if job in s.workers || at + TTL >= LIMIT then s else s.(workers := s.workers[job := Read(resource, at)])
    case Sweep(_, job, ok) =>
      if job !in s.workers || !s.workers[job].Read? then s
      else s.(locks := if ok then Swept(before, s.locks, s.workers[job].reading) else s.locks,
              workers := s.workers[job := Ready(s.workers[job].resource, s.workers[job].reading)])
    case Insert(_, job, ok) =>
      if job !in s.workers || !s.workers[job].Ready? then s
      else
        var w := s.workers[job];
        if !ok || w.resource in s.locks || w.reading + TTL >= LIMIT then s.(workers := s.workers - {job})
        else s.(locks := Inserted(s.locks, w.resource, job, w.reading + TTL),
                workers := s.workers[job := Holding(w.resource, w.reading)])
    case Release(_, job, ok) =>
      if job !in s.workers || !s.workers[job].Holding? then s
      else s.(locks := if ok then Released(s.locks, s.workers[job].resource, job) else s.locks, workers := s.workers - {job})
    case Crash(_) => s.(workers := map[])
  }

  function Apply(before: Before, s: State, step: Step): State {
    if step.at < s.clock then s else Act(before, s.(clock := step.at), step)
  }

  function Run(before: Before, steps: seq<Step>): State {
    if steps == [] then START else Apply(before, Run(before, steps[..|steps| - 1]), steps[|steps| - 1])
  }

  predicate Holds(s: State, job: JobId) {
    job in s.workers && s.workers[job].Holding?
  }

  /** The step is a sweep that takes place. */
  predicate Sweeps(s: State, step: Step) {
    step.Sweep? && s.clock <= step.at && step.ok && step.job in s.workers && s.workers[step.job].Read?
  }

  /** The expiry text of the lock that `w` took is before `now`. */
  predicate Late(before: Before, w: Worker, now: Instant) {
    w.reading + TTL < LIMIT && before(w.reading + TTL, now)
  }

  /** No holder is late at the reading of a sweep. */
  predicate Spared(before: Before, s: State, step: Step) {
    Sweeps(s, step) ==> forall job :: job in s.workers && Holds(s, job) ==> !Late(before, s.workers[job], s.workers[step.job].reading)
  }

  predicate SparedRun(before: Before, steps: seq<Step>) {
    forall k :: 0 <= k < |steps| ==> Spared(before, Run(before, steps[..k]), steps[k])
  }

  /** Every hold is, so far, at most ten minutes less the second that text comparison can be off. */
  predicate Timely(s: State) {
    forall job :: job in s.workers && Holds(s, job) ==> s.clock - s.workers[job].reading <= 10 * MINUTE - SECOND
  }

  /** Holds are timely whenever a step is taken, the releasing step included. */
  predicate TimelyRun(before: Before, steps: seq<Step>) {
    forall k :: 0 <= k < |steps| && Run(before, steps[..k]).clock <= steps[k].at ==> Timely(Run(before, steps[..k]).(clock := steps[k].at))
  }

  predicate Owns(s: State, job: JobId, w: Worker) {
    w.resource in s.locks && s.locks[w.resource].owner == job && s.locks[w.resource].expires == w.reading + TTL
  }

  /** Readings are not in the future and leave room for the TTL. */
  predicate Readings(s: State) {
    forall job :: job in s.workers ==> s.workers[job].reading <= s.clock && s.workers[job].reading + TTL < LIMIT
  }

  /** A holder's row is in the table. */
  predicate Inv(s: State) {
    Readings(s) && forall job :: job in s.workers && Holds(s, job) ==> Owns(s, job, s.workers[job])
  }

  lemma SweepSparesHolders(before: Before, s: State, step: Step, job: JobId)
    requires Inv(s) && Spared(before, s, step) && Sweeps(s, step) && Holds(s, job)
    ensures Owns(s.(locks := Swept(before, s.locks, s.workers[step.job].reading)), job, s.workers[job])
  {
    assert Owns(s, job, s.workers[job]);
  }

  lemma SweepKeepsInv(before: Before, s: State, step: Step)
    requires Inv(s) && Spared(before, s, step) && step.Sweep? && step.at == s.clock
    ensures Inv(Act(before, s, step))
  {
    if Sweeps(s, step) {
      var s' := Act(before, s, step);
      forall job | job in s'.workers && Holds(s', job) ensures Owns(s', job, s'.workers[job]) {
        SweepSparesHolders(before, s, step, job);
        assert s'.locks == s.(locks := Swept(before, s.locks, s.workers[step.job].reading)).locks;
      }
    }
  }

  lemma OtherStepsKeepInv(before: Before, s: State, step: Step)
    requires Inv(s) && !step.Sweep? && step.at == s.clock
    ensures Inv(Act(before, s, step))
  {
  }

  lemma ApplyKeepsInv(before: Before, s: State, step: Step)
    requires Inv(s) && Spared(before, s, step)
    ensures Inv(Apply(before, s, step))
  {
    if s.clock <= step.at {
      var t := s.(clock := step.at);
      assert Inv(t) by {
        forall job | job in t.workers && Holds(t, job) ensures Owns(t, job, t.workers[job]) {
          assert Owns(s, job, s.workers[job]);
        }
      }
      if step.Sweep? {
        SweepKeepsInv(before, t, step);
      } else {
        OtherStepsKeepInv(before, t, step);
      }
    }
  }

  lemma {:induction false} RunKeepsInv(before: Before, steps: seq<Step>)
    requires SparedRun(before, steps)
    ensures Inv(Run(before, steps))
  {
    if steps != [] {
      var k := |steps| - 1;
      assert SparedRun(before, steps[..k]) by {
        assert forall i :: 0 <= i < k ==> steps[..k][..i] == steps[..i] && steps[..k][i] == steps[i];
      }
      RunKeepsInv(before, steps[..k]);
      ApplyKeepsInv(before, Run(before, steps[..k]), steps[k]);
    }
  }

  /** While no sweep meets a holder's expired row, no two jobs hold one resource. */
  lemma MutualExclusion(before: Before, steps: seq<Step>, i: JobId, j: JobId)
    requires SparedRun(before, steps) && Holds(Run(before, steps), i) && Holds(Run(before, steps), j)
    requires Run(before, steps).workers[i].resource == Run(before, steps).workers[j].resource
    ensures i == j
  {
    RunKeepsInv(before, steps);
    var s := Run(before, steps);
    assert Owns(s, i, s.workers[i]) && Owns(s, j, s.workers[j]);
  }

  lemma {:induction false} RunKeepsReadings(before: Before, steps: seq<Step>)
    ensures Readings(Run(before, steps))
  {
    if steps != [] {
      RunKeepsReadings(before, steps[..|steps| - 1]);
    }
  }

  lemma ShortIsNotLate(before: Before, w: Worker, now: Instant)
    requires WithinASecond(before) && now + SECOND <= w.reading + TTL
    ensures !Late(before, w, now)
  {
  }

  lemma TimelyIsSpared(before: Before, s: State, step: Step)
    requires WithinASecond(before) && Readings(s) && (s.clock <= step.at ==> Timely(s.(clock := step.at)))
    ensures Spared(before, s, step)
  {
    if Sweeps(s, step) {
      var t, now := s.(clock := step.at), s.workers[step.job].reading;
      forall job | job in s.workers && Holds(s, job) ensures !Late(before, s.workers[job], now) {
        assert Holds(t, job);
        ShortIsNotLate(before, s.workers[job], now);
      }
    }
  }

  /** Holds under ten minutes less one second never meet such a sweep, so they exclude each other. */
  lemma ShortHoldsExclude(before: Before, steps: seq<Step>, i: JobId, j: JobId)
    requires WithinASecond(before) && TimelyRun(before, steps) && Holds(Run(before, steps), i) && Holds(Run(before, steps), j)
    requires Run(before, steps).workers[i].resource == Run(before, steps).workers[j].resource
    ensures i == j
  {
    forall k | 0 <= k < |steps| ensures Spared(before, Run(before, steps[..k]), steps[k]) {
      RunKeepsReadings(before, steps[..k]);
      TimelyIsSpared(before, Run(before, steps[..k]), steps[k]);
    }
    MutualExclusion(before, steps, i, j);
  }

  /** The same for stored times as the program compares them. */
  lemma StoredHoldsExclude(steps: seq<Step>, i: JobId, j: JobId)
    requires TimelyRun(StoredBefore, steps) && Holds(Run(StoredBefore, steps), i) && Holds(Run(StoredBefore, steps), j)
    requires Run(StoredBefore, steps).workers[i].resource == Run(StoredBefore, steps).workers[j].resource
    ensures i == j
  {
    StoredOrderWithinASecond();
    ShortHoldsExclude(StoredBefore, steps, i, j);
  }

  /** The step is a sweep that finds the row expired. */
  predicate SweepsAway(before: Before, s: State, step: Step, r: Resource)
    requires r in s.locks
  {
    Sweeps(s, step) && before(s.locks[r].expires, s.workers[step.job].reading)
  }

  /** The step is a release by the holder that owns the row. */
  predicate GivesUp(s: State, step: Step, r: Resource)
    requires r in s.locks
  {
    && step.Release? && s.clock <= step.at && step.ok && Holds(s, step.job)
    && s.workers[step.job].resource == r && s.locks[r].owner == step.job
  }

  /** In any state, however late, a row is lost in a step exactly by an expired sweep or by its owner's release. */
  lemma RowLostExactly(before: Before, s: State, step: Step, r: Resource)
    requires r in s.locks
    ensures !(r in Apply(before, s, step).locks && Apply(before, s, step).locks[r] == s.locks[r])
            <==> SweepsAway(before, s, step, r) || GivesUp(s, step, r)
  {
  }

  // ---- Rows left behind ----

  /** The holders a step leaves without a release. */
  function Abandons(s: State, step: Step): set<JobId> {
    if step.at < s.clock then {}
    else if step.Crash? then set job | job in s.workers && Holds(s, job)
    else if step.Release? && !step.ok && Holds(s, step.job) then {step.job}
    else {}
  }

  /** The jobs whose release failed, or that held a lock in a crash. */
  function Abandoned(before: Before, steps: seq<Step>): set<JobId> {
    if steps == [] then {}
    else Abandoned(before, steps[..|steps| - 1]) + Abandons(Run(before, steps[..|steps| - 1]), steps[|steps| - 1])
  }

  predicate Accounted(s: State, abandoned: set<JobId>) {
    forall r :: r in s.locks ==>
      s.locks[r].owner in abandoned || (Holds(s, s.locks[r].owner) && s.workers[s.locks[r].owner].resource == r)
  }

  lemma ApplyKeepsAccounts(before: Before, s: State, step: Step, abandoned: set<JobId>)
    requires Accounted(s, abandoned)
    ensures Accounted(Apply(before, s, step), abandoned + Abandons(s, step))
  {
  }

  lemma {:induction false} RunKeepsAccounts(before: Before, steps: seq<Step>)
    ensures Accounted(Run(before, steps), Abandoned(before, steps))
  {
    if steps != [] {
      var k := |steps| - 1;
      RunKeepsAccounts(before, steps[..k]);
      ApplyKeepsAccounts(before, Run(before, steps[..k]), steps[k], Abandoned(before, steps[..k]));
    }
  }

  /** In any interleaving a job that is done leaves a row only through a failed release or a crash. */
  lemma DoneLeavesNoRow(before: Before, steps: seq<Step>, r: Resource)
    requires r in Run(before, steps).locks && Run(before, steps).locks[r].owner !in Run(before, steps).workers
    ensures Run(before, steps).locks[r].owner in Abandoned(before, steps)
  {
    RunKeepsAccounts(before, steps);
  }

  lemma RunThen(before: Before, steps: seq<Step>, step: Step)
    ensures Run(before, steps + [step]) == Apply(before, Run(before, steps), step)
  {
    assert (steps + [step])[..|steps|] == steps;
  }

  lemma ReadStep(before: Before, s: State, at: Instant, job: JobId, r: Resource)
    requires s.clock <= at && at + TTL < LIMIT && job !in s.workers
    ensures Apply(before, s, ReadClock(at, job, r)) == State(at, s.locks, s.workers[job := Read(r, at)])
  {
  }

  lemma SweepStep(before: Before, s: State, job: JobId)
    requires s.clock >= 0 && s.clock < LIMIT && job in s.workers && s.workers[job].Read?
    ensures var w := s.workers[job];
            Apply(before, s, Sweep(s.clock, job, true)) == State(s.clock, Swept(before, s.locks, w.reading), s.workers[job := Ready(w.resource, w.reading)])
  {
  }

  lemma InsertStep(before: Before, s: State, job: JobId)
    requires s.clock >= 0 && s.clock < LIMIT && job in s.workers && s.workers[job].Ready?
    requires s.workers[job].reading + TTL < LIMIT
    ensures var w := s.workers[job];
            Apply(before, s, Insert(s.clock, job, true))
            == if w.resource in s.locks then State(s.clock, s.locks, s.workers - {job})
               else State(s.clock, s.locks[w.resource := Lock(job, w.reading + TTL)], s.workers[job := Holding(w.resource, w.reading)])
  {
  }

  /** The steps of one acquire. */
  function Acquire(at: Instant, job: JobId, r: Resource): seq<Step> {
    [ReadClock(at, job, r)] + [Sweep(at, job, true)] + [Insert(at, job, true)]
  }

  lemma ReadAndSweep(before: Before, steps: seq<Step>, at: Instant, job: JobId, r: Resource) returns (more: seq<Step>)
    requires Run(before, steps).clock <= at && at + TTL < LIMIT && job !in Run(before, steps).workers
    ensures more == steps + [ReadClock(at, job, r)] + [Sweep(at, job, true)]
    ensures var s := Run(before, steps);
            Run(before, more) == State(at, Swept(before, s.locks, at), s.workers[job := Ready(r, at)])
  {
    var s := Run(before, steps);
    RunThen(before, steps, ReadClock(at, job, r));
    ReadStep(before, s, at, job, r);
    more := steps + [ReadClock(at, job, r)];
    var a := Run(before, more);
    RunThen(before, more, Sweep(at, job, true));
    SweepStep(before, a, job);
    assert a.workers[job := Ready(r, at)] == s.workers[job := Ready(r, at)];
    more := more + [Sweep(at, job, true)];
  }

  /** What an acquire finds and does. */
  lemma AcquiresIfFree(before: Before, steps: seq<Step>, at: Instant, job: JobId, r: Resource)
    requires Run(before, steps).clock <= at && at + TTL < LIMIT && job !in Run(before, steps).workers
    ensures var s := Run(before, steps);
            Run(before, steps + Acquire(at, job, r)).workers
            == if r in Swept(before, s.locks, at) then s.workers else s.workers[job := Holding(r, at)]
  {
    var s := Run(before, steps);
    var more := ReadAndSweep(before, steps, at, job, r);
    var b := Run(before, more);
    RunThen(before, more, Insert(at, job, true));
    InsertStep(before, b, job);
    assert steps + Acquire(at, job, r) == more + [Insert(at, job, true)];
    assert b.workers - {job} == s.workers;
    assert b.workers[job := Holding(r, at)] == s.workers[job := Holding(r, at)];
  }

  lemma SweptExactly(before: Before, t: Table, r: Resource, now: Instant)
    ensures r in Swept(before, t, now) <==> r in t && !before(t[r].expires, now)
  {
  }

  /** A worker acquires a resource exactly when it is free or its lock's expiry text is before the reading. */
  lemma AcquiresExactly(before: Before, steps: seq<Step>, at: Instant, job: JobId, r: Resource)
    requires Run(before, steps).clock <= at && at + TTL < LIMIT && job !in Run(before, steps).workers
    ensures var s := Run(before, steps);
            Holds(Run(before, steps + Acquire(at, job, r)), job) <==> (r in s.locks ==> before(s.locks[r].expires, at))
  {
    AcquiresIfFree(before, steps, at, job, r);
    SweptExactly(before, Run(before, steps).locks, r, at);
  }

  /** The condition is exact: another job acquires beside a holder exactly when the holder is late at its reading. */
  lemma OverlapExactly(before: Before, steps: seq<Step>, at: Instant, i: JobId, j: JobId)
    requires Holds(Run(before, steps), i) && Owns(Run(before, steps), i, Run(before, steps).workers[i]) && j !in Run(before, steps).workers
    requires Run(before, steps).clock <= at && at + TTL < LIMIT
    ensures var w := Run(before, steps).workers[i];
            var s := Run(before, steps + Acquire(at, j, w.resource));
            && Holds(s, i) && s.workers[i] == w
            && (Holds(s, j) <==> Late(before, w, at)) && (Holds(s, j) ==> s.workers[j].resource == w.resource)
  {
    var w := Run(before, steps).workers[i];
    AcquiresIfFree(before, steps, at, j, w.resource);
    SweptExactly(before, Run(before, steps).locks, w.resource, at);
  }
}
