/**
 Replay protection of the privileged agent over whole runs: requests are checked against the clock,
 wait, and then consult the nonce cache; the process may be restarted at any time.
 */
module Agent {
  import opened Text
  import opened Canonical
  import NonceStore

  datatype Config = Config(store: NonceStore.Config, skew: int, delay: int, ring: KeyRing, catalogue: set<string>)

  /** A request that passed the envelope checks at time `checked` and has not yet asked the cache. */
  datatype Handler = Handler(request: Request, checked: int)

  /**
    * A request whose nonce was accepted; `reading` is the clock reading passed to `Use`. It was handed
    * to the executor unless the process died in between.
    */
  datatype Acceptance = Acceptance(request: Request, checked: int, reading: int, executed: bool)

  datatype State = State(clock: int, up: bool, handlers: map<nat, Handler>, cache: NonceStore.Cache, log: seq<Acceptance>)

  datatype Step =
    | Check(at: int, id: nat, request: Request)
    | Use(at: int, id: nat, reading: int, writeOk: bool, out: NonceStore.Outcome, dies: bool)
    | Restart(at: int, writeOk: bool)

  predicate ValidConfig(c: Config) {
    NonceStore.ValidConfig(c.store) && c.skew > 0 && c.delay >= 0 && PlainNames(c.ring, c.catalogue)
  }

  ghost predicate Init(s: State) {
    s.up && s.handlers == map[] && s.cache == NonceStore.Cache(map[], None) && s.log == []
  }

  ghost predicate CheckStep(c: Config, s: State, step: Step, s': State)
    requires step.Check?
  {
    && s.up && step.id !in s.handlers
    && Admitted(step.request, c.ring, c.catalogue)
    && WithinSkew(step.request.timestamp, step.at, c.skew)
    && s' == s.(clock := step.at, handlers := s.handlers[step.id := Handler(step.request, step.at)])
  }

  /**
    * `delay` bounds the time from the timestamp check until `Use` has run. The process may die after
    * the file is replaced and before the request is executed.
    */
  ghost predicate UseStep(c: Config, s: State, step: Step, s': State)
    requires step.Use?
  {
    && s.up && step.id in s.handlers
    && var h := s.handlers[step.id];
       && h.checked <= step.reading <= step.at <= h.checked + c.delay
       && NonceStore.UseStep(c.store, s.cache, h.request.nonce, step.reading, step.writeOk, s'.cache, step.out)
       && s' == s.(clock := step.at, up := !step.dies, cache := s'.cache,
                   handlers := if step.dies then map[] else s.handlers - {step.id},
                   log := s.log + if step.out.Accepted? then [Acceptance(h.request, h.checked, step.reading, !step.dies)] else [])
  }

  /** Handlers die with the process; a start that fails leaves the agent down with its file unchanged. */
  ghost predicate RestartStep(c: Config, s: State, step: Step, s': State)
    requires step.Restart?
  {
    var opens := NonceStore.Opens(c.store, s.cache.file, step.at, step.writeOk);
    s' == s.(clock := step.at, up := opens, handlers := map[],
             cache := if opens then NonceStore.Opened(c.store, s.cache.file, step.at) else s.cache)
  }

  ghost predicate Next(c: Config, s: State, step: Step, s': State) {
    s.clock <= step.at && match step
      case Check(_, _, _) => CheckStep(c, s, step, s')
      case Use(_, _, _, _, _, _) => UseStep(c, s, step, s')
      case Restart(_, _) => RestartStep(c, s, step, s')
  }

  ghost predicate IsRun(c: Config, run: seq<State>, steps: seq<Step>) {
    && |run| == |steps| + 1 && Init(run[0])
    && forall i :: 0 <= i < |steps| ==> Next(c, run[i], steps[i], run[i + 1])
  }

  /** A restart keeps the cache only when a file is configured. */
  predicate CanRestart(c: Config, steps: seq<Step>) {
    c.store.persisted || forall i :: 0 <= i < |steps| ==> !steps[i].Restart?
  }

  /** The last moment at which a copy of `e` can ask the cache. */
  function Deadline(c: Config, e: Acceptance): int {
    e.checked + 2 * c.skew + c.delay
  }

  /** The other nonces accepted with a clock reading between that of acceptance `i` and its deadline. */
  ghost function Live(c: Config, log: seq<Acceptance>, i: nat): set<string>
    requires i < |log|
  {
    set j | 0 <= j < |log| && log[j].request.nonce != log[i].request.nonce
            && log[i].reading <= log[j].reading <= Deadline(c, log[i])
      :: log[j].request.nonce
  }

  /** Fewer such nonces than the cache holds. */
  ghost predicate FewRivals(c: Config, log: seq<Acceptance>, i: nat)
    requires i < |log|
  {
    |Live(c, log, i)| < c.store.max
  }

  /** While a copy of `e` could still ask, its nonce is in the cache. */
  ghost predicate Guarded(c: Config, clock: int, memory: NonceStore.Entries, e: Acceptance) {
    clock <= Deadline(c, e) ==>
      e.request.nonce in memory && memory[e.request.nonce] == e.reading + c.store.ttl
  }

  /** Every acceptance with few rivals of its own is guarded, whatever the others have. */
  ghost predicate AllGuarded(c: Config, clock: int, memory: NonceStore.Entries, log: seq<Acceptance>) {
    forall i :: 0 <= i < |log| && FewRivals(c, log, i) ==> Guarded(c, clock, memory, log[i])
  }

  ghost predicate FromLog(c: Config, log: seq<Acceptance>, n: string, expiry: int) {
    exists j :: 0 <= j < |log| && log[j].request.nonce == n && expiry == log[j].reading + c.store.ttl
  }

  /** Every cached entry was put there by an acceptance. */
  ghost predicate Sourced(c: Config, memory: NonceStore.Entries, log: seq<Acceptance>) {
    forall n :: n in memory ==> FromLog(c, log, n, memory[n])
  }

  ghost predicate Timely(c: Config, e: Acceptance, clock: int) {
    && e.checked <= e.reading <= clock
    && Admitted(e.request, c.ring, c.catalogue)
    && WithinSkew(e.request.timestamp, e.checked, c.skew)
  }

  ghost predicate LogTimes(c: Config, log: seq<Acceptance>, clock: int) {
    forall i :: 0 <= i < |log| ==> Timely(c, log[i], clock)
  }

  ghost predicate HandlerTimes(c: Config, s: State) {
    forall id :: id in s.handlers ==>
      && Admitted(s.handlers[id].request, c.ring, c.catalogue)
      && WithinSkew(s.handlers[id].request.timestamp, s.handlers[id].checked, c.skew)
  }

  /** No later acceptance is of the same request. */
  ghost predicate NoCopyOf(log: seq<Acceptance>, i: nat)
    requires i < |log|
  {
    forall j :: i < j < |log| ==> log[j].request != log[i].request
  }

  ghost predicate NoCopies(c: Config, log: seq<Acceptance>) {
    forall i :: 0 <= i < |log| && FewRivals(c, log, i) ==> NoCopyOf(log, i)
  }

  ghost predicate Inv(c: Config, s: State) {
    && HandlerTimes(c, s) && LogTimes(c, s.log, s.clock)
    && Sourced(c, s.cache.memory, s.log)
    && NoCopies(c, s.log) && AllGuarded(c, s.clock, s.cache.memory, s.log)
  }

  /** The two inequalities on a configuration: its TTL outlives every copy of a request. */
  predicate TtlCovers(c: Config) {
    c.store.ttl > 2 * c.skew + c.delay
  }

  lemma LiveGrows(c: Config, log: seq<Acceptance>, e: Acceptance, i: nat)
    requires i < |log|
    ensures Live(c, log, i) <= Live(c, log + [e], i)
    ensures FewRivals(c, log + [e], i) ==> FewRivals(c, log, i)
  {
    var log' := log + [e];
    forall n | n in Live(c, log, i) ensures n in Live(c, log', i) {
      var j :| 0 <= j < |log| && log[j].request.nonce != log[i].request.nonce
               && log[i].reading <= log[j].reading <= Deadline(c, log[i]) && log[j].request.nonce == n;
      assert log'[j] == log[j] && log'[i] == log[i];
    }
    NonceStore.SubsetSize(Live(c, log, i), Live(c, log', i));
  }

  /** Before its deadline an entry with few rivals survives every trim, also of a full cache. */
  lemma NotEvicted(c: Config, log: seq<Acceptance>, i: nat, before: NonceStore.Entries, after: NonceStore.Entries, clock: int)
    requires i < |log| && FewRivals(c, log, i) && LogTimes(c, log, clock) && clock <= Deadline(c, log[i])
    requires NonceStore.Trimmed(before, c.store.max, after) && Sourced(c, before, log)
    requires log[i].request.nonce in before && before[log[i].request.nonce] == log[i].reading + c.store.ttl
    ensures log[i].request.nonce in after
  {
    assert |after| == |after.Keys|;
    if log[i].request.nonce !in after {
      forall n | n in after.Keys ensures n in Live(c, log, i) {
        assert FromLog(c, log, n, before[n]);
        var j :| 0 <= j < |log| && log[j].request.nonce == n && before[n] == log[j].reading + c.store.ttl;
        assert Timely(c, log[j], clock);
      }
      NonceStore.SubsetSize(after.Keys, Live(c, log, i));
    }
  }

  lemma GrownSourced(c: Config, memory: NonceStore.Entries, log: seq<Acceptance>, e: Acceptance)
    requires Sourced(c, memory, log)
    ensures Sourced(c, NonceStore.Grown(c.store, memory, e.request.nonce, e.reading), log + [e])
  {
    var grown, log' := NonceStore.Grown(c.store, memory, e.request.nonce, e.reading), log + [e];
    forall n | n in grown ensures FromLog(c, log', n, grown[n]) {
      if n == e.request.nonce {
        assert log'[|log|] == e;
      } else {
        assert FromLog(c, log, n, memory[n]);
        var j :| 0 <= j < |log| && log[j].request.nonce == n && memory[n] == log[j].reading + c.store.ttl;
        assert log'[j] == log[j];
      }
    }
  }

  /** A copy of a guarded request finds its nonce still cached, so it is not accepted. */
  lemma AcceptedIsNew(c: Config, memory: NonceStore.Entries, first: Acceptance, e: Acceptance, before: int, clock: int)
    requires ValidConfig(c) && TtlCovers(c) && before <= clock <= e.checked + c.delay
    requires Timely(c, first, before) && Timely(c, e, clock) && Guarded(c, before, memory, first)
    requires e.request.nonce !in NonceStore.Purged(memory, e.reading)
    ensures first.request != e.request
  {
  }

  lemma GrownLogTimes(c: Config, log: seq<Acceptance>, e: Acceptance, before: int, clock: int)
    requires LogTimes(c, log, before) && before <= clock && Timely(c, e, clock)
    ensures LogTimes(c, log + [e], clock)
  {
    forall i | 0 <= i < |log + [e]| ensures Timely(c, (log + [e])[i], clock) {
      if i < |log| {
        assert Timely(c, log[i], before);
      }
    }
  }

  /** An older acceptance with few rivals stays guarded when another one follows. */
  lemma GuardSurvives(c: Config, memory: NonceStore.Entries, memory': NonceStore.Entries, log: seq<Acceptance>, e: Acceptance,
                      i: nat, before: int, clock: int)
    requires TtlCovers(c) && before <= clock && Timely(c, e, clock) && i < |log|
    requires Sourced(c, memory, log) && LogTimes(c, log, before) && Guarded(c, before, memory, log[i])
    requires e.request.nonce !in NonceStore.Purged(memory, e.reading)
    requires NonceStore.Trimmed(NonceStore.Grown(c.store, memory, e.request.nonce, e.reading), c.store.max, memory')
    requires FewRivals(c, log + [e], i)
    ensures Guarded(c, clock, memory', log[i])
  {
    if clock <= Deadline(c, log[i]) {
      assert Timely(c, log[i], before);
      var n := log[i].request.nonce;
      assert n in NonceStore.Purged(memory, e.reading);
      assert (log + [e])[i] == log[i];
      GrownSourced(c, memory, log, e);
      GrownLogTimes(c, log, e, before, clock);
      NotEvicted(c, log + [e], i, NonceStore.Grown(c.store, memory, e.request.nonce, e.reading), memory', clock);
    }
  }

  lemma NewIsGuarded(c: Config, memory: NonceStore.Entries, memory': NonceStore.Entries, log: seq<Acceptance>, e: Acceptance,
                     before: int, clock: int)
    requires before <= clock && Timely(c, e, clock) && Sourced(c, memory, log) && LogTimes(c, log, before)
    requires NonceStore.Trimmed(NonceStore.Grown(c.store, memory, e.request.nonce, e.reading), c.store.max, memory')
    requires FewRivals(c, log + [e], |log|)
    ensures Guarded(c, clock, memory', e)
  {
    if clock <= Deadline(c, e) {
      assert (log + [e])[|log|] == e;
      GrownSourced(c, memory, log, e);
      GrownLogTimes(c, log, e, before, clock);
      NotEvicted(c, log + [e], |log|, NonceStore.Grown(c.store, memory, e.request.nonce, e.reading), memory', clock);
    }
  }

  lemma AcceptKeepsGuards(c: Config, memory: NonceStore.Entries, memory': NonceStore.Entries, log: seq<Acceptance>,
                          e: Acceptance, before: int, clock: int)
    requires TtlCovers(c) && before <= clock && Timely(c, e, clock)
    requires Sourced(c, memory, log) && LogTimes(c, log, before) && AllGuarded(c, before, memory, log)
    requires e.request.nonce !in NonceStore.Purged(memory, e.reading)
    requires NonceStore.Trimmed(NonceStore.Grown(c.store, memory, e.request.nonce, e.reading), c.store.max, memory')
    ensures AllGuarded(c, clock, memory', log + [e])
  {
    var log' := log + [e];
    forall i | 0 <= i < |log'| && FewRivals(c, log', i) ensures Guarded(c, clock, memory', log'[i]) {
      if i < |log| {
        LiveGrows(c, log, e, i);
        GuardSurvives(c, memory, memory', log, e, i, before, clock);
      } else {
        NewIsGuarded(c, memory, memory', log, e, before, clock);
      }
    }
  }

  lemma AcceptMakesNoCopy(c: Config, memory: NonceStore.Entries, log: seq<Acceptance>, e: Acceptance, before: int, clock: int)
    requires ValidConfig(c) && TtlCovers(c) && before <= clock <= e.checked + c.delay
    requires LogTimes(c, log, before) && Timely(c, e, clock) && NoCopies(c, log) && AllGuarded(c, before, memory, log)
    requires e.request.nonce !in NonceStore.Purged(memory, e.reading)
    ensures NoCopies(c, log + [e])
  {
    var log' := log + [e];
    forall i | 0 <= i < |log'| && FewRivals(c, log', i) ensures NoCopyOf(log', i) {
      if i < |log| {
        LiveGrows(c, log, e, i);
        assert NoCopyOf(log, i) && Timely(c, log[i], before);
        AcceptedIsNew(c, memory, log[i], e, before, clock);
      }
    }
  }

  lemma RejectKeepsGuards(c: Config, memory: NonceStore.Entries, log: seq<Acceptance>, reading: int, before: int, clock: int)
    requires TtlCovers(c) && before <= clock && reading <= clock
    requires LogTimes(c, log, before) && AllGuarded(c, before, memory, log)
    ensures AllGuarded(c, clock, memory, log) && AllGuarded(c, clock, NonceStore.Purged(memory, reading), log)
  {
    forall i | 0 <= i < |log| && FewRivals(c, log, i)
      ensures Guarded(c, clock, memory, log[i]) && Guarded(c, clock, NonceStore.Purged(memory, reading), log[i])
    {
      assert Timely(c, log[i], before) && Guarded(c, before, memory, log[i]);
    }
  }

  lemma AcceptKeepsInv(c: Config, s: State, s': State, e: Acceptance)
    requires ValidConfig(c) && TtlCovers(c) && Inv(c, s) && HandlerTimes(c, s')
    requires s.clock <= s'.clock <= e.checked + c.delay && Timely(c, e, s'.clock) && s'.log == s.log + [e]
    requires e.request.nonce !in NonceStore.Purged(s.cache.memory, e.reading)
    requires NonceStore.Trimmed(NonceStore.Grown(c.store, s.cache.memory, e.request.nonce, e.reading), c.store.max, s'.cache.memory)
    ensures Inv(c, s')
  {
    GrownLogTimes(c, s.log, e, s.clock, s'.clock);
    GrownSourced(c, s.cache.memory, s.log, e);
    AcceptKeepsGuards(c, s.cache.memory, s'.cache.memory, s.log, e, s.clock, s'.clock);
    AcceptMakesNoCopy(c, s.cache.memory, s.log, e, s.clock, s'.clock);
  }

  lemma RejectKeepsInv(c: Config, s: State, s': State, reading: int)
    requires TtlCovers(c) && Inv(c, s) && HandlerTimes(c, s')
    requires s.clock <= s'.clock && reading <= s'.clock && s'.log == s.log
    requires s'.cache.memory == s.cache.memory || s'.cache.memory == NonceStore.Purged(s.cache.memory, reading)
    ensures Inv(c, s')
  {
    assert forall i :: 0 <= i < |s.log| ==> Timely(c, s.log[i], s.clock);
    assert Sourced(c, NonceStore.Purged(s.cache.memory, reading), s.log);
    RejectKeepsGuards(c, s.cache.memory, s.log, reading, s.clock, s'.clock);
  }

  lemma UseKeepsInv(c: Config, s: State, step: Step, s': State)
    requires ValidConfig(c) && TtlCovers(c) && Inv(c, s) && s.clock <= step.at && step.Use? && UseStep(c, s, step, s')
    ensures Inv(c, s')
  {
    var h := s.handlers[step.id];
    var e := Acceptance(h.request, h.checked, step.reading, !step.dies);
    assert HandlerTimes(c, s');
    if step.out.Accepted? {
      assert Timely(c, e, step.at);
      assert s'.log == s.log + [e];
      AcceptKeepsInv(c, s, s', e);
    } else {
      assert s'.log == s.log;
      RejectKeepsInv(c, s, s', step.reading);
    }
  }

  lemma RestartKeepsInv(c: Config, s: State, step: Step, s': State)
    requires ValidConfig(c) && TtlCovers(c) && Inv(c, s) && s.clock <= step.at && step.Restart? && RestartStep(c, s, step, s')
    requires c.store.persisted && NonceStore.InSync(c.store, s.cache, s.clock)
    ensures Inv(c, s')
  {
    NonceStore.TimeKeepsSync(c.store, s.cache, s.clock, step.at);
    NonceStore.RestartRejectsTheSame(c.store, s.cache, step.at);
    assert s'.up ==> s'.cache.memory == NonceStore.Purged(s.cache.memory, step.at) by {
      var f := NonceStore.Loaded(c.store, s.cache.file);
      assert NonceStore.Purged(NonceStore.Purged(f, step.at), step.at) == NonceStore.Purged(f, step.at);
    }
    RejectKeepsInv(c, s, s', step.at);
  }

  lemma StepKeepsInv(c: Config, s: State, step: Step, s': State)
    requires ValidConfig(c) && TtlCovers(c) && Inv(c, s) && Next(c, s, step, s')
    requires step.Restart? ==> c.store.persisted && NonceStore.InSync(c.store, s.cache, s.clock)
    ensures Inv(c, s')
  {
    match step
    case Check(_, _, _) => RejectKeepsInv(c, s, s', step.at);
    case Use(_, _, _, _, _, _) => UseKeepsInv(c, s, step, s');
    case Restart(_, _) => RestartKeepsInv(c, s, step, s');
  }

  /** A restart keeps memory and file in step, with or without a file. */
  lemma RestartKeepsSync(c: Config, s: State, step: Step, s': State)
    requires NonceStore.InSync(c.store, s.cache, s.clock) && s.clock <= step.at && step.Restart? && RestartStep(c, s, step, s')
    ensures NonceStore.InSync(c.store, s'.cache, s'.clock)
  {
    NonceStore.TimeKeepsSync(c.store, s.cache, s.clock, step.at);
    if c.store.persisted {
      NonceStore.RestartRejectsTheSame(c.store, s.cache, step.at);
    } else {
      assert NonceStore.Purged(map[], step.at) == map[];
    }
  }

  lemma StepKeepsSync(c: Config, s: State, step: Step, s': State)
    requires ValidConfig(c) && NonceStore.InSync(c.store, s.cache, s.clock) && Next(c, s, step, s')
    ensures NonceStore.InSync(c.store, s'.cache, s'.clock)
  {
    NonceStore.TimeKeepsSync(c.store, s.cache, s.clock, step.at);
    match step
    case Check(_, _, _) =>
    case Use(_, _, _, _, _, _) =>
      var h := s.handlers[step.id];
      NonceStore.UseKeepsSync(c.store, s.cache, h.request.nonce, step.reading, step.at, step.writeOk, s'.cache, step.out);
    case Restart(_, _) => RestartKeepsSync(c, s, step, s');
  }

  /** In every run, whatever the TTL, the unexpired entries of memory and file are the same and within bounds. */
  lemma {:induction false} RunKeepsSync(c: Config, run: seq<State>, steps: seq<Step>, k: nat)
    requires ValidConfig(c) && IsRun(c, run, steps) && k < |run|
    ensures NonceStore.InSync(c.store, run[k].cache, run[k].clock)
  {
    if k > 0 {
      RunKeepsSync(c, run, steps, k - 1);
      StepKeepsSync(c, run[k - 1], steps[k - 1], run[k]);
    }
  }

  lemma {:induction false} RunKeepsInv(c: Config, run: seq<State>, steps: seq<Step>, k: nat)
    requires ValidConfig(c) && TtlCovers(c) && IsRun(c, run, steps) && CanRestart(c, steps) && k < |run|
    ensures Inv(c, run[k])
  {
    if k > 0 {
      RunKeepsInv(c, run, steps, k - 1);
      RunKeepsSync(c, run, steps, k - 1);
      StepKeepsInv(c, run[k - 1], steps[k - 1], run[k]);
    }
  }

  /**
    * In any run, restarts included, a signed text is accepted, and so executed, at most once if fewer
    * nonces than the cache holds come between its first acceptance and its deadline. Nothing is asked
    * of the other requests of the run.
    */
  lemma ExecutedAtMostOnce(c: Config, run: seq<State>, steps: seq<Step>, i: nat, j: nat)
    requires ValidConfig(c) && TtlCovers(c) && IsRun(c, run, steps) && CanRestart(c, steps)
    requires i < j < |run[|steps|].log| && FewRivals(c, run[|steps|].log, i)
    ensures CanonicalText(run[|steps|].log[i].request) != CanonicalText(run[|steps|].log[j].request)
  {
    RunKeepsInv(c, run, steps, |steps|);
    var log := run[|steps|].log;
    assert NoCopyOf(log, i);
    assert Timely(c, log[i], run[|steps|].clock) && Timely(c, log[j], run[|steps|].clock);
    if CanonicalText(log[i].request) == CanonicalText(log[j].request) {
      CanonicalInjective(log[i].request, log[j].request, c.ring, c.catalogue);
    }
  }

  /** A persisted agent that is restarted comes up whenever it can write, holding the same unexpired nonces. */
  lemma RestartComesUp(c: Config, run: seq<State>, steps: seq<Step>, now: int)
    requires ValidConfig(c) && IsRun(c, run, steps) && c.store.persisted
    requires run[|steps|].clock <= now
    ensures var k := run[|steps|].cache;
            && NonceStore.Opens(c.store, k.file, now, true)
            && NonceStore.Purged(NonceStore.Opened(c.store, k.file, now).memory, now) == NonceStore.Purged(k.memory, now)
  {
    RunKeepsSync(c, run, steps, |steps|);
    var s := run[|steps|];
    NonceStore.TimeKeepsSync(c.store, s.cache, s.clock, now);
    NonceStore.RestartRejectsTheSame(c.store, s.cache, now);
  }

  /** The cache of a run that has just executed `r` alone, with reading `t`. */
  ghost function Alone(c: Config, r: Request, t: int): NonceStore.Cache {
    var e := map[r.nonce := t + c.store.ttl];
    NonceStore.Cache(e, if c.store.persisted then Some(e) else None)
  }

  lemma AcceptedAlone(c: Config, k: NonceStore.Cache, r: Request, t: int)
    requires ValidConfig(c) && ValidNonce(r.nonce)
    requires k == NonceStore.Cache(map[], None) || exists t0 :: t0 + c.store.ttl <= t && k == Alone(c, r, t0)
    ensures NonceStore.UseStep(c.store, k, r.nonce, t, true, Alone(c, r, t), NonceStore.Accepted)
  {
    assert NonceStore.Purged(k.memory, t) == map[];
    assert NonceStore.Grown(c.store, k.memory, r.nonce, t) == Alone(c, r, t).memory;
  }

  lemma ExtendRun(c: Config, run: seq<State>, steps: seq<Step>, step: Step, s: State)
    requires IsRun(c, run, steps) && Next(c, run[|steps|], step, s)
    ensures IsRun(c, run + [s], steps + [step])
  {
    var run', steps' := run + [s], steps + [step];
    forall i | 0 <= i < |steps'| ensures Next(c, run'[i], steps'[i], run'[i + 1]) {
      if i < |steps| {
        assert Next(c, run[i], steps[i], run[i + 1]);
      }
    }
  }

  /** One request checked at `t` and accepted at `u` on top of a run whose handlers are all done. */
  lemma CheckThenUse(c: Config, run: seq<State>, steps: seq<Step>, r: Request, t: int, u: int, k: NonceStore.Cache)
    returns (run': seq<State>, steps': seq<Step>)
    requires IsRun(c, run, steps)
    requires var s := run[|steps|];
      && s.up && s.handlers == map[] && s.clock <= t <= u <= t + c.delay
      && Admitted(r, c.ring, c.catalogue) && WithinSkew(r.timestamp, t, c.skew)
      && NonceStore.UseStep(c.store, s.cache, r.nonce, u, true, k, NonceStore.Accepted)
    ensures IsRun(c, run', steps') && (CanRestart(c, steps) ==> CanRestart(c, steps'))
    ensures run'[|steps'|] == State(u, true, map[], k, run[|steps|].log + [Acceptance(r, t, u, true)])
  {
    var s := run[|steps|];
    var mid := s.(clock := t, handlers := map[0 := Handler(r, t)]);
    var end := State(u, true, map[], k, s.log + [Acceptance(r, t, u, true)]);
    assert mid.handlers - {0} == map[];
    ExtendRun(c, run, steps, Check(t, 0, r), mid);
    run', steps' := run + [mid], steps + [Check(t, 0, r)];
    ExtendRun(c, run', steps', Use(u, 0, u, true, NonceStore.Accepted, false), end);
    run', steps' := run' + [end], steps' + [Use(u, 0, u, true, NonceStore.Accepted, false)];
  }

  /** Two executions in the log have one text. */
  ghost predicate Replay(log: seq<Acceptance>, i: int, j: int) {
    && 0 <= i < j < |log| && log[i].executed && log[j].executed
    && CanonicalText(log[i].request) == CanonicalText(log[j].request)
  }

  lemma TwiceIsReplay(c: Config, x: Acceptance, y: Acceptance)
    requires ValidConfig(c) && x.request == y.request && x.executed && y.executed
    ensures FewRivals(c, [x] + [y], 0) && Replay([x] + [y], 0, 1)
  {
    var log := [x] + [y];
    assert log[0] == x && log[1] == y;
    assert Live(c, log, 0) == {};
  }

  /** The TTL inequality is needed: without it a request captured once is executed twice. */
  lemma ShortTtlReplays(c: Config, r: Request) returns (run: seq<State>, steps: seq<Step>)
    requires ValidConfig(c) && !TtlCovers(c)
    requires Admitted(r, c.ring, c.catalogue) && r.timestamp != ZERO_TIME
    ensures IsRun(c, run, steps) && CanRestart(c, steps)
    ensures Replay(run[|steps|].log, 0, 1) && FewRivals(c, run[|steps|].log, 0)
  {
    var t0, t1 := r.timestamp - c.skew, r.timestamp + c.skew;
    var t2 := t1 + c.delay;
    var k0, k1, k2 := NonceStore.Cache(map[], None), Alone(c, r, t0), Alone(c, r, t2);
    AcceptedAlone(c, k0, r, t0);
    AcceptedAlone(c, k1, r, t2);
    var s0 := State(t0, true, map[], k0, []);
    run, steps := CheckThenUse(c, [s0], [], r, t0, t0, k1);
    run, steps := CheckThenUse(c, run, steps, r, t1, t2, k2);
    var x, y := Acceptance(r, t0, t0, true), Acceptance(r, t1, t2, true);
    assert run[|steps|].log == [x] + [y] by {
      assert [] + [x] == [x];
    }
    TwiceIsReplay(c, x, y);
  }
}
