/** The bound on rival nonces is tight: as many of them as the cache holds push a live nonce out. */
module Eviction {
  import opened Text
  import opened Canonical
  import NonceStore
  import opened Agent

  ghost predicate Distinct(own: string, names: seq<string>) {
    && (forall i :: 0 <= i < |names| ==> names[i] != own)
    && (forall i, j :: 0 <= i < j < |names| ==> names[i] != names[j])
  }

  /** No entry expires before `expiry`. */
  ghost predicate Later(e: NonceStore.Entries, expiry: int) {
    forall n :: n in e ==> expiry <= e[n]
  }

  /** The first `n` names are cached until `expiry`, beside `own`, which expires a tick earlier. */
  ghost predicate Crowd(e: NonceStore.Entries, own: string, names: seq<string>, n: nat, expiry: int) {
    && |e| == n + 1 && own in e && e[own] == expiry - 1
    && (forall x :: x in e && x != own ==> e[x] == expiry)
    && (forall i :: n <= i < |names| ==> names[i] !in e)
  }

  lemma AddOne(e: NonceStore.Entries, x: string, expiry: int)
    requires x !in e
    ensures |e[x := expiry]| == |e| + 1
  {
    assert e[x := expiry].Keys == e.Keys + {x};
    assert |e[x := expiry]| == |e[x := expiry].Keys|;
  }

  ghost function Stored(c: NonceStore.Config, e: NonceStore.Entries): NonceStore.Cache {
    NonceStore.Cache(e, if c.persisted then Some(e) else None)
  }

  /** `Use` accepts `nonce` at `now`, turning one cache into the other. */
  ghost predicate Takes(c: NonceStore.Config, before: NonceStore.Entries, nonce: string, now: int, after: NonceStore.Entries) {
    NonceStore.UseStep(c, Stored(c, before), nonce, now, true, Stored(c, after), NonceStore.Accepted)
  }

  /** A new nonce is accepted while there is room and nothing has expired. */
  lemma TakesWithRoom(c: NonceStore.Config, before: NonceStore.Entries, nonce: string, now: int, after: NonceStore.Entries)
    requires ValidNonce(nonce) && nonce !in before && Later(before, now + 1)
    requires after == before[nonce := now + c.ttl] && |after| <= c.max
    ensures Takes(c, before, nonce, now, after)
  {
    assert NonceStore.Purged(before, now) == before;
  }

  /** In a full cache it pushes out an entry that expires first. */
  lemma TakesWhenFull(c: NonceStore.Config, before: NonceStore.Entries, nonce: string, now: int, out: string,
                      grown: NonceStore.Entries, after: NonceStore.Entries)
    requires ValidNonce(nonce) && nonce !in before && Later(before, now + 1)
    requires grown == before[nonce := now + c.ttl] && |grown| == c.max + 1
    requires out in grown && Later(grown, grown[out]) && after == grown - {out}
    ensures Takes(c, before, nonce, now, after)
  {
    assert NonceStore.Purged(before, now) == before;
    NonceStore.RemoveOne(grown, out);
    assert NonceStore.Trimmed(grown, c.max, after);
  }

  /** Another rival joins while there is room. */
  lemma RivalJoins(c: NonceStore.Config, e: NonceStore.Entries, own: string, names: seq<string>, n: nat, now: int)
    returns (after: NonceStore.Entries)
    requires Crowd(e, own, names, n, now + c.ttl) && Distinct(own, names)
    requires n + 1 < |names| == c.max && ValidNonce(names[n]) && c.ttl > 1
    ensures Takes(c, e, names[n], now, after) && Crowd(after, own, names, n + 1, now + c.ttl)
  {
    after := e[names[n] := now + c.ttl];
    AddOne(e, names[n], now + c.ttl);
    TakesWithRoom(c, e, names[n], now, after);
  }

  /** The last rival finds the cache full and pushes `own` out. */
  lemma LastRivalEvicts(c: NonceStore.Config, e: NonceStore.Entries, own: string, names: seq<string>, n: nat, now: int)
    returns (after: NonceStore.Entries)
    requires Crowd(e, own, names, n, now + c.ttl) && Distinct(own, names)
    requires n + 1 == |names| == c.max && ValidNonce(names[n]) && c.ttl > 1
    ensures Takes(c, e, names[n], now, after) && |after| == c.max && own !in after
    ensures names[n] in after && forall x :: x in after ==> after[x] == now + c.ttl
  {
    var grown := e[names[n] := now + c.ttl];
    AddOne(e, names[n], now + c.ttl);
    after := grown - {own};
    NonceStore.RemoveOne(grown, own);
    TakesWhenFull(c, e, names[n], now, own, grown, after);
  }

  /** Then `own` is accepted again, in place of some rival. */
  lemma CopyAccepted(c: NonceStore.Config, full: NonceStore.Entries, own: string, other: string, now: int)
    returns (after: NonceStore.Entries)
    requires |full| == c.max && own !in full && other in full && ValidNonce(own) && c.ttl > 1
    requires forall x :: x in full ==> full[x] == now - 1 + c.ttl
    ensures Takes(c, full, own, now, after)
  {
    var grown := full[own := now + c.ttl];
    AddOne(full, own, now + c.ttl);
    after := grown - {other};
    TakesWhenFull(c, full, own, now, other, grown, after);
  }

  ghost predicate LogOf(log: seq<Acceptance>, r: Request, names: set<string>) {
    log != [] && log[0].request == r && log[0].executed && forall i :: 0 <= i < |log| ==> log[i].request.nonce in names
  }

  /** A run that executed `r` first, then only requests of the `names`, has come to rest with cache `e`. */
  ghost predicate Rests(c: Config, run: seq<State>, steps: seq<Step>, clock: int, e: NonceStore.Entries, r: Request, names: set<string>) {
    && IsRun(c, run, steps) && CanRestart(c, steps)
    && var s := run[|steps|];
       s.up && s.handlers == map[] && s.clock <= clock && s.cache == Stored(c.store, e) && LogOf(s.log, r, names)
  }

  ghost predicate Reached(c: Config, clock: int, e: NonceStore.Entries, r: Request, names: set<string>) {
    exists run, steps :: Rests(c, run, steps, clock, e, r, names)
  }

  lemma Executes(c: Config, run: seq<State>, steps: seq<Step>, before: NonceStore.Entries, q: Request, u: int,
                 after: NonceStore.Entries, r: Request, names: set<string>)
    returns (run': seq<State>, steps': seq<Step>)
    requires Rests(c, run, steps, u, before, r, names) && q.nonce in names
    requires Admitted(q, c.ring, c.catalogue) && WithinSkew(q.timestamp, u, c.skew) && c.delay >= 0
    requires Takes(c.store, before, q.nonce, u, after)
    ensures Rests(c, run', steps', u, after, r, names)
    ensures var log := run'[|steps'|].log; |log| > 1 && log[|log| - 1].request == q && log[|log| - 1].executed
  {
    run', steps' := CheckThenUse(c, run, steps, q, u, u, Stored(c.store, after));
  }

  lemma ThenReached(c: Config, before: NonceStore.Entries, q: Request, u: int, after: NonceStore.Entries, r: Request, names: set<string>)
    requires Reached(c, u, before, r, names) && q.nonce in names
    requires Admitted(q, c.ring, c.catalogue) && WithinSkew(q.timestamp, u, c.skew) && c.delay >= 0
    requires Takes(c.store, before, q.nonce, u, after)
    ensures Reached(c, u, after, r, names)
  {
    var run, steps :| Rests(c, run, steps, u, before, r, names);
    var run', steps' := Executes(c, run, steps, before, q, u, after, r, names);
  }

  lemma FirstReached(c: Config, r: Request, t: int, names: set<string>)
    requires ValidConfig(c) && Admitted(r, c.ring, c.catalogue) && WithinSkew(r.timestamp, t, c.skew) && r.nonce in names
    ensures Reached(c, t + 1, map[r.nonce := t + c.store.ttl], r, names)
  {
    var k0 := NonceStore.Cache(map[], None);
    AcceptedAlone(c, k0, r, t);
    var run, steps := CheckThenUse(c, [State(t, true, map[], k0, [])], [], r, t, t, Alone(c, r, t));
    assert Rests(c, run, steps, t + 1, map[r.nonce := t + c.store.ttl], r, names);
  }

  /** When `r` is first used: as early as its timestamp allows. */
  function First(c: Config, r: Request): int {
    r.timestamp - c.skew
  }

  /** Requests with the given nonces, admitted at the time `r` is. */
  ghost predicate Rivalry(c: Config, r: Request, others: seq<Request>, names: seq<string>) {
    && ValidConfig(c) && TtlCovers(c) && |others| == |names| == c.store.max && Distinct(r.nonce, names)
    && Admitted(r, c.ring, c.catalogue) && r.timestamp != ZERO_TIME
    && forall i :: 0 <= i < |others| ==>
         Admitted(others[i], c.ring, c.catalogue) && others[i].timestamp == r.timestamp && others[i].nonce == names[i]
  }

  ghost function All(r: Request, names: seq<string>): set<string> {
    NameSet(names) + {r.nonce}
  }

  ghost function NameSet(names: seq<string>): set<string> {
    set x | x in names
  }

  lemma {:induction false} NameSetSize(names: seq<string>)
    ensures |NameSet(names)| <= |names|
  {
    if names != [] {
      var n := |names| - 1;
      NameSetSize(names[..n]);
      assert names == names[..n] + [names[n]];
      assert NameSet(names) == NameSet(names[..n]) + {names[n]};
    }
  }

  lemma RivalExecutes(c: Config, r: Request, others: seq<Request>, names: seq<string>, i: nat,
                      before: NonceStore.Entries, after: NonceStore.Entries)
    requires Rivalry(c, r, others, names) && i < |names| && Reached(c, First(c, r) + 1, before, r, All(r, names))
    requires Takes(c.store, before, names[i], First(c, r) + 1, after)
    ensures Reached(c, First(c, r) + 1, after, r, All(r, names))
  {
    ThenReached(c, before, others[i], First(c, r) + 1, after, r, All(r, names));
  }

  lemma RivalNonce(c: Config, r: Request, others: seq<Request>, names: seq<string>, i: nat)
    requires Rivalry(c, r, others, names) && i < |names|
    ensures ValidNonce(names[i])
  {
    assert Admitted(others[i], c.ring, c.catalogue);
  }

  lemma CrowdStarts(c: Config, r: Request, others: seq<Request>, names: seq<string>) returns (e: NonceStore.Entries)
    requires Rivalry(c, r, others, names)
    ensures Crowd(e, r.nonce, names, 0, First(c, r) + 1 + c.store.ttl)
    ensures Reached(c, First(c, r) + 1, e, r, All(r, names))
  {
    FirstReached(c, r, First(c, r), All(r, names));
    e := map[r.nonce := First(c, r) + c.store.ttl];
  }

  lemma CrowdJoined(c: Config, r: Request, others: seq<Request>, names: seq<string>, n: nat, e: NonceStore.Entries)
    returns (after: NonceStore.Entries)
    requires Rivalry(c, r, others, names) && n + 1 < |names| && Crowd(e, r.nonce, names, n, First(c, r) + 1 + c.store.ttl)
    requires Reached(c, First(c, r) + 1, e, r, All(r, names))
    ensures Crowd(after, r.nonce, names, n + 1, First(c, r) + 1 + c.store.ttl)
    ensures Reached(c, First(c, r) + 1, after, r, All(r, names))
  {
    RivalNonce(c, r, others, names, n);
    after := RivalJoins(c.store, e, r.nonce, names, n, First(c, r) + 1);
    RivalExecutes(c, r, others, names, n, e, after);
  }

  lemma {:induction false} CrowdGathers(c: Config, r: Request, others: seq<Request>, names: seq<string>, n: nat)
    returns (e: NonceStore.Entries)
    requires Rivalry(c, r, others, names) && n < |names|
    ensures Crowd(e, r.nonce, names, n, First(c, r) + 1 + c.store.ttl)
    ensures Reached(c, First(c, r) + 1, e, r, All(r, names))
  {
    if n == 0 {
      e := CrowdStarts(c, r, others, names);
    } else {
      e := CrowdGathers(c, r, others, names, n - 1);
      e := CrowdJoined(c, r, others, names, n - 1, e);
    }
  }

  lemma RivalsAmong(c: Config, r: Request, names: seq<string>, log: seq<Acceptance>)
    requires Distinct(r.nonce, names) && LogOf(log, r, All(r, names))
    ensures |Live(c, log, 0)| <= |names|
  {
    NameSetSize(names);
    NonceStore.SubsetSize(Live(c, log, 0), NameSet(names));
  }

  lemma EndsInReplay(c: Config, full: NonceStore.Entries, e: NonceStore.Entries, r: Request, names: seq<string>, u: int)
    returns (run: seq<State>, steps: seq<Step>)
    requires Reached(c, u, full, r, All(r, names)) && Takes(c.store, full, r.nonce, u, e) && Distinct(r.nonce, names)
    requires Admitted(r, c.ring, c.catalogue) && WithinSkew(r.timestamp, u, c.skew) && c.delay >= 0
    ensures IsRun(c, run, steps) && CanRestart(c, steps)
    ensures var log := run[|steps|].log; Replay(log, 0, |log| - 1) && |Live(c, log, 0)| <= |names|
  {
    run, steps :| Rests(c, run, steps, u, full, r, All(r, names));
    run, steps := Executes(c, run, steps, full, r, u, e, r, All(r, names));
    var log := run[|steps|].log;
    RivalsAmong(c, r, names, log);
  }

  lemma ReachedLater(c: Config, u: int, v: int, e: NonceStore.Entries, r: Request, names: set<string>)
    requires u <= v && Reached(c, u, e, r, names)
    ensures Reached(c, v, e, r, names)
  {
    var run, steps :| Rests(c, run, steps, u, e, r, names);
    assert Rests(c, run, steps, v, e, r, names);
  }

  /** After the last rival the cache is full of rivals. */
  lemma CrowdFills(c: Config, r: Request, others: seq<Request>, names: seq<string>) returns (full: NonceStore.Entries)
    requires Rivalry(c, r, others, names)
    ensures Reached(c, First(c, r) + 1, full, r, All(r, names)) && |full| == c.store.max && r.nonce !in full
    ensures names[|names| - 1] in full && forall x :: x in full ==> full[x] == First(c, r) + 1 + c.store.ttl
  {
    var t, n := First(c, r), |names| - 1;
    var e := CrowdGathers(c, r, others, names, n);
    RivalNonce(c, r, others, names, n);
    full := LastRivalEvicts(c.store, e, r.nonce, names, n, t + 1);
    RivalExecutes(c, r, others, names, n, e, full);
  }

  /** And a copy of `r` is accepted. */
  lemma CrowdTakesOver(c: Config, r: Request, others: seq<Request>, names: seq<string>)
    returns (full: NonceStore.Entries, after: NonceStore.Entries)
    requires Rivalry(c, r, others, names)
    ensures Reached(c, First(c, r) + 2, full, r, All(r, names))
    ensures Takes(c.store, full, r.nonce, First(c, r) + 2, after)
  {
    full := CrowdFills(c, r, others, names);
    ReachedLater(c, First(c, r) + 1, First(c, r) + 2, full, r, All(r, names));
    after := CopyAccepted(c.store, full, r.nonce, names[|names| - 1], First(c, r) + 2);
  }

  /**
    * The bound of `FewRivals` is tight: whatever the TTL, there is a run in which a request with exactly
    * `max` rivals is executed twice.
    */
  lemma EvictionReplays(c: Config, r: Request, others: seq<Request>, names: seq<string>)
    returns (run: seq<State>, steps: seq<Step>)
    requires Rivalry(c, r, others, names)
    ensures IsRun(c, run, steps) && CanRestart(c, steps)
    ensures var log := run[|steps|].log; Replay(log, 0, |log| - 1) && |Live(c, log, 0)| == c.store.max
  {
    var full, after := CrowdTakesOver(c, r, others, names);
    run, steps := EndsInReplay(c, full, after, r, names, First(c, r) + 2);
    var log := run[|steps|].log;
    if FewRivals(c, log, 0) {
      ExecutedAtMostOnce(c, run, steps, 0, |log| - 1);
    }
  }
}
