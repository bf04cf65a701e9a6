/**
 The bounded replay cache: a map from nonce to expiry, purged, inserted into, trimmed oldest first
 and written to a file that replaces the previous one atomically or not at all.
 */
module NonceStore {
  import opened Text
  import opened Canonical

  type Entries = map<string, int>

  datatype Config = Config(ttl: int, max: nat, persisted: bool)

  /** The in-memory entries and the entries in the file, if one was ever written. */
  datatype Cache = Cache(memory: Entries, file: Option<Entries>)

  datatype Outcome = Accepted | Replayed | InvalidNonce | PersistFailed

  /** The constructor's bounds. */
  predicate ValidConfig(c: Config) {
    c.ttl > 0 && c.max >= 128
  }

  /** The entries whose expiry is after `now`. */
  function Purged(e: Entries, now: int): Entries {
    map n | n in e && e[n] > now :: e[n]
  }

  /** `after` keeps at most `max` entries of `before`, and none that expires before a dropped one. */
  ghost predicate Trimmed(before: Entries, max: nat, after: Entries) {
    && after.Keys <= before.Keys
    && (forall n :: n in after ==> after[n] == before[n])
    && (if |before| <= max then after == before else |after| == max)
    && forall n, d :: n in after && d in before && d !in after ==> before[d] <= before[n]
  }

  /** The cache with a new nonce in it, before it is trimmed. */
  function Grown(c: Config, memory: Entries, nonce: string, now: int): Entries {
    Purged(memory, now)[nonce := now + c.ttl]
  }

  /** One call of `Use`, whose file write succeeds when `writeOk`. */
  ghost predicate UseStep(c: Config, before: Cache, nonce: string, now: int, writeOk: bool, after: Cache, out: Outcome) {
    var live := Purged(before.memory, now);
    if !ValidNonce(nonce) then out == InvalidNonce && after == before
    else if nonce in live then out == Replayed && after == before.(memory := live)
    else if c.persisted && !writeOk then out == PersistFailed && after == before
    else
      && out == Accepted
      && Trimmed(Grown(c, before.memory, nonce, now), c.max, after.memory)
      && after.file == if c.persisted then Some(after.memory) else before.file
  }

  /** An entry with the earliest expiry; ties are broken arbitrarily, as by an unstable sort. */
  method Oldest<K(==)>(e: map<K, int>) returns (oldest: K)
    requires e != map[]
    ensures oldest in e && forall n :: n in e ==> e[oldest] <= e[n]
  {
    oldest :| oldest in e;
    var todo := e.Keys - {oldest};
    while todo != {}
      invariant todo <= e.Keys && oldest in e
      invariant forall n :: n in e && n !in todo ==> e[oldest] <= e[n]
    {
      var n :| n in todo;
      if e[n] < e[oldest] {
        oldest := n;
      }
      todo := todo - {n};
    }
  }

  lemma RemoveOne<K>(e: map<K, int>, n: K)
    requires n in e
    ensures |e - {n}| == |e| - 1
  {
    assert (e - {n}).Keys == e.Keys - {n};
  }

  /** The refusals of `load`: too many entries, or a malformed nonce. */
  method CheckEntries(stored: Entries, max: nat) returns (ok: bool)
    ensures ok <==> |stored| <= max && forall n :: n in stored ==> ValidNonce(n)
  {
    if |stored| > max {
      return false;
    }
    var todo := stored.Keys;
    while todo != {}
      invariant todo <= stored.Keys
      invariant forall n :: n in stored && n !in todo ==> ValidNonce(n)
    {
      var n :| n in todo;
      if !ValidNonce(n) {
        return false;
      }
      todo := todo - {n};
    }
    return true;
  }

  class Store {
    const config: Config
    var entries: Entries
    var file: Option<Entries>

    ghost predicate Valid()
      reads this
    {
      ValidConfig(config) && |entries| <= config.max
    }

    ghost function View(): Cache
      reads this
    {
      Cache(entries, file)
    }

    method PurgeLocked(now: int) returns (changed: bool)
      modifies this`entries
      ensures entries == Purged(old(entries), now)
      ensures changed <==> entries != old(entries)
    {
      changed := false;
      var todo := entries.Keys;
      while todo != {}
        invariant todo <= entries.Keys <= old(entries).Keys
        invariant forall n :: n in entries ==> entries[n] == old(entries)[n]
        invariant forall n :: n in old(entries) && n !in todo ==> (n in entries <==> old(entries)[n] > now)
        invariant changed <==> entries.Keys != old(entries).Keys
      {
        var n :| n in todo;
        if entries[n] <= now {
          entries := entries - {n};
          changed := true;
          assert n in old(entries) && n !in entries;
        }
        todo := todo - {n};
      }
    }

    method TrimLocked()
      modifies this`entries
      ensures Trimmed(old(entries), config.max, entries)
    {
      if |entries| <= config.max {
        return;
      }
      var all, kept := entries, entries;
      while |kept| > config.max
        invariant config.max <= |kept| && kept.Keys <= all.Keys
        invariant forall n :: n in kept ==> kept[n] == all[n]
        invariant forall n, d :: n in kept && d in all && d !in kept ==> all[d] <= all[n]
        decreases |kept|
      {
        var n := Oldest(kept);
        RemoveOne(kept, n);
        kept := kept - {n};
      }
      entries := kept;
    }

    method PersistLocked(writeOk: bool) returns (ok: bool)
      modifies this`file
      ensures ok == (!config.persisted || writeOk)
      ensures file == if config.persisted && writeOk then Some(entries) else old(file)
    {
      if !config.persisted {
        return true;
      }
      if writeOk {
        file := Some(entries);
      }
      return writeOk;
    }

    method Use(nonce: string, now: int, writeOk: bool) returns (out: Outcome)
      requires Valid()
      modifies this
      ensures Valid()
      ensures UseStep(config, old(View()), nonce, now, writeOk, View(), out)
    {
      if !ValidNonce(nonce) {
        return InvalidNonce;
      }
      var previous := entries;
      var _ := PurgeLocked(now);
      PurgedSize(previous, now);
      if nonce in entries {
        return Replayed;
      }
      entries := entries[nonce := now + config.ttl];
      assert entries == Grown(config, previous, nonce, now);
      TrimLocked();
      var ok := PersistLocked(writeOk);
      if !ok {
        entries := previous;
        return PersistFailed;
      }
      return Accepted;
    }

    /** Start-up: load the file, refuse it if oversized or malformed, purge, and write back only a change. */
    method Open(now: int, writeOk: bool) returns (started: bool)
      requires ValidConfig(config)
      modifies this
      ensures started <==> Opens(config, old(file), now, writeOk)
      ensures started ==> Valid() && View() == Opened(config, old(file), now)
      ensures !started ==> file == old(file)
    {
      var loaded := map[];
      if config.persisted && file.Some? {
        var ok := CheckEntries(file.value, config.max);
        if !ok {
          return false;
        }
        loaded := file.value;
      }
      entries := loaded;
      if !config.persisted {
        return true;
      }
      PurgedSize(entries, now);
      var changed := PurgeLocked(now);
      if changed {
        var ok := PersistLocked(writeOk);
        return ok;
      }
      return true;
    }
  }

  lemma PurgedSize(e: Entries, now: int)
    ensures |Purged(e, now)| <= |e|
  {
    SubsetSize(Purged(e, now).Keys, e.Keys);
  }

  lemma {:induction false} SubsetSize(a: set<string>, b: set<string>)
    requires a <= b
    ensures |a| <= |b|
    decreases a
  {
    if a != {} {
      var x :| x in a;
      SubsetSize(a - {x}, b - {x});
    }
  }

  /** What a process starts from: the file, or nothing. */
  function Loaded(c: Config, file: Option<Entries>): Entries {
    if c.persisted && file.Some? then file.value else map[]
  }

  predicate Opens(c: Config, file: Option<Entries>, now: int, writeOk: bool) {
    var e := Loaded(c, file);
    |e| <= c.max && (forall n :: n in e ==> ValidNonce(n)) && (Purged(e, now) == e || writeOk)
  }

  function Opened(c: Config, file: Option<Entries>, now: int): Cache {
    var e := Loaded(c, file);
    if Purged(e, now) == e then Cache(e, file) else Cache(Purged(e, now), Some(Purged(e, now)))
  }

  /** What every call keeps: bounds, well-formed nonces, and the same unexpired entries in memory and file. */
  ghost predicate InSync(c: Config, k: Cache, now: int) {
    && |k.memory| <= c.max && |Loaded(c, k.file)| <= c.max
    && (forall n :: n in k.memory ==> ValidNonce(n))
    && (forall n :: n in Loaded(c, k.file) ==> ValidNonce(n))
    && (c.persisted ==> Purged(k.memory, now) == Purged(Loaded(c, k.file), now))
  }

  /** Readings may lag the clock: they are taken before the lock is. */
  lemma UseKeepsSync(c: Config, k: Cache, nonce: string, reading: int, clock: int, writeOk: bool, k': Cache, out: Outcome)
    requires ValidConfig(c) && reading <= clock
    requires InSync(c, k, clock) && UseStep(c, k, nonce, reading, writeOk, k', out)
    ensures InSync(c, k', clock)
  {
    PurgedSize(k.memory, reading);
    assert Purged(Purged(k.memory, reading), clock) == Purged(k.memory, clock);
  }

  lemma TimeKeepsSync(c: Config, k: Cache, before: int, after: int)
    requires before <= after && InSync(c, k, before)
    ensures InSync(c, k, after)
  {
    assert Purged(Purged(k.memory, before), after) == Purged(k.memory, after);
    var f := Loaded(c, k.file);
    assert Purged(Purged(f, before), after) == Purged(f, after);
  }

  /** A restart never refuses its own file, and the restarted cache holds exactly the unexpired nonces it held before. */
  lemma RestartRejectsTheSame(c: Config, k: Cache, now: int)
    requires c.persisted && InSync(c, k, now)
    ensures Opens(c, k.file, now, true)
    ensures InSync(c, Opened(c, k.file, now), now)
    ensures Purged(Opened(c, k.file, now).memory, now) == Purged(k.memory, now)
  {
    var f := Loaded(c, k.file);
    PurgedSize(f, now);
    assert Purged(Purged(f, now), now) == Purged(f, now);
  }
}
