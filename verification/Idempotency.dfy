/**
 The idempotency middleware over its table. One process-wide mutex is held from lookup to
 completion, so calls follow one another; what can go wrong is every single SQL statement, the
 handler, and the text comparison of expiry times.
 */
module Idempotency {
  import opened Text
  import opened Timestamps

  const DAY: int := 24 * HOUR

  /** The pair of actor and key; the table's primary key. */
  type Key = nat

  /** A reservation has status 0; a completed row has the response. */
  datatype Row = Row(hash: nat, status: int, body: int, expires: Instant)

  type Table = map<Key, Row>

  datatype Outcome = Finished(status: int, body: int) | Died

  /** The statements that fail with a storage error. */
  datatype Faults = Faults(lookup: bool, sweep: bool, insert: bool, complete: bool, remove: bool)

  /** A request: its key and hash, the clock at lookup and at reservation, and what befalls it. */
  datatype Call = Call(key: Key, hash: nat, lookupAt: Instant, reserveAt: Instant, expires: Instant,
                       outcome: Outcome, faults: Faults)

  datatype Response =
    | Replayed(status: int, body: int)
    | HashConflict
    | InProgress
    | LookupFailed
    | ReservationConflict
    | Answered(status: int, body: int)
    | StoreFailed
    | NoAnswer

  /** `SELECT ... WHERE expires_at > now`. */
  function Lookup(t: Table, k: Key, now: Instant): Option<Row> {
    if k in t && StoredBefore(now, t[k].expires) then Some(t[k]) else None
  }

  /** `DELETE ... WHERE expires_at <= now`. */
  function Swept(t: Table, k: Key, now: Instant): Table {
    if k in t && !StoredBefore(now, t[k].expires) then t - {k} else t
  }

  predicate Pending(t: Table, k: Key, hash: nat) {
    k in t && t[k].hash == hash && t[k].status == 0
  }

  /** The reservation step: sweep, then insert unless the key is taken; the flag says whether it was inserted. */
  function Reserved(t: Table, c: Call): (Table, bool) {
    if c.faults.sweep then (t, false)
    else
      var swept := Swept(t, c.key, c.reserveAt);
      if c.faults.insert || c.key in swept then (swept, false)
      else (swept[c.key := Row(c.hash, 0, 0, c.expires)], true)
  }

  /** What follows the handler: drop the reservation after a server error, else complete it. */
  function Settled(t: Table, c: Call): (Table, Response) {
    if c.outcome.Died? then (t, NoAnswer)
    else if c.outcome.status >= 500 then
      (if Pending(t, c.key, c.hash) && !c.faults.remove then t - {c.key} else t, Answered(c.outcome.status, c.outcome.body))
    else if Pending(t, c.key, c.hash) && !c.faults.complete then
      (t[c.key := t[c.key].(status := c.outcome.status, body := c.outcome.body)], Answered(c.outcome.status, c.outcome.body))
    else (t, StoreFailed)
  }

  function FromRecord(row: Row, hash: nat): Response {
    if row.hash != hash then HashConflict
    else if row.status == 0 then InProgress
    else Replayed(row.status, row.body)
  }

  /** The handler runs exactly when the lookup finds nothing and the reservation succeeds. */
  predicate Runs(t: Table, c: Call) {
    !c.faults.lookup && Lookup(t, c.key, c.lookupAt).None? && Reserved(t, c).1
  }

  function Served(t: Table, c: Call): (Table, Response) {
    if c.faults.lookup then (t, LookupFailed)
    else
      var found := Lookup(t, c.key, c.lookupAt);
      if found.Some? then (t, FromRecord(found.value, c.hash))
      else
        var (reserved, ok) := Reserved(t, c);
        if ok then Settled(reserved, c) else (reserved, ReservationConflict)
  }

  class Middleware {
    var table: Table

    method GetIdempotency(k: Key, now: Instant) returns (row: Option<Row>)
      ensures row == Lookup(table, k, now)
    {
      row := if k in table && StoredBefore(now, table[k].expires) then Some(table[k]) else None;
    }

    method ReserveIdempotency(c: Call) returns (ok: bool)
      modifies this
      ensures (table, ok) == Reserved(old(table), c)
    {
      if c.faults.sweep {
        return false;
      }
      if c.key in table && !StoredBefore(c.reserveAt, table[c.key].expires) {
        table := table - {c.key};
      }
      if c.faults.insert || c.key in table {
        return false;
      }
      table := table[c.key := Row(c.hash, 0, 0, c.expires)];
      return true;
    }

    method CompleteIdempotency(c: Call, status: int, body: int) returns (ok: bool)
      modifies this
      ensures ok <==> Pending(old(table), c.key, c.hash) && !c.faults.complete
      ensures table == if ok then old(table)[c.key := old(table)[c.key].(status := status, body := body)] else old(table)
    {
      if c.faults.complete || !Pending(table, c.key, c.hash) {
        return false;
      }
      table := table[c.key := table[c.key].(status := status, body := body)];
      return true;
    }

    method DeletePendingIdempotency(c: Call)
      modifies this
      ensures table == if Pending(old(table), c.key, c.hash) && !c.faults.remove then old(table) - {c.key} else old(table)
    {
      if Pending(table, c.key, c.hash) && !c.faults.remove {
        table := table - {c.key};
      }
    }

    /** `withIdempotency`; the wrapped handler is the call's outcome. */
    method Serve(c: Call) returns (response: Response, ran: bool)
      modifies this
      ensures (table, response) == Served(old(table), c)
      ensures ran <==> Runs(old(table), c)
    {
      ran := false;
      if c.faults.lookup {
        return LookupFailed, false;
      }
      var record := GetIdempotency(c.key, c.lookupAt);
      if record.Some? {
        return FromRecord(record.value, c.hash), false;
      }
      var ok := ReserveIdempotency(c);
      if !ok {
        return ReservationConflict, false;
      }
      ran := true;
      if c.outcome.Died? {
        return NoAnswer, true;
      }
      if c.outcome.status >= 500 {
        DeletePendingIdempotency(c);
        return Answered(c.outcome.status, c.outcome.body), true;
      }
      var stored := CompleteIdempotency(c, c.outcome.status, c.outcome.body);
      if !stored {
        return StoreFailed, true;
      }
      return Answered(c.outcome.status, c.outcome.body), true;
    }
  }

  /** A handler run: its call, and whether its response was stored. */
  datatype HandlerRun = HandlerRun(call: Call, stored: bool)

  datatype State = State(table: Table, clock: int, log: seq<HandlerRun>)

  const START: State := State(map[], 0, [])

  /** Clock readings of a call follow one another; the reservation lasts a day from one in between. */
  predicate TimesInOrder(clock: int, c: Call) {
    clock <= c.lookupAt && c.lookupAt <= c.expires - DAY <= c.reserveAt
  }

  function Apply(s: State, c: Call): State {
    if !TimesInOrder(s.clock, c) then s
    else
      var (t, response) := Served(s.table, c);
      var run := HandlerRun(c, c.outcome.Finished? && response == Answered(c.outcome.status, c.outcome.body));
      State(t, c.reserveAt, if Runs(s.table, c) then s.log + [run] else s.log)
  }

  function Run(calls: seq<Call>): State {
    if calls == [] then START else Apply(Run(calls[..|calls| - 1]), calls[|calls| - 1])
  }

  /** The handler did not end in a server error: it succeeded, or nobody knows how far it got. */
  predicate Sticky(r: HandlerRun) {
    r.call.outcome.Died? || r.call.outcome.status < 500
  }

  predicate Lapsed(r: HandlerRun, now: int) {
    r.call.expires < now + SECOND
  }

  /** The table still answers for the run. */
  predicate Answers(t: Table, r: HandlerRun) {
    var c := r.call;
    && c.key in t && t[c.key].hash == c.hash && t[c.key].expires == c.expires
    && if r.stored && c.outcome.Finished? then t[c.key].status == c.outcome.status && t[c.key].body == c.outcome.body
       else t[c.key].status == 0
  }

  predicate Covered(s: State, r: HandlerRun) {
    Sticky(r) ==> Lapsed(r, s.clock) || Answers(s.table, r)
  }

  predicate Spaced(log: seq<HandlerRun>) {
    forall i, j :: 0 <= i < j < |log| && Sticky(log[i]) && log[j].call.key == log[i].call.key ==>
      Lapsed(log[i], log[j].call.reserveAt)
  }

  predicate Inv(s: State) {
    Spaced(s.log) && forall i :: 0 <= i < |s.log| ==> Covered(s, s.log[i])
  }

  /** A covered run whose lifetime is not over is found by the lookup and by the reservation. */
  lemma CoveredBlocks(s: State, c: Call, r: HandlerRun)
    requires TimesInOrder(s.clock, c) && Covered(s, r) && Sticky(r) && c.key == r.call.key
    ensures !Lapsed(r, c.lookupAt) ==> Lookup(s.table, c.key, c.lookupAt) == Some(s.table[c.key]) && Answers(s.table, r)
    ensures Runs(s.table, c) ==> Lapsed(r, c.reserveAt)
  {
    StoredBeforeWithinASecond(c.lookupAt, r.call.expires);
    StoredBeforeWithinASecond(c.reserveAt, r.call.expires);
  }

  lemma SettledLeavesOthers(t: Table, c: Call)
    ensures Settled(t, c).0 - {c.key} == t - {c.key}
  {
  }

  lemma ReservedLeavesOthers(t: Table, c: Call)
    ensures Reserved(t, c).0 - {c.key} == t - {c.key}
  {
    var swept := Swept(t, c.key, c.reserveAt);
    assert swept - {c.key} == t - {c.key};
  }

  lemma OtherKeysUntouched(t: Table, c: Call, k: Key)
    requires k != c.key
    ensures k in Served(t, c).0 <==> k in t
    ensures k in t ==> Served(t, c).0[k] == t[k]
  {
    ReservedLeavesOthers(t, c);
    SettledLeavesOthers(Reserved(t, c).0, c);
    var t' := Served(t, c).0;
    assert t' - {c.key} == t - {c.key};
    assert k in t' <==> k in t' - {c.key};
    assert k in t <==> k in t - {c.key};
  }

  lemma LiveRowUntouched(t: Table, c: Call)
    requires c.key in t && StoredBefore(c.reserveAt, t[c.key].expires)
    ensures Served(t, c).0 == t
  {
  }

  lemma ServedKeeps(s: State, c: Call, r: HandlerRun)
    requires TimesInOrder(s.clock, c) && Covered(s, r)
    ensures Covered(Apply(s, c), r)
  {
    if Sticky(r) && !Lapsed(r, c.reserveAt) {
      if r.call.key == c.key {
        StoredBeforeWithinASecond(c.reserveAt, r.call.expires);
        LiveRowUntouched(s.table, c);
      } else {
        OtherKeysUntouched(s.table, c, r.call.key);
      }
    }
  }

  lemma RunIsCovered(s: State, c: Call)
    requires TimesInOrder(s.clock, c) && Runs(s.table, c)
    ensures var s' := Apply(s, c); Covered(s', s'.log[|s.log|])
  {
  }

  lemma ApplyKeepsInv(s: State, c: Call)
    requires Inv(s)
    ensures Inv(Apply(s, c))
  {
    if TimesInOrder(s.clock, c) {
      var s' := Apply(s, c);
      forall i | 0 <= i < |s.log| ensures Covered(s', s.log[i]) {
        ServedKeeps(s, c, s.log[i]);
      }
      if Runs(s.table, c) {
        RunIsCovered(s, c);
        forall i | 0 <= i < |s.log| && Sticky(s.log[i]) && c.key == s.log[i].call.key ensures Lapsed(s.log[i], c.reserveAt) {
          CoveredBlocks(s, c, s.log[i]);
        }
      }
    }
  }

  lemma {:induction false} RunKeepsInv(calls: seq<Call>)
    ensures Inv(Run(calls))
  {
    if calls != [] {
      RunKeepsInv(calls[..|calls| - 1]);
      ApplyKeepsInv(Run(calls[..|calls| - 1]), calls[|calls| - 1]);
    }
  }

  /** After a run that did not end in a server error, the handler does not run again for its key until the reservation lapses. */
  lemma AtMostOncePerLifetime(calls: seq<Call>, i: nat, j: nat)
    requires i < j < |Run(calls).log|
    requires Run(calls).log[i].call.key == Run(calls).log[j].call.key && Sticky(Run(calls).log[i])
    ensures Run(calls).log[i].call.expires < Run(calls).log[j].call.reserveAt + SECOND
  {
    RunKeepsInv(calls);
  }

  lemma AnswersAll(s: State, c: Call, r: HandlerRun)
    requires TimesInOrder(s.clock, c) && Covered(s, r) && Sticky(r) && c.key == r.call.key
    requires !c.faults.lookup && !Lapsed(r, c.lookupAt)
    ensures !Runs(s.table, c)
    ensures Served(s.table, c) == (s.table,
              if c.hash != r.call.hash then HashConflict
              else if r.stored && r.call.outcome.Finished? && r.call.outcome.status != 0
              then Replayed(r.call.outcome.status, r.call.outcome.body) else InProgress)
  {
    CoveredBlocks(s, c, r);
  }

  /** Until then every request for the key is answered from the row and runs nothing. */
  lemma LaterRequests(calls: seq<Call>, i: nat, c: Call)
    requires i < |Run(calls).log| && Sticky(Run(calls).log[i])
    requires c.key == Run(calls).log[i].call.key && TimesInOrder(Run(calls).clock, c) && !c.faults.lookup
    requires c.lookupAt + SECOND <= Run(calls).log[i].call.expires
    ensures var s, r := Run(calls), Run(calls).log[i];
            && !Runs(s.table, c)
            && Served(s.table, c) == (s.table,
                 if c.hash != r.call.hash then HashConflict
                 else if r.stored && r.call.outcome.Finished? && r.call.outcome.status != 0 then Replayed(r.call.outcome.status, r.call.outcome.body)
                 else InProgress)
  {
    RunKeepsInv(calls);
    var s := Run(calls);
    assert Covered(s, s.log[i]);
    AnswersAll(s, c, s.log[i]);
  }

  // ---- What does run ----

  /** No row of the key would be found by the lookup, nor survive the sweep. */
  predicate Absent(t: Table, c: Call) {
    c.key in t ==> !StoredBefore(c.lookupAt, t[c.key].expires) && !StoredBefore(c.reserveAt, t[c.key].expires)
  }

  /** The handler runs exactly when lookup, sweep and insert work and the key is absent or expired. */
  lemma RunsExactly(t: Table, c: Call)
    ensures Runs(t, c) <==> !c.faults.lookup && !c.faults.sweep && !c.faults.insert && Absent(t, c)
  {
  }

  /** A call that does not run its handler is answered from the row that the lookup finds, or refused for want of one. */
  lemma AnsweredExactly(t: Table, c: Call)
    requires !Runs(t, c)
    ensures var found := c.key in t && StoredBefore(c.lookupAt, t[c.key].expires);
            Served(t, c).1 == if c.faults.lookup then LookupFailed
                              else if !found then ReservationConflict
                              else if t[c.key].hash != c.hash then HashConflict
                              else if t[c.key].status == 0 then InProgress
                              else Replayed(t[c.key].status, t[c.key].body)
  {
  }

  /** Right after the reservation the row is the call's own. */
  lemma ReservationIsPending(t: Table, c: Call)
    requires Reserved(t, c).1
    ensures Pending(Reserved(t, c).0, c.key, c.hash)
  {
  }

  /** Whoever runs the handler gets its own response, unless it cannot be stored. */
  lemma RunAnswers(t: Table, c: Call)
    requires Runs(t, c) && c.outcome.Finished?
    ensures c.outcome.status >= 500 || !c.faults.complete ==>
              Served(t, c).1 == Answered(c.outcome.status, c.outcome.body)
    ensures c.outcome.status < 500 && c.faults.complete ==> Served(t, c).1 == StoreFailed
  {
    ReservationIsPending(t, c);
  }

  /** After a server error whose delete works, the key is free again. */
  lemma ServerErrorFreesKey(t: Table, c: Call)
    requires Runs(t, c) && c.outcome.Finished? && c.outcome.status >= 500 && !c.faults.remove
    ensures c.key !in Served(t, c).0
  {
    ReservationIsPending(t, c);
  }

  predicate NoFaults(f: Faults) {
    !f.lookup && !f.sweep && !f.insert && !f.complete && !f.remove
  }

  lemma {:induction false} OthersLeaveKeyFree(calls: seq<Call>, others: seq<Call>, k: Key)
    requires k !in Run(calls).table && forall i :: 0 <= i < |others| ==> others[i].key != k
    ensures k !in Run(calls + others).table
  {
    if others == [] {
      assert calls + others == calls;
    } else {
      var n := |others| - 1;
      OthersLeaveKeyFree(calls, others[..n], k);
      assert (calls + others)[..|calls + others| - 1] == calls + others[..n];
      assert (calls + others)[|calls + others| - 1] == others[n];
      OtherKeysUntouched(Run(calls + others[..n]).table, others[n], k);
    }
  }

  /**
    * In any run, after a handler run that ends in a server error and whose delete works, the next call for
    * the key runs its handler if its storage statements work, whatever is served for other keys in between.
    */
  lemma RetryRuns(calls: seq<Call>, failed: Call, others: seq<Call>, retry: Call)
    requires TimesInOrder(Run(calls).clock, failed) && Runs(Run(calls).table, failed)
    requires failed.outcome.Finished? && failed.outcome.status >= 500 && !failed.faults.remove
    requires retry.key == failed.key && NoFaults(retry.faults)
    requires forall i :: 0 <= i < |others| ==> others[i].key != failed.key
    ensures Runs(Run(calls + [failed] + others).table, retry)
    ensures retry.outcome.Finished? ==>
              Served(Run(calls + [failed] + others).table, retry).1 == Answered(retry.outcome.status, retry.outcome.body)
  {
    assert (calls + [failed])[..|calls|] == calls;
    ServerErrorFreesKey(Run(calls).table, failed);
    OthersLeaveKeyFree(calls + [failed], others, failed.key);
    var t := Run(calls + [failed] + others).table;
    RunsExactly(t, retry);
    if retry.outcome.Finished? {
      RunAnswers(t, retry);
    }
  }
}
