/** The audit log's hash chain, with the hash left uninterpreted. */
module Audit {
  import opened Text

  /** An entry to record; `before` and `after` are JSON texts, "null" for nothing. */
  datatype Entry = Entry(timestamp: string, actor: string, operation: string, resource: string, result: string,
                         correlation: string, before: string, after: string)

  /** A stored row, with SQL NULL as `None`. */
  datatype Row = Row(timestamp: string, actor: string, operation: string, resource: string, result: string,
                     correlation: string, before: Option<string>, after: Option<string>,
                     hash: string, previous: Option<string>)

  /** `COALESCE(column, '')`. */
  function Coalesce(v: Option<string>): string {
    if v.Some? then v.value else ""
  }

  function NullJson(v: string): Option<string> {
    if v == "null" then None else Some(v)
  }

  function NullString(v: string): Option<string> {
    if v == "" then None else Some(v)
  }

  function JsonOrNull(v: string): string {
    if v == "" then "null" else v
  }

  /** Storing a JSON text and reading it back for verification restores it. */
  lemma JsonColumnRoundTrip(v: string)
    requires v != ""
    ensures JsonOrNull(Coalesce(NullJson(v))) == v
  {
  }

  /** The text `Record` hashes: fields joined without separators, then the previous hash. */
  function RecordText(e: Entry, previous: string): string {
    e.timestamp + e.actor + e.operation + e.resource + e.result + e.correlation + e.before + e.after + previous
  }

  /** A row as `Verify` reads it: the columns it hashes joined together, the link and the hash. */
  datatype Item = Item(fields: string, link: string, hash: string)

  function Read(row: Row): Item {
    Item(row.timestamp + row.actor + row.operation + row.resource + row.result + row.correlation
         + JsonOrNull(Coalesce(row.before)) + JsonOrNull(Coalesce(row.after)),
         Coalesce(row.previous), row.hash)
  }

  function ReadAll(rows: seq<Row>): (items: seq<Item>)
    ensures |items| == |rows| && forall i :: 0 <= i < |rows| ==> items[i] == Read(rows[i])
  {
    seq(|rows|, i requires 0 <= i < |rows| => Read(rows[i]))
  }

  function Fold(c: char): char {
    if 'A' <= c <= 'Z' then c - 'A' + 'a' else c
  }

  /** `strings.EqualFold` against a lower-case hexadecimal text. */
  predicate EqualFold(a: string, b: string) {
    |a| == |b| && forall i :: 0 <= i < |a| ==> Fold(a[i]) == Fold(b[i])
  }

  /** `hex(sha256(x))`: 64 lower-case characters. */
  ghost predicate HexHash(hash: string -> string) {
    forall x :: |hash(x)| == 64 && forall i :: 0 <= i < 64 ==> Fold(hash(x)[i]) == hash(x)[i]
  }

  /** The text of a row that is hashed. */
  function Hashed(item: Item): string {
    item.fields + item.link
  }

  predicate Collide(hash: string -> string, a: Item, b: Item) {
    Hashed(a) != Hashed(b) && hash(Hashed(a)) == hash(Hashed(b))
  }

  /** No row of one log collides with a row of the other. */
  predicate NoCollision(hash: string -> string, a: seq<Item>, b: seq<Item>) {
    forall i, j :: 0 <= i < |a| && 0 <= j < |b| ==> !Collide(hash, a[i], b[j])
  }

  predicate HashOk(hash: string -> string, item: Item) {
    EqualFold(item.hash, hash(Hashed(item)))
  }

  function LastHash(items: seq<Item>): string {
    if items == [] then "" else items[|items| - 1].hash
  }

  /** What `Verify` accepts: every row links to its predecessor's hash and carries its own. */
  predicate Chained(hash: string -> string, items: seq<Item>) {
    if items == [] then true
    else
      var n := |items| - 1;
      Chained(hash, items[..n]) && items[n].link == LastHash(items[..n]) && HashOk(hash, items[n])
  }

  function NewRow(hash: string -> string, e: Entry, previous: string): Row {
    Row(e.timestamp, e.actor, e.operation, e.resource, e.result, e.correlation, NullJson(e.before), NullJson(e.after),
        hash(RecordText(e, previous)), NullString(previous))
  }

  method VerifyItems(hash: string -> string, items: seq<Item>) returns (ok: bool)
    ensures ok <==> Chained(hash, items)
  {
    var previous := "";
    for i := 0 to |items|
      invariant previous == LastHash(items[..i])
      invariant Chained(hash, items[..i])
    {
      ChainedStep(hash, items, i);
      if items[i].link != previous || !HashOk(hash, items[i]) {
        return false;
      }
      previous := items[i].hash;
    }
    assert items[..|items|] == items;
    return true;
  }

  /** The row holds the entry; a JSON text of nothing is stored as NULL. */
  predicate Keeps(row: Row, e: Entry) {
    && row.timestamp == e.timestamp && row.actor == e.actor && row.operation == e.operation && row.resource == e.resource
    && row.result == e.result && row.correlation == e.correlation
    && row.before == (if e.before == "null" then None else Some(e.before))
    && row.after == (if e.after == "null" then None else Some(e.after))
  }

  class Log {
    const hash: string -> string
    var rows: seq<Row>

    constructor (hash: string -> string)
      ensures this.hash == hash && rows == []
    {
      this.hash := hash;
      rows := [];
    }

    /** `Record`; a failed lookup of the previous hash is ignored. */
    method Record(e: Entry, lookupOk: bool, insertOk: bool) returns (ok: bool)
      modifies this`rows
      ensures ok == insertOk
      ensures rows == Recorded(hash, old(rows), Call(e, lookupOk, insertOk))
      ensures ok ==> |rows| == |old(rows)| + 1 && rows[..|old(rows)|] == old(rows) && Keeps(rows[|old(rows)|], e)
      ensures !ok ==> rows == old(rows)
    {
      var previous := "";
      if lookupOk && |rows| > 0 {
        previous := rows[|rows| - 1].hash;
      }
      if insertOk {
        rows := rows + [NewRow(hash, e, previous)];
      }
      return insertOk;
    }

    method Verify() returns (ok: bool)
      ensures ok <==> Chained(hash, ReadAll(rows))
    {
      ok := VerifyItems(hash, ReadAll(rows));
    }
  }

  datatype Call = Call(entry: Entry, lookupOk: bool, insertOk: bool)

  /** The hash `Record` links to. */
  function Previous(rows: seq<Row>, lookupOk: bool): string {
    if lookupOk && |rows| > 0 then rows[|rows| - 1].hash else ""
  }

  function Recorded(hash: string -> string, rows: seq<Row>, c: Call): seq<Row> {
    if c.insertOk then rows + [NewRow(hash, c.entry, Previous(rows, c.lookupOk))] else rows
  }

  /** A call that adds a row to a non-empty log without its predecessor's hash. */
  predicate Blind(rows: seq<Row>, c: Call) {
    c.insertOk && !c.lookupOk && rows != []
  }

  /** `log` lists the states of an initially empty log under `calls`. */
  ghost predicate IsRun(hash: string -> string, calls: seq<Call>, log: seq<seq<Row>>) {
    |log| == |calls| + 1 && log[0] == [] && forall i :: 0 <= i < |calls| ==> log[i + 1] == Recorded(hash, log[i], calls[i])
  }

  /** `json.Marshal` never yields an empty text. */
  predicate JsonTexts(c: Call) {
    c.entry.before != "" && c.entry.after != ""
  }

  /** A new row reads back as the text that was hashed, linked to `previous`. */
  lemma NewRowReads(hash: string -> string, e: Entry, previous: string)
    requires e.before != "" && e.after != ""
    ensures var item := Read(NewRow(hash, e, previous));
            item.link == previous && item.hash == hash(Hashed(item))
  {
    JsonColumnRoundTrip(e.before);
    JsonColumnRoundTrip(e.after);
    var item := Read(NewRow(hash, e, previous));
    assert item.fields + previous == RecordText(e, previous);
  }

  lemma ChainedGrows(hash: string -> string, items: seq<Item>, item: Item)
    ensures Chained(hash, items + [item])
            <==> Chained(hash, items) && item.link == LastHash(items) && HashOk(hash, item)
  {
    assert (items + [item])[..|items|] == items;
  }

  lemma {:induction false} ChainedPrefix(hash: string -> string, items: seq<Item>, n: nat)
    requires n <= |items| && Chained(hash, items)
    ensures Chained(hash, items[..n])
  {
    if n == |items| {
      assert items[..n] == items;
    } else {
      ChainedPrefix(hash, items[..|items| - 1], n);
      assert items[..|items| - 1][..n] == items[..n];
    }
  }

  /** What `Verify` learns from row `i`. */
  lemma ChainedStep(hash: string -> string, items: seq<Item>, i: nat)
    requires i < |items| && Chained(hash, items[..i])
    ensures LastHash(items[..i + 1]) == items[i].hash
    ensures Chained(hash, items[..i + 1]) <==> items[i].link == LastHash(items[..i]) && HashOk(hash, items[i])
    ensures Chained(hash, items) ==> Chained(hash, items[..i + 1])
  {
    assert items[..i + 1] == items[..i] + [items[i]];
    ChainedGrows(hash, items[..i], items[i]);
    if Chained(hash, items) {
      ChainedPrefix(hash, items, i + 1);
    }
  }

  /** A stored hash that passes is 64 characters long, so the successor of a row cannot link to the empty text. */
  lemma PassingHashLength(hash: string -> string, item: Item)
    requires HexHash(hash) && HashOk(hash, item)
    ensures |item.hash| == 64
  {
  }

  /** One call keeps an accepted log accepted unless it appends blindly; a rejected log stays rejected. */
  lemma RecordChains(hash: string -> string, rows: seq<Row>, c: Call)
    requires HexHash(hash) && JsonTexts(c)
    ensures Chained(hash, ReadAll(Recorded(hash, rows, c))) <==> Chained(hash, ReadAll(rows)) && !Blind(rows, c)
  {
    if c.insertOk {
      var items, row := ReadAll(rows), NewRow(hash, c.entry, Previous(rows, c.lookupOk));
      NewRowReads(hash, c.entry, Previous(rows, c.lookupOk));
      assert ReadAll(rows + [row]) == items + [Read(row)];
      ChainedGrows(hash, items, Read(row));
      if Chained(hash, items) && rows != [] {
        PassingHashLength(hash, items[|rows| - 1]);
      }
    }
  }

  /** Verify accepts the log of a run of Record calls exactly when no row was appended blindly. */
  lemma {:induction false} VerifyAcceptsRecords(hash: string -> string, calls: seq<Call>, log: seq<seq<Row>>, n: nat)
    requires HexHash(hash) && IsRun(hash, calls, log) && n <= |calls|
    requires forall i :: 0 <= i < |calls| ==> JsonTexts(calls[i])
    ensures Chained(hash, ReadAll(log[n])) <==> forall i :: 0 <= i < n ==> !Blind(log[i], calls[i])
  {
    if n > 0 {
      VerifyAcceptsRecords(hash, calls, log, n - 1);
      RecordChains(hash, log[n - 1], calls[n - 1]);
    }
  }

  /** Equal stored hashes stand for equal texts, or for a collision. */
  lemma SameHash(hash: string -> string, a: Item, b: Item)
    requires HexHash(hash) && HashOk(hash, a) && HashOk(hash, b) && a.hash == b.hash
    ensures hash(Hashed(a)) == hash(Hashed(b))
    ensures |a.link| == |b.link| ==> a == b || Collide(hash, a, b)
  {
    var x, y := hash(Hashed(a)), hash(Hashed(b));
    forall i | 0 <= i < 64 ensures x[i] == y[i] {
      assert Fold(x[i]) == x[i] && Fold(y[i]) == y[i];
    }
    assert x == y;
    if |a.link| == |b.link| && Hashed(a) == Hashed(b) {
      SameEnds(a.fields, a.link, b.fields, b.link);
    }
  }

  lemma SameEnds(p: string, q: string, r: string, s: string)
    requires p + q == r + s && |q| == |s|
    ensures p == r && q == s
  {
    assert p == (p + q)[..|p|] && r == (r + s)[..|r|];
    assert q == (p + q)[|p|..] && s == (r + s)[|r|..];
  }

  function PreviousHash(items: seq<Item>, i: nat): string
    requires i < |items|
  {
    if i == 0 then "" else items[i - 1].hash
  }

  lemma {:induction false} ChainedAt(hash: string -> string, items: seq<Item>, i: nat)
    requires Chained(hash, items) && i < |items|
    ensures items[i].link == PreviousHash(items, i) && HashOk(hash, items[i])
  {
    if i < |items| - 1 {
      ChainedAt(hash, items[..|items| - 1], i);
    }
  }

  /** Rows of accepted logs with one hash are equal or collide, if both have a predecessor or neither has. */
  lemma SameHashSameRow(hash: string -> string, a: seq<Item>, b: seq<Item>, i: nat, j: nat)
    requires HexHash(hash) && Chained(hash, a) && Chained(hash, b) && i < |a| && j < |b|
    requires a[i].hash == b[j].hash && (i == 0 <==> j == 0)
    ensures a[i] == b[j] || Collide(hash, a[i], b[j])
  {
    ChainedAt(hash, a, i);
    ChainedAt(hash, b, j);
    if i > 0 {
      ChainedAt(hash, a, i - 1);
      ChainedAt(hash, b, j - 1);
      PassingHashLength(hash, a[i - 1]);
      PassingHashLength(hash, b[j - 1]);
    }
    SameHash(hash, a[i], b[j]);
  }

  /** Equal rows have predecessors with one hash. */
  lemma SameRowSamePrevious(hash: string -> string, a: seq<Item>, b: seq<Item>, i: nat, j: nat)
    requires Chained(hash, a) && Chained(hash, b) && 0 < i < |a| && 0 < j < |b| && a[i] == b[j]
    ensures a[i - 1].hash == b[j - 1].hash
  {
    ChainedAt(hash, a, i);
    ChainedAt(hash, b, j);
  }

  /**
    * Two accepted logs with one last hash that differ `k` rows before the end (as far as both go on
    * before that row or start there together) hold two rows with different texts and one hash.
    */
  lemma DifferenceIsCollision(hash: string -> string, a: seq<Item>, b: seq<Item>, k: nat) returns (m: nat)
    requires HexHash(hash) && Chained(hash, a) && Chained(hash, b)
    requires k < |a| && k < |b| && LastHash(a) == LastHash(b)
    requires |a| == |b| || (k + 1 < |a| && k + 1 < |b|)
    requires a[|a| - 1 - k] != b[|b| - 1 - k]
    ensures m <= k && Collide(hash, a[|a| - 1 - m], b[|b| - 1 - m])
  {
    m := LastDifference(a, b, k);
    if m > 0 {
      SameRowSamePrevious(hash, a, b, |a| - m, |b| - m);
    }
    SameHashSameRow(hash, a, b, |a| - 1 - m, |b| - 1 - m);
  }

  lemma {:induction false} LastDifference(a: seq<Item>, b: seq<Item>, k: nat) returns (m: nat)
    requires k < |a| && k < |b| && a[|a| - 1 - k] != b[|b| - 1 - k]
    ensures m <= k && a[|a| - 1 - m] != b[|b| - 1 - m] && (m > 0 ==> a[|a| - m] == b[|b| - m])
  {
    if k > 0 && a[|a| - k] != b[|b| - k] {
      m := LastDifference(a, b, k - 1);
    } else {
      m := k;
    }
  }

  /** Without collisions between the two, accepted logs with one last hash agree row by row backwards. */
  lemma SharedTail(hash: string -> string, a: seq<Item>, b: seq<Item>, k: nat)
    requires HexHash(hash) && NoCollision(hash, a, b) && Chained(hash, a) && Chained(hash, b)
    requires k < |a| && k < |b| && LastHash(a) == LastHash(b)
    requires |a| == |b| || (k + 1 < |a| && k + 1 < |b|)
    ensures a[|a| - 1 - k] == b[|b| - 1 - k]
  {
    if a[|a| - 1 - k] != b[|b| - 1 - k] {
      var m := DifferenceIsCollision(hash, a, b, k);
    }
  }

  /** Changing an accepted log, but not its length and last hash, takes two rows with different texts and one hash. */
  lemma TamperingTakesCollision(hash: string -> string, a: seq<Row>, b: seq<Row>) returns (i: nat)
    requires HexHash(hash) && Chained(hash, ReadAll(a)) && Chained(hash, ReadAll(b))
    requires |a| == |b| && (a != [] ==> a[|a| - 1].hash == b[|b| - 1].hash) && ReadAll(a) != ReadAll(b)
    ensures i < |a| && Collide(hash, ReadAll(a)[i], ReadAll(b)[i])
  {
    LastHashOfRows(a);
    LastHashOfRows(b);
    i := DifferentItems(hash, ReadAll(a), ReadAll(b));
  }

  lemma LastHashOfRows(rows: seq<Row>)
    ensures LastHash(ReadAll(rows)) == if rows == [] then "" else rows[|rows| - 1].hash
  {
  }

  lemma DifferentItems(hash: string -> string, a: seq<Item>, b: seq<Item>) returns (i: nat)
    requires HexHash(hash) && Chained(hash, a) && Chained(hash, b)
    requires |a| == |b| && LastHash(a) == LastHash(b) && a != b
    ensures i < |a| && Collide(hash, a[i], b[i])
  {
    var j :| 0 <= j < |a| && a[j] != b[j];
    var m := DifferenceIsCollision(hash, a, b, |a| - 1 - j);
    i := |a| - 1 - m;
  }

  /** Two accepted logs of equal length with one last hash agree on the hashed columns and the link of every row. */
  lemma TamperEvident(hash: string -> string, a: seq<Row>, b: seq<Row>)
    requires HexHash(hash) && Chained(hash, ReadAll(a)) && Chained(hash, ReadAll(b))
    requires NoCollision(hash, ReadAll(a), ReadAll(b))
    requires |a| == |b| && (a != [] ==> a[|a| - 1].hash == b[|b| - 1].hash)
    ensures ReadAll(a) == ReadAll(b)
  {
    LastHashOfRows(a);
    LastHashOfRows(b);
    SameItems(hash, ReadAll(a), ReadAll(b));
  }

  lemma SameItems(hash: string -> string, a: seq<Item>, b: seq<Item>)
    requires HexHash(hash) && Chained(hash, a) && Chained(hash, b) && NoCollision(hash, a, b)
    requires |a| == |b| && LastHash(a) == LastHash(b)
    ensures a == b
  {
    if a != b {
      var i := DifferentItems(hash, a, b);
    }
  }

  function Repeated(c: char): string {
    seq(64, _ => c)
  }

  function SampleHash(x: string): string {
    Repeated(if x == "anullnull" then 'a' else 'b')
  }

  function SampleRow(timestamp: string, hash: string, previous: Option<string>): Row {
    Row(timestamp, "", "", "", "", "", None, None, hash, previous)
  }

  /** The hypotheses can be met: a hash of 64 characters and an accepted log of two rows that do not collide. */
  lemma HypothesesHold() returns (hash: string -> string, rows: seq<Row>)
    ensures HexHash(hash) && Chained(hash, ReadAll(rows)) && NoCollision(hash, ReadAll(rows), ReadAll(rows))
    ensures |rows| == 2 && Read(rows[0]) != Read(rows[1])
  {
    hash := SampleHash;
    var first, second := SampleRow("a", Repeated('a'), None), SampleRow("b", Repeated('b'), Some(Repeated('a')));
    rows := [first, second];
    var x, y := Read(first), Read(second);
    assert Hashed(x) == "anullnull" && |Hashed(y)| == 73;
    assert hash(Hashed(x)) == Repeated('a') && hash(Hashed(y)) == Repeated('b');
    assert Repeated('a')[0] != Repeated('b')[0];
    var items := ReadAll(rows);
    assert items[..1] == [] + [x] && items == [x] + [y];
    ChainedGrows(hash, [], x);
    ChainedGrows(hash, [x], y);
  }

  // ---- Columns ----

  /** The text of a JSON column: nothing, NULL and "null" read alike. */
  function Json(v: Option<string>): string {
    if v == None || v == Some("") then "null" else v.value
  }

  /** Texts that agree before and after a part agree on it. */
  lemma SamePart(p: string, x: string, y: string, q: string)
    requires p + x + q == p + y + q
    ensures x == y
  {
    assert |x| == |y|;
    assert (p + x + q)[|p|..|p| + |x|] == x && (p + y + q)[|p|..|p| + |y|] == y;
  }

  lemma Regroup(x: string, a: string, b: string)
    ensures x + a + b == x + (a + b)
  {
  }

  lemma RegroupAll(x: string, a: string, b: string, c: string, d: string, e: string, f: string, g: string)
    ensures x + a + b + c + d + e + f + g == "" + x + (a + b + c + d + e + f + g)
  {
    Regroup(x, a, b);
    Regroup(x, a + b, c);
    Regroup(x, a + b + c, d);
    Regroup(x, a + b + c + d, e);
    Regroup(x, a + b + c + d + e, f);
    Regroup(x, a + b + c + d + e + f, g);
    assert "" + x == x;
  }

  lemma TimestampCounts(r: Row, v: string)
    requires Read(r.(timestamp := v)) == Read(r)
    ensures v == r.timestamp
  {
    RegroupAll(r.timestamp, r.actor, r.operation, r.resource, r.result, r.correlation, Json(r.before), Json(r.after));
    RegroupAll(v, r.actor, r.operation, r.resource, r.result, r.correlation, Json(r.before), Json(r.after));
    SamePart("", v, r.timestamp, r.actor + r.operation + r.resource + r.result + r.correlation + Json(r.before) + Json(r.after));
  }

  lemma ActorCounts(r: Row, v: string)
    requires Read(r.(actor := v)) == Read(r)
    ensures v == r.actor
  {
    var p, q := r.timestamp, r.operation + r.resource + r.result + r.correlation + Json(r.before) + Json(r.after);
    assert Read(r).fields == p + r.actor + q && Read(r.(actor := v)).fields == p + v + q;
    SamePart(p, v, r.actor, q);
  }

  lemma OperationCounts(r: Row, v: string)
    requires Read(r.(operation := v)) == Read(r)
    ensures v == r.operation
  {
    var p, q := r.timestamp + r.actor, r.resource + r.result + r.correlation + Json(r.before) + Json(r.after);
    assert Read(r).fields == p + r.operation + q && Read(r.(operation := v)).fields == p + v + q;
    SamePart(p, v, r.operation, q);
  }

  lemma ResourceCounts(r: Row, v: string)
    requires Read(r.(resource := v)) == Read(r)
    ensures v == r.resource
  {
    var p, q := r.timestamp + r.actor + r.operation, r.result + r.correlation + Json(r.before) + Json(r.after);
    assert Read(r).fields == p + r.resource + q && Read(r.(resource := v)).fields == p + v + q;
    SamePart(p, v, r.resource, q);
  }

  lemma ResultCounts(r: Row, v: string)
    requires Read(r.(result := v)) == Read(r)
    ensures v == r.result
  {
    var p, q := r.timestamp + r.actor + r.operation + r.resource, r.correlation + Json(r.before) + Json(r.after);
    assert Read(r).fields == p + r.result + q && Read(r.(result := v)).fields == p + v + q;
    SamePart(p, v, r.result, q);
  }

  lemma CorrelationCounts(r: Row, v: string)
    requires Read(r.(correlation := v)) == Read(r)
    ensures v == r.correlation
  {
    var p, q := r.timestamp + r.actor + r.operation + r.resource + r.result, Json(r.before) + Json(r.after);
    assert Read(r).fields == p + r.correlation + q && Read(r.(correlation := v)).fields == p + v + q;
    SamePart(p, v, r.correlation, q);
  }

  lemma BeforeCounts(r: Row, v: Option<string>)
    requires Read(r.(before := v)) == Read(r)
    ensures Json(v) == Json(r.before)
  {
    var p, q := r.timestamp + r.actor + r.operation + r.resource + r.result + r.correlation, Json(r.after);
    assert Read(r).fields == p + Json(r.before) + q && Read(r.(before := v)).fields == p + Json(v) + q;
    SamePart(p, Json(v), Json(r.before), q);
  }

  lemma AfterCounts(r: Row, v: Option<string>)
    requires Read(r.(after := v)) == Read(r)
    ensures Json(v) == Json(r.after)
  {
    var p, q := r.timestamp + r.actor + r.operation + r.resource + r.result + r.correlation + Json(r.before), "";
    assert Read(r).fields == p + Json(r.after) + q && Read(r.(after := v)).fields == p + Json(v) + q;
    SamePart(p, Json(v), Json(r.after), q);
  }

  /** `s` is `r` with another value in exactly one of the eight hashed columns. */
  predicate OneColumnChanged(r: Row, s: Row) {
    || (s == r.(timestamp := s.timestamp) && s.timestamp != r.timestamp)
    || (s == r.(actor := s.actor) && s.actor != r.actor)
    || (s == r.(operation := s.operation) && s.operation != r.operation)
    || (s == r.(resource := s.resource) && s.resource != r.resource)
    || (s == r.(result := s.result) && s.result != r.result)
    || (s == r.(correlation := s.correlation) && s.correlation != r.correlation)
    || (s == r.(before := s.before) && Json(s.before) != Json(r.before))
    || (s == r.(after := s.after) && Json(s.after) != Json(r.after))
  }

  /** Such a row does not read the same. */
  lemma ColumnsCount(r: Row, s: Row)
    requires OneColumnChanged(r, s)
    ensures Read(s) != Read(r) && Read(s).link == Read(r).link && Read(s).hash == Read(r).hash
  {
    if Read(s) == Read(r) {
      if s.timestamp != r.timestamp {
        TimestampCounts(r, s.timestamp);
      } else if s.actor != r.actor {
        ActorCounts(r, s.actor);
      } else if s.operation != r.operation {
        OperationCounts(r, s.operation);
      } else if s.resource != r.resource {
        ResourceCounts(r, s.resource);
      } else if s.result != r.result {
        ResultCounts(r, s.result);
      } else if s.correlation != r.correlation {
        CorrelationCounts(r, s.correlation);
      } else if Json(s.before) != Json(r.before) {
        BeforeCounts(r, s.before);
      } else {
        AfterCounts(r, s.after);
      }
    }
  }

  lemma ChangedItemRejected(hash: string -> string, items: seq<Item>, i: nat, item: Item)
    requires HexHash(hash) && Chained(hash, items) && i < |items|
    requires item != items[i] && item.link == items[i].link && item.hash == items[i].hash
    ensures Chained(hash, items[i := item]) ==> Collide(hash, items[i], item)
  {
    if Chained(hash, items[i := item]) {
      ChainedAt(hash, items, i);
      ChainedAt(hash, items[i := item], i);
      SameHash(hash, items[i], item);
    }
  }

  /** The case of a stored hash does not matter to its own check. */
  lemma HashCaseIgnored(hash: string -> string, item: Item, i: nat)
    requires i < |item.hash| && 'A' <= item.hash[i] <= 'Z'
    ensures HashOk(hash, item) <==> HashOk(hash, item.(hash := item.hash[i := item.hash[i] - 'A' + 'a']))
  {
    var lower, h := item.hash[i := item.hash[i] - 'A' + 'a'], hash(Hashed(item));
    assert Hashed(item.(hash := lower)) == Hashed(item);
    assert forall j :: 0 <= j < |lower| ==> Fold(lower[j]) == Fold(item.hash[j]);
  }

  /** An accepted log with one hashed column of one row changed is rejected, unless the change yields a collision. */
  lemma ColumnChangeRejected(hash: string -> string, rows: seq<Row>, i: nat, row: Row)
    requires HexHash(hash) && Chained(hash, ReadAll(rows)) && i < |rows| && OneColumnChanged(rows[i], row)
    ensures Chained(hash, ReadAll(rows[i := row])) ==> Collide(hash, ReadAll(rows)[i], Read(row))
  {
    ColumnsCount(rows[i], row);
    assert ReadAll(rows[i := row]) == ReadAll(rows)[i := Read(row)];
    ChangedItemRejected(hash, ReadAll(rows), i, Read(row));
  }

  /** One with the link of a row changed is rejected outright. */
  lemma LinkChangeRejected(hash: string -> string, rows: seq<Row>, i: nat, row: Row)
    requires Chained(hash, ReadAll(rows)) && i < |rows| && Coalesce(row.previous) != Coalesce(rows[i].previous)
    ensures !Chained(hash, ReadAll(rows[i := row]))
  {
    var items, changed := ReadAll(rows), ReadAll(rows[i := row]);
    ChainedAt(hash, items, i);
    if Chained(hash, changed) {
      ChainedAt(hash, changed, i);
    }
  }
}
