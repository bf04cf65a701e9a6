/** Text shared by several components: byte order on ASCII text and decimal numerals. */
module Text {

  datatype Option<+T> = None | Some(value: T)

  /** SQLite's BINARY collation on text: byte by byte, a proper prefix first. */
  predicate Less(a: string, b: string) {
    b != "" && (a == "" || a[0] < b[0] || (a[0] == b[0] && Less(a[1..], b[1..])))
  }

  predicate IsDigit(c: char) {
    '0' <= c <= '9'
  }

  predicate AllDigits(s: string) {
    forall i :: 0 <= i < |s| ==> IsDigit(s[i])
  }

  predicate IsPrefix(a: string, b: string) {
    |a| <= |b| && b[..|a|] == a
  }

  function Pow10(w: nat): (p: nat)
    ensures p >= 1
  {
    if w == 0 then 1 else 10 * Pow10(w - 1)
  }

  /** The low `w` decimal digits of `n`, zero padded. */
  function Digits(n: nat, w: nat): (s: string)
    ensures |s| == w
    ensures AllDigits(s)
  {
    if w == 0 then "" else Digits(n / 10, w - 1) + ['0' + (n % 10) as char]
  }

  lemma {:induction false} DigitsOfZero(w: nat)
    ensures forall i :: 0 <= i < w ==> Digits(0, w)[i] == '0'
  {
    if w > 0 {
      DigitsOfZero(w - 1);
    }
  }

  lemma {:induction false} LessIrreflexive(a: string)
    ensures !Less(a, a)
  {
    if a != "" {
      LessIrreflexive(a[1..]);
    }
  }

  /** Blocks of equal width compare before what follows them. */
  lemma {:induction false} LessBlocks(a: string, b: string, u: string, v: string)
    requires |a| == |b|
    ensures Less(a + u, b + v) <==> Less(a, b) || (a == b && Less(u, v))
  {
    if a == "" {
      assert a + u == u && b + v == v;
    } else {
      assert (a + u)[1..] == a[1..] + u && (b + v)[1..] == b[1..] + v;
      assert a == [a[0]] + a[1..] && b == [b[0]] + b[1..];
      LessBlocks(a[1..], b[1..], u, v);
      LessIrreflexive(a[1..]);
    }
  }

  /** When neither text is a prefix of the other, what follows does not matter. */
  lemma {:induction false} LessBeforeEnd(a: string, b: string, u: string, v: string)
    requires !IsPrefix(a, b) && !IsPrefix(b, a)
    ensures Less(a + u, b + v) <==> Less(a, b)
  {
    assert a != "" && b != "";
    assert (a + u)[1..] == a[1..] + u && (b + v)[1..] == b[1..] + v;
    if a[0] == b[0] {
      assert a == [a[0]] + a[1..] && b == [b[0]] + b[1..];
      LessBeforeEnd(a[1..], b[1..], u, v);
    }
  }

  /** Fixed-width numerals compare as their numbers. */
  lemma {:induction false} DigitsOrder(a: nat, b: nat, w: nat)
    requires a < Pow10(w) && b < Pow10(w)
    ensures Less(Digits(a, w), Digits(b, w)) <==> a < b
    ensures Digits(a, w) == Digits(b, w) <==> a == b
  {
    if w != 0 {
      DigitsOrder(a / 10, b / 10, w - 1);
      var x, y := Digits(a / 10, w - 1), Digits(b / 10, w - 1);
      var c, d := ['0' + (a % 10) as char], ['0' + (b % 10) as char];
      LessBlocks(x, y, c, d);
      assert Digits(a, w)[..w - 1] == x && Digits(b, w)[..w - 1] == y;
      assert Digits(a, w)[w - 1..] == c && Digits(b, w)[w - 1..] == d;
    }
  }

  /** `strconv.FormatUint(n, 10)`. */
  function Decimal(n: nat): (s: string)
    ensures s != "" && AllDigits(s)
  {
    if n < 10 then ['0' + n as char] else Decimal(n / 10) + ['0' + (n % 10) as char]
  }

  /** The number a digit string denotes. */
  function DecimalValue(s: string): nat
    requires AllDigits(s)
  {
    if s == "" then 0 else 10 * DecimalValue(s[..|s| - 1]) + (s[|s| - 1] - '0') as nat
  }

  lemma {:induction false} DecimalRoundTrip(n: nat)
    ensures DecimalValue(Decimal(n)) == n
  {
    if n >= 10 {
      DecimalRoundTrip(n / 10);
      assert Decimal(n)[..|Decimal(n)| - 1] == Decimal(n / 10);
    } else {
      assert Decimal(n)[..0] == "";
    }
  }

  /** `unicode.IsSpace`. */
  predicate IsSpace(c: char) {
    '\t' <= c <= '\r' || c == ' ' || c == '\U{85}' || c == '\U{A0}' || c == '\U{1680}' || '\U{2000}' <= c <= '\U{200A}'
    || c == '\U{2028}' || c == '\U{2029}' || c == '\U{202F}' || c == '\U{205F}' || c == '\U{3000}'
  }

  /** `strings.TrimSpace(s) == ""`. */
  predicate Blank(s: string) {
    forall i :: 0 <= i < |s| ==> IsSpace(s[i])
  }

  function TrimLeft(s: string): string {
    if s != "" && IsSpace(s[0]) then TrimLeft(s[1..]) else s
  }

  function TrimRight(s: string): string {
    if s != "" && IsSpace(s[|s| - 1]) then TrimRight(s[..|s| - 1]) else s
  }

  /** `strings.TrimSpace`. */
  function TrimSpace(s: string): string {
    TrimRight(TrimLeft(s))
  }

  lemma TrimSpaceUnchanged(s: string)
    requires s != "" && !IsSpace(s[0]) && !IsSpace(s[|s| - 1])
    ensures TrimSpace(s) == s
  {
  }

  /** What `TrimSpace` removes is blank. */
  lemma {:induction false} TrimLeftSplits(s: string) returns (left: string)
    ensures Blank(left) && s == left + TrimLeft(s)
  {
    left := "";
    if s != "" && IsSpace(s[0]) {
      var rest := TrimLeftSplits(s[1..]);
      left := [s[0]] + rest;
    }
  }

  lemma {:induction false} TrimRightSplits(s: string) returns (right: string)
    ensures Blank(right) && s == TrimRight(s) + right
  {
    right := "";
    if s != "" && IsSpace(s[|s| - 1]) {
      var rest := TrimRightSplits(s[..|s| - 1]);
      right := rest + [s[|s| - 1]];
    }
  }

  lemma TrimSpaceSplits(s: string) returns (left: string, right: string)
    ensures Blank(left) && Blank(right) && s == left + TrimSpace(s) + right
  {
    left := TrimLeftSplits(s);
    right := TrimRightSplits(TrimLeft(s));
  }

  lemma {:induction false} BlankTrimsToNothing(s: string)
    requires Blank(s)
    ensures TrimSpace(s) == ""
  {
    if s != "" {
      BlankTrimsToNothing(s[1..]);
    }
  }

  predicate OneLine(s: string) {
    '\n' !in s
  }

  /** A newline-free first line can be read back from what it is joined to. */
  lemma FirstLine(a: string, u: string, b: string, v: string)
    requires OneLine(a) && OneLine(b) && a + "\n" + u == b + "\n" + v
    ensures a == b && u == v
  {
    var s := a + "\n" + u;
    assert s[|a|] == '\n' && s[|b|] == '\n';
    assert |a| == |b|;
    assert a == s[..|a|] && b == s[..|b|] && u == s[|a| + 1..] && v == s[|b| + 1..];
  }

  /** So can a newline-free last line. */
  lemma LastLine(u: string, a: string, v: string, b: string)
    requires OneLine(a) && OneLine(b) && u + "\n" + a == v + "\n" + b
    ensures a == b && u == v
  {
    var s := u + "\n" + a;
    assert s[|u|] == '\n' && s[|v|] == '\n';
    assert |u| == |v|;
    assert u == s[..|u|] && v == s[..|v|] && a == s[|u| + 1..] && b == s[|v| + 1..];
  }
}
