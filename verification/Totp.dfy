/**
 Time-based codes: the dynamic truncation of section 5.3 of RFC 4226 and the time steps of
 section 4.2 of RFC 6238, with the keyed digest left uninterpreted.
 */
module Totp {
  import opened Text

  type Byte = b: int | 0 <= b < 256

  const PERIOD: int := 30
  const NANOS: int := 1_000_000_000
  const STEP: int := PERIOD * NANOS

  function Pow2(k: nat): (p: nat)
    ensures p >= 1
  {
    if k == 0 then 1 else 2 * Pow2(k - 1)
  }

  /** Bitwise `a & b`. */
  function And(a: nat, b: nat): nat {
    if a == 0 || b == 0 then 0 else 2 * And(a / 2, b / 2) + (if a % 2 == 1 && b % 2 == 1 then 1 else 0)
  }

  /** Bitwise `a | b`. */
  function Or(a: nat, b: nat): nat {
    if a == 0 then b else if b == 0 then a else 2 * Or(a / 2, b / 2) + (if a % 2 == 1 || b % 2 == 1 then 1 else 0)
  }

  /** `a << k` on numbers wide enough not to lose bits. */
  function ShiftLeft(a: nat, k: nat): nat {
    if k == 0 then a else 2 * ShiftLeft(a, k - 1)
  }

  function LowBits(a: nat, k: nat): nat {
    if k == 0 then 0 else 2 * LowBits(a / 2, k - 1) + a % 2
  }

  /** A mask of `k` ones keeps the low `k` bits. */
  lemma {:induction false} AndMask(a: nat, k: nat)
    ensures And(a, Pow2(k) - 1) == LowBits(a, k)
  {
    if k > 0 {
      AndMask(a / 2, k - 1);
      assert (Pow2(k) - 1) / 2 == Pow2(k - 1) - 1;
    }
  }

  /** An or with bits below a shifted number adds them. */
  lemma {:induction false} OrAdds(a: nat, b: nat, k: nat)
    requires b < Pow2(k)
    ensures Or(ShiftLeft(a, k), b) == ShiftLeft(a, k) + b
  {
    if k > 0 {
      OrAdds(a, b / 2, k - 1);
    }
  }

  lemma {:induction false} ShiftSum(a: nat, b: nat, k: nat)
    ensures ShiftLeft(a, k) + ShiftLeft(b, k) == ShiftLeft(a + b, k)
  {
    if k > 0 {
      ShiftSum(a, b, k - 1);
    }
  }

  lemma {:induction false} ShiftIsProduct(a: nat, k: nat)
    ensures ShiftLeft(a, k) == Pow2(k) * a
  {
    if k > 0 {
      ShiftIsProduct(a, k - 1);
      assert Pow2(k) * a == 2 * (Pow2(k - 1) * a);
    }
  }

  lemma {:induction false} ShiftByte(a: nat, k: nat)
    ensures ShiftLeft(a, k + 8) == ShiftLeft(256 * a, k)
    ensures Pow2(k + 8) == ShiftLeft(256, k)
  {
    if k > 0 {
      ShiftByte(a, k - 1);
    } else {
      ShiftIsProduct(a, 8);
      assert Pow2(8) == 256;
    }
  }

  lemma {:induction false} ShiftGrows(a: nat, b: nat, k: nat)
    requires a < b
    ensures ShiftLeft(a, k) < ShiftLeft(b, k)
  {
    if k > 0 {
      ShiftGrows(a, b, k - 1);
    }
  }

  /** Putting a byte below a number. */
  lemma OrByte(a: nat, b: Byte, k: nat)
    ensures Or(ShiftLeft(a, k + 8), ShiftLeft(b, k)) == ShiftLeft(256 * a + b, k)
  {
    ShiftByte(a, k);
    ShiftGrows(b, 256, k);
    OrAdds(a, ShiftLeft(b, k), k + 8);
    ShiftSum(256 * a, b, k);
  }

  /** The number a sequence of bytes denotes, most significant first. */
  function BigEndian(bytes: seq<Byte>): nat {
    if bytes == [] then 0 else 256 * BigEndian(bytes[..|bytes| - 1]) + bytes[|bytes| - 1]
  }

  function Offset(digest: seq<Byte>): nat
    requires |digest| == 20
  {
    And(digest[|digest| - 1], 0x0f)
  }

  /** The shifts and ors of `totpCode` on four bytes. */
  function Combined(b0: Byte, b1: Byte, b2: Byte, b3: Byte): nat {
    Or(Or(Or(ShiftLeft(And(b0, 0x7f), 24), ShiftLeft(b1, 16)), ShiftLeft(b2, 8)), b3)
  }

  function HighBits(a: nat, k: nat): nat {
    if k == 0 then a else HighBits(a / 2, k - 1)
  }

  lemma {:induction false} SplitBits(a: nat, k: nat)
    ensures a == ShiftLeft(HighBits(a, k), k) + LowBits(a, k) && LowBits(a, k) < Pow2(k)
  {
    if k > 0 {
      SplitBits(a / 2, k - 1);
    }
  }

  lemma SplitMask(a: nat, k: nat, m: nat) returns (high: nat)
    requires m == Pow2(k)
    ensures a == m * high + And(a, m - 1) && And(a, m - 1) < m
  {
    high := HighBits(a, k);
    AndMask(a, k);
    SplitBits(a, k);
    ShiftIsProduct(high, k);
  }

  lemma Masks(a: nat)
    ensures And(a, 0x0f) == a % 16 && And(a, 0x7f) == a % 128
  {
    var high := SplitMask(a, 4, 16);
    Remainders(high, And(a, 0x0f));
    high := SplitMask(a, 7, 128);
    Remainders(high, And(a, 0x7f));
  }

  lemma Remainders(high: nat, low: nat)
    ensures low < 16 ==> (16 * high + low) % 16 == low
    ensures low < 128 ==> (128 * high + low) % 128 == low
  {
  }

  /** The offset leaves four bytes inside a 20-byte digest. */
  lemma OffsetInBounds(digest: seq<Byte>)
    requires |digest| == 20
    ensures Offset(digest) == digest[19] % 16
    ensures Offset(digest) + 3 < 19
  {
    Masks(digest[19]);
  }

  lemma OrBytes(a: nat, b: Byte, c: Byte, d: Byte, i: nat, j: nat, k: nat)
    requires i == j + 8 && j == k + 8 && k == 8
    ensures Or(Or(Or(ShiftLeft(a, i), ShiftLeft(b, j)), ShiftLeft(c, k)), d) == 256 * (256 * (256 * a + b) + c) + d
  {
    OrByte(a, b, j);
    OrByte(256 * a + b, c, k);
    OrByte(256 * (256 * a + b) + c, d, 0);
  }

  lemma CombinedValue(b0: Byte, b1: Byte, b2: Byte, b3: Byte)
    ensures Combined(b0, b1, b2, b3) == 256 * (256 * (256 * (b0 % 128) + b1) + b2) + b3
  {
    Masks(b0);
    OrBytes(b0 % 128, b1, b2, b3, 24, 16, 8);
  }

  /** The truncated digest, in the bytes the offset selects. */
  function Truncated(digest: seq<Byte>): (v: nat)
    requires |digest| == 20
    ensures v < 0x8000_0000
  {
    OffsetInBounds(digest);
    var o := Offset(digest);
    CombinedValue(digest[o], digest[o + 1], digest[o + 2], digest[o + 3]);
    Combined(digest[o], digest[o + 1], digest[o + 2], digest[o + 3])
  }

  lemma Low31Bits(b0: int, b1: Byte, b2: Byte, b3: Byte)
    ensures (256 * (256 * (256 * b0 + b1) + b2) + b3) % 0x8000_0000 == 256 * (256 * (256 * (b0 % 128) + b1) + b2) + b3
  {
    assert b0 == 128 * (b0 / 128) + b0 % 128;
  }

  lemma FourBytes(w: seq<Byte>)
    requires |w| == 4
    ensures BigEndian(w) == 256 * (256 * (256 * (w[0] as int) + w[1]) + w[2]) + w[3]
  {
    assert w[..3][..2] == w[..2] && w[..2][..1] == w[..1] && w[..1][..0] == [];
    assert BigEndian(w[..1]) == w[0];
    assert BigEndian(w[..2]) == 256 * BigEndian(w[..1]) + w[1];
    assert BigEndian(w[..3]) == 256 * BigEndian(w[..2]) + w[2];
  }

  /** Dynamic truncation as the standard words it: the low 31 bits of the four bytes at the offset. */
  lemma TruncatedIsLow31Bits(digest: seq<Byte>)
    requires |digest| == 20
    ensures var o := digest[19] % 16; Truncated(digest) == BigEndian(digest[o..o + 4]) % 0x8000_0000
  {
    OffsetInBounds(digest);
    var o := Offset(digest);
    var w := digest[o..o + 4];
    CombinedValue(w[0], w[1], w[2], w[3]);
    FourBytes(w);
    Low31Bits(w[0], w[1], w[2], w[3]);
  }

  function Zeros(n: nat): string {
    seq(n, _ => '0')
  }

  /** `fmt.Sprintf("%06d", v)`. */
  function Padded(v: nat): string {
    var d := Decimal(v);
    if |d| < 6 then Zeros(6 - |d|) + d else d
  }

  /** Padding a numeral with zeros gives its low digits at that width. */
  lemma {:induction false} PaddedDigits(v: nat, w: nat)
    requires 1 <= w && v < Pow10(w)
    ensures |Decimal(v)| <= w && Digits(v, w) == Zeros(w - |Decimal(v)|) + Decimal(v)
  {
    if v >= 10 {
      PaddedDigits(v / 10, w - 1);
    } else {
      DigitsOfZero(w - 1);
      assert v / 10 == 0 && Digits(0, w - 1) == Zeros(w - 1);
    }
  }

  lemma SixDigits(v: nat)
    ensures Padded(v % 1_000_000) == Digits(v % 1_000_000, 6)
  {
    assert Pow10(6) == 1_000_000;
    PaddedDigits(v % 1_000_000, 6);
  }

  /** `time.Unix()` of an instant in nanoseconds. */
  function Unix(t: int): int {
    t / NANOS
  }

  /** Division that truncates toward zero. */
  function Quotient(a: int, b: int): int
    requires b > 0
  {
    if a >= 0 then a / b else -(-a / b)
  }

  /** The time step of an instant. */
  function Counter(t: int): int {
    Quotient(Unix(t), PERIOD)
  }

  function Bytes(u: nat, n: nat): (bytes: seq<Byte>)
    ensures |bytes| == n
  {
    if n == 0 then [] else Bytes(u / 256, n - 1) + [u % 256]
  }

  /** `PutUint64` of a counter as an unsigned 64-bit number. */
  function CounterBytes(counter: int): (bytes: seq<Byte>)
    ensures |bytes| == 8
  {
    Bytes(counter % 0x1_0000_0000_0000_0000, 8)
  }

  lemma {:induction false} BytesRoundTrip(u: nat, n: nat)
    requires u < Pow2(8 * n)
    ensures BigEndian(Bytes(u, n)) == u
  {
    if n > 0 {
      ShiftByte(0, 8 * (n - 1));
      ShiftIsProduct(256, 8 * (n - 1));
      BytesRoundTrip(u / 256, n - 1);
      assert Bytes(u, n)[..n - 1] == Bytes(u / 256, n - 1);
    }
  }

  /** The eight bytes are the counter modulo two to the 64, so counters within that range keep apart. */
  lemma CounterBytesRoundTrip(counter: int)
    ensures BigEndian(CounterBytes(counter)) == counter % 0x1_0000_0000_0000_0000
  {
    assert Pow2(8) == 0x100;
    assert Pow2(16) == 0x1_0000;
    assert Pow2(24) == 0x100_0000;
    assert Pow2(32) == 0x1_0000_0000;
    assert Pow2(40) == 0x100_0000_0000;
    assert Pow2(48) == 0x1_0000_0000_0000;
    assert Pow2(56) == 0x100_0000_0000_0000;
    assert Pow2(64) == 0x1_0000_0000_0000_0000;
    BytesRoundTrip(counter % 0x1_0000_0000_0000_0000, 8);
  }

  type Mac = (seq<Byte>, seq<Byte>) -> seq<Byte>

  ghost predicate IsSha1Mac(mac: Mac) {
    forall key, text :: |mac(key, text)| == 20
  }

  predicate UsableKey(key: Option<seq<Byte>>) {
    key.Some? && |key.value| >= 16
  }

  /** The code of one time step. */
  ghost function Code(mac: Mac, key: seq<Byte>, counter: int): (code: string)
    requires IsSha1Mac(mac)
    ensures |code| == 6 && AllDigits(code)
  {
    Digits(Truncated(mac(key, CounterBytes(counter))) % 1_000_000, 6)
  }

  /**
    * The code is made from the digest of the counter's eight bytes: the low 31 bits at the offset in its last
    * byte, in six decimal digits.
    */
  lemma CodeOfCounter(mac: Mac, key: seq<Byte>, counter: int) returns (text: seq<Byte>)
    requires IsSha1Mac(mac)
    ensures |text| == 8 && BigEndian(text) == counter % 0x1_0000_0000_0000_0000
    ensures var digest := mac(key, text);
            var o := digest[19] % 16;
            Code(mac, key, counter) == Digits(BigEndian(digest[o..o + 4]) % 0x8000_0000 % 1_000_000, 6)
  {
    text := CounterBytes(counter);
    CounterBytesRoundTrip(counter);
    TruncatedIsLow31Bits(mac(key, text));
  }

  /** From the epoch on, the counter numbers the periods. */
  lemma CounterNumbersPeriods(t: int)
    requires t >= 0
    ensures Counter(t) * STEP <= t < (Counter(t) + 1) * STEP
  {
  }

  /** `totpCode`; `key` is the decoded secret, absent if it does not decode. */
  method TotpCode(mac: Mac, key: Option<seq<Byte>>, at: int) returns (code: Option<string>)
    requires IsSha1Mac(mac)
    ensures code == if UsableKey(key) then Some(Code(mac, key.value, Counter(at))) else None
  {
    if !UsableKey(key) {
      return None;
    }
    var sum := mac(key.value, CounterBytes(Counter(at)));
    var value := Truncated(sum);
    SixDigits(value);
    return Some(Padded(value % 1_000_000));
  }

  method SixDigitText(code: string) returns (ok: bool)
    ensures ok <==> |code| == 6 && AllDigits(code)
  {
    if |code| != 6 {
      return false;
    }
    for i := 0 to |code|
      invariant forall j :: 0 <= j < i ==> IsDigit(code[j])
    {
      if code[i] < '0' || code[i] > '9' {
        return false;
      }
    }
    return true;
  }

  /** The instant `k` periods from now. */
  function Periods(now: int, k: int): int {
    now + k * STEP
  }

  /** The code the service expects `k` periods from now. */
  ghost function Expected(mac: Mac, key: Option<seq<Byte>>, now: int, k: int): Option<string>
    requires IsSha1Mac(mac)
  {
    if UsableKey(key) then Some(Code(mac, key.value, Counter(Periods(now, k)))) else None
  }

  method MatchesNearby(mac: Mac, key: Option<seq<Byte>>, code: string, now: int) returns (ok: bool)
    requires IsSha1Mac(mac)
    ensures ok <==> exists k :: -1 <= k <= 1 && Expected(mac, key, now, k) == Some(code)
  {
    var offset := -1;
    while offset <= 1
      invariant -1 <= offset <= 2
      invariant forall k :: -1 <= k < offset ==> Expected(mac, key, now, k) != Some(code)
    {
      var expected := TotpCode(mac, key, Periods(now, offset));
      assert expected == Expected(mac, key, now, offset);
      if expected == Some(code) {
        return true;
      }
      offset := offset + 1;
    }
    return false;
  }

  /** A code is accepted exactly when it is the code of the step now, one period earlier or one later. */
  method ValidTotp(mac: Mac, key: Option<seq<Byte>>, code: string, now: int) returns (ok: bool)
    requires IsSha1Mac(mac)
    ensures ok <==> exists k :: -1 <= k <= 1 && Expected(mac, key, now, k) == Some(code)
  {
    ok := SixDigitText(code);
    if ok {
      ok := MatchesNearby(mac, key, code, now);
    }
  }

  /** One period is one step away from the epoch; around it truncation makes two steps share number zero. */
  lemma NeighbouringCounters(now: int)
    ensures (Counter(Periods(now, -1)) == Counter(now) - 1 && Counter(Periods(now, 1)) == Counter(now) + 1)
            <==> Unix(now) >= PERIOD || Unix(now) <= -PERIOD || Unix(now) == 0
  {
  }

  /** A step number within one period of now is among the three that are tried. */
  lemma CountersNear(t: int, now: int) returns (k: int)
    requires now - STEP <= t <= now + STEP
    ensures -1 <= k <= 1 && Counter(Periods(now, k)) == Counter(t)
  {
    var c, d := Counter(now), Counter(t);
    k := if d == c then 0 else if d < c then -1 else 1;
  }

  /** A code issued at `t` is among those accepted whenever the clocks differ by at most one period. */
  lemma IssuedCodeAccepted(mac: Mac, key: Option<seq<Byte>>, t: int, now: int)
    requires IsSha1Mac(mac) && now - STEP <= t <= now + STEP
    ensures exists k :: -1 <= k <= 1 && Expected(mac, key, now, k) == Expected(mac, key, t, 0)
  {
    var k := CountersNear(t, now);
    assert Expected(mac, key, now, k) == Expected(mac, key, t, 0);
  }
}
