/**
 Times are stored as UTC RFC3339Nano text, whose fraction drops trailing zeros, and every SQL
 expiry test compares that text byte by byte. This module says exactly when that order is the
 order of time.
 */
module Timestamps {
  import opened Text

  const SECOND: int := 1_000_000_000
  const MINUTE: int := 60 * SECOND
  const HOUR: int := 60 * MINUTE

  /** Nanoseconds since 0000-01-01T00:00:00Z, for ten thousand times 365 days (into the year 9993). */
  const LIMIT: int := 3_650_000 * 24 * HOUR
  type Instant = t: int | 0 <= t < LIMIT

  datatype Civil = Civil(year: nat, month: nat, day: nat, hour: nat, minute: nat, second: nat, nanos: nat)

  predicate Leap(y: nat) {
    y % 4 == 0 && (y % 100 != 0 || y % 400 == 0)
  }

  function DaysBeforeYear(y: nat): nat {
    if y == 0 then 0 else DaysBeforeYear(y - 1) + DaysBeforeMonth(y - 1, 13)
  }

  function DaysBeforeMonth(y: nat, m: nat): nat {
    (match m
     case 2 => 31 case 3 => 59 case 4 => 90 case 5 => 120 case 6 => 151 case 7 => 181 case 8 => 212
     case 9 => 243 case 10 => 273 case 11 => 304 case 12 => 334 case 13 => 365 case _ => 0)
    + if 3 <= m <= 13 && Leap(y) then 1 else 0
  }

  /** Calendar fields in range for the year and month. */
  predicate ValidCivil(c: Civil) {
    && c.year < 10_000
    && 1 <= c.month <= 12
    && 1 <= c.day <= DaysBeforeMonth(c.year, c.month + 1) - DaysBeforeMonth(c.year, c.month)
    && c.hour < 24 && c.minute < 60 && c.second < 60 && c.nanos < SECOND
  }

  function DayNumber(c: Civil): int {
    DaysBeforeYear(c.year) + DaysBeforeMonth(c.year, c.month) + c.day - 1
  }

  function SecondNumber(c: Civil): int {
    ((DayNumber(c) * 24 + c.hour) * 60 + c.minute) * 60 + c.second
  }

  lemma {:induction false} YearsAreLong(y: nat)
    ensures 365 * y <= DaysBeforeYear(y)
  {
    if y > 0 {
      YearsAreLong(y - 1);
    }
  }

  lemma {:induction false} YearsInOrder(a: nat, b: nat)
    requires a < b
    ensures DaysBeforeYear(a + 1) <= DaysBeforeYear(b)
  {
    if a + 1 < b {
      YearsInOrder(a, b - 1);
    }
  }

  function YearOf(day: nat, y: nat): (r: nat)
    requires DaysBeforeYear(y) <= day
    ensures DaysBeforeYear(r) <= day < DaysBeforeYear(r + 1)
    decreases day - DaysBeforeYear(y)
  {
    if day < DaysBeforeYear(y + 1) then y else YearOf(day, y + 1)
  }

  function MonthOf(y: nat, dayOfYear: nat, m: nat): (r: nat)
    requires 1 <= m <= 12 && DaysBeforeMonth(y, m) <= dayOfYear < DaysBeforeMonth(y, 13)
    ensures m <= r <= 12 && DaysBeforeMonth(y, r) <= dayOfYear < DaysBeforeMonth(y, r + 1)
    decreases 12 - m
  {
    if dayOfYear < DaysBeforeMonth(y, m + 1) then m else MonthOf(y, dayOfYear, m + 1)
  }

  lemma ClockParts(s: nat)
    ensures ((s / 86_400 * 24 + s / 3600 % 24) * 60 + s / 60 % 60) * 60 + s % 60 == s
  {
    assert s / 3600 == s / 60 / 60;
    assert s / 86_400 == s / 3600 / 24;
  }

  function DateIn(year: nat, dayOfYear: nat): (c: Civil)
    requires year < 10_000 && dayOfYear < DaysBeforeMonth(year, 13)
    ensures ValidCivil(c) && c.year == year && DaysBeforeMonth(year, c.month) + c.day - 1 == dayOfYear
  {
    var month := MonthOf(year, dayOfYear, 1);
    Civil(year, month, dayOfYear - DaysBeforeMonth(year, month) + 1, 0, 0, 0, 0)
  }

  /** The date of a day number, at midnight. */
  function DateOf(day: nat): (c: Civil)
    requires day < 3_650_000
    ensures ValidCivil(c) && DayNumber(c) == day
  {
    var year := YearOf(day, 0);
    YearsAreLong(year);
    DateIn(year, day - DaysBeforeYear(year))
  }

  /** The calendar reading of an instant; the contract makes it the inverse of the second count. */
  function CivilOf(t: Instant): (c: Civil)
    ensures ValidCivil(c)
    ensures SecondNumber(c) == t / SECOND && c.nanos == t % SECOND
  {
    var s := t / SECOND;
    var date := DateOf(s / 86_400);
    ClockParts(s);
    date.(hour := s / 3600 % 24, minute := s / 60 % 60, second := s % 60, nanos := t % SECOND)
  }

  function TrimZeros(s: string): (r: string)
    requires AllDigits(s)
    ensures AllDigits(r) && IsPrefix(r, s)
    ensures forall i :: |r| <= i < |s| ==> s[i] == '0'
    ensures r != "" ==> r[|r| - 1] != '0'
  {
    if s != "" && s[|s| - 1] == '0' then TrimZeros(s[..|s| - 1]) else s
  }

  /** The digits of the fraction, with trailing zeros dropped. */
  function Fraction(nanos: nat): (f: string)
    ensures AllDigits(f)
  {
    TrimZeros(Digits(nanos, 9))
  }

  function Suffix(nanos: nat): string {
    var f := Fraction(nanos);
    if f == "" then "Z" else "." + f + "Z"
  }

  function TimeText(c: Civil): string {
    Digits(c.hour, 2) + (":" + (Digits(c.minute, 2) + (":" + (Digits(c.second, 2) + Suffix(c.nanos)))))
  }

  function FormatCivil(c: Civil): string {
    Digits(c.year, 4) + ("-" + (Digits(c.month, 2) + ("-" + (Digits(c.day, 2) + ("T" + TimeText(c))))))
  }

  /** `time.Format(time.RFC3339Nano)` of a UTC time. */
  function Format(t: Instant): string {
    FormatCivil(CivilOf(t))
  }

  /** The layout of section 5.6 of RFC 3339: separators, and every field at its place; first the date, ... */
  lemma DateLayout(c: Civil)
    ensures var t := FormatCivil(c);
            && |t| >= 11 && t[4] == '-' && t[7] == '-' && t[10] == 'T' && t[11..] == TimeText(c)
            && t[..4] == Digits(c.year, 4) && t[5..7] == Digits(c.month, 2) && t[8..10] == Digits(c.day, 2)
  {
    JoinedParts(Digits(c.year, 4), Digits(c.month, 2), Digits(c.day, 2), TimeText(c));
  }

  lemma JoinedParts(y: string, m: string, d: string, u: string)
    requires |y| == 4 && |m| == 2 && |d| == 2
    ensures var t := y + ("-" + (m + ("-" + (d + ("T" + u)))));
            && |t| >= 11 && t[4] == '-' && t[7] == '-' && t[10] == 'T' && t[11..] == u
            && t[..4] == y && t[5..7] == m && t[8..10] == d
  {
  }

  /** ... then the time. */
  lemma TimeLayout(c: Civil)
    ensures var t := TimeText(c);
            && |t| >= 9 && t[2] == ':' && t[5] == ':' && t[|t| - 1] == 'Z'
            && t[..2] == Digits(c.hour, 2) && t[3..5] == Digits(c.minute, 2) && t[6..8] == Digits(c.second, 2)
            && (|t| > 9 ==> t[8] == '.' && t[9..|t| - 1] == Fraction(c.nanos))
  {
    assert TimeText(c)[8..] == Suffix(c.nanos);
  }

  /** The SQL test `a < b` on two stored times. */
  predicate StoredBefore(a: Instant, b: Instant) {
    Less(Format(a), Format(b))
  }

  predicate DateLess(a: Civil, b: Civil) {
    a.year < b.year || (a.year == b.year && (a.month < b.month || (a.month == b.month && a.day < b.day)))
  }

  predicate TimeLess(a: Civil, b: Civil) {
    a.hour < b.hour || (a.hour == b.hour && (a.minute < b.minute || (a.minute == b.minute && a.second < b.second)))
  }

  /** The order of calendar fields, most significant first. */
  predicate FieldsLess(a: Civil, b: Civil) {
    DateLess(a, b) || (!DateLess(b, a) && TimeLess(a, b))
  }

  lemma DaysInOrder(a: Civil, b: Civil)
    requires ValidCivil(a) && ValidCivil(b)
    requires DateLess(a, b)
    ensures DayNumber(a) < DayNumber(b)
  {
    if a.year < b.year {
      YearsInOrder(a.year, b.year);
    }
  }

  lemma FieldsInOrder(a: Civil, b: Civil)
    requires ValidCivil(a) && ValidCivil(b) && FieldsLess(a, b)
    ensures SecondNumber(a) < SecondNumber(b)
  {
    if DateLess(a, b) {
      DaysInOrder(a, b);
    }
  }

  lemma FieldStep(a: nat, b: nat, w: nat, u: string, v: string)
    requires a < Pow10(w) && b < Pow10(w)
    ensures Less(Digits(a, w) + u, Digits(b, w) + v) <==> a < b || (a == b && Less(u, v))
  {
    DigitsOrder(a, b, w);
    LessBlocks(Digits(a, w), Digits(b, w), u, v);
  }

  lemma SeparatorStep(s: string, u: string, v: string)
    requires |s| == 1
    ensures Less(s + u, s + v) <==> Less(u, v)
  {
    assert (s + u)[1..] == u && (s + v)[1..] == v;
  }

  lemma FieldThenSeparator(a: nat, b: nat, w: nat, s: string, u: string, v: string)
    requires a < Pow10(w) && b < Pow10(w) && |s| == 1
    ensures Less(Digits(a, w) + (s + u), Digits(b, w) + (s + v)) <==> a < b || (a == b && Less(u, v))
  {
    SeparatorStep(s, u, v);
    FieldStep(a, b, w, s + u, s + v);
  }

  lemma TimeOrder(a: Civil, b: Civil)
    requires ValidCivil(a) && ValidCivil(b)
    ensures Less(TimeText(a), TimeText(b)) <==>
            TimeLess(a, b) || (!TimeLess(b, a) && Less(Suffix(a.nanos), Suffix(b.nanos)))
  {
    assert Pow10(2) == 100;
    var a6, b6 := Digits(a.second, 2) + Suffix(a.nanos), Digits(b.second, 2) + Suffix(b.nanos);
    FieldStep(a.second, b.second, 2, Suffix(a.nanos), Suffix(b.nanos));
    FieldThenSeparator(a.minute, b.minute, 2, ":", a6, b6);
    FieldThenSeparator(a.hour, b.hour, 2, ":", Digits(a.minute, 2) + (":" + a6), Digits(b.minute, 2) + (":" + b6));
  }

  lemma DateOrder(a: Civil, b: Civil)
    requires ValidCivil(a) && ValidCivil(b)
    ensures Less(FormatCivil(a), FormatCivil(b)) <==>
            DateLess(a, b) || (!DateLess(b, a) && Less(TimeText(a), TimeText(b)))
  {
    assert Pow10(2) == 100 && Pow10(4) == 10_000;
    var a3, b3 := Digits(a.day, 2) + ("T" + TimeText(a)), Digits(b.day, 2) + ("T" + TimeText(b));
    FieldThenSeparator(a.day, b.day, 2, "T", TimeText(a), TimeText(b));
    FieldThenSeparator(a.month, b.month, 2, "-", a3, b3);
    FieldThenSeparator(a.year, b.year, 4, "-", Digits(a.month, 2) + ("-" + a3), Digits(b.month, 2) + ("-" + b3));
  }

  /** Formatted texts compare field by field and then by suffix. */
  lemma FormatOrder(a: Civil, b: Civil)
    requires ValidCivil(a) && ValidCivil(b)
    ensures Less(FormatCivil(a), FormatCivil(b)) <==>
            FieldsLess(a, b) || (!FieldsLess(b, a) && Less(Suffix(a.nanos), Suffix(b.nanos)))
  {
    DateOrder(a, b);
    TimeOrder(a, b);
  }

  /** Whenever the whole seconds differ, text order is time order. */
  lemma DifferentSeconds(a: Instant, b: Instant)
    requires a / SECOND != b / SECOND
    ensures StoredBefore(a, b) <==> a < b
  {
    var x, y := CivilOf(a), CivilOf(b);
    FormatOrder(x, y);
    if FieldsLess(x, y) {
      FieldsInOrder(x, y);
    } else if FieldsLess(y, x) {
      FieldsInOrder(y, x);
    }
  }

  /** No SQL expiry test is off by a second or more. */
  lemma StoredBeforeWithinASecond(a: Instant, b: Instant)
    ensures StoredBefore(a, b) ==> a < b + SECOND
    ensures !StoredBefore(a, b) ==> b < a + SECOND
  {
    if a / SECOND != b / SECOND {
      DifferentSeconds(a, b);
    }
  }

  /** One dropped-zero fraction continues the other. */
  predicate FractionPrefix(a: Instant, b: Instant) {
    IsPrefix(Fraction(a % SECOND), Fraction(b % SECOND))
  }

  lemma {:induction false} ZerosLess(z: string, t: string)
    requires |z| == |t| && AllDigits(t) && z != t
    requires forall i :: 0 <= i < |z| ==> z[i] == '0'
    ensures Less(z, t)
  {
    if t[0] == '0' {
      assert z == [z[0]] + z[1..] && t == [t[0]] + t[1..];
      ZerosLess(z[1..], t[1..]);
    }
  }

  lemma SplitFraction(n: nat) returns (zeros: string)
    ensures Digits(n, 9) == Fraction(n) + zeros
    ensures forall i :: 0 <= i < |zeros| ==> zeros[i] == '0'
  {
    zeros := Digits(n, 9)[|Fraction(n)|..];
    assert Digits(n, 9) == Digits(n, 9)[..|Fraction(n)|] + zeros;
  }

  /** A fraction that is a proper prefix of the other is the smaller number ... */
  lemma PrefixIsSmaller(m: nat, n: nat)
    requires m < SECOND && n < SECOND && m != n
    requires IsPrefix(Fraction(m), Fraction(n))
    ensures m < n && Fraction(m) != Fraction(n)
  {
    assert Pow10(9) == SECOND by { assert Pow10(3) == 1000; assert Pow10(6) == 1000_000; }
    DigitsOrder(m, n, 9);
    var zm := SplitFraction(m);
    var zn := SplitFraction(n);
    var f, g := Fraction(m), Fraction(n)[|Fraction(m)|..];
    assert Fraction(n) == f + g;
    assert Digits(n, 9) == f + (g + zn);
    LessBlocks(f, f, zm, g + zn);
    ZerosLess(zm, g + zn);
    assert g == "" ==> zm == zn;
  }

  /** ... but the larger text. */
  lemma PrefixReverses(m: nat, n: nat)
    requires IsPrefix(Fraction(m), Fraction(n)) && Fraction(m) != Fraction(n)
    ensures Less(Suffix(n), Suffix(m)) && !Less(Suffix(m), Suffix(n))
  {
    var f, g := Fraction(m), Fraction(n)[|Fraction(m)|..];
    assert Fraction(n) == f + g;
    LessIrreflexive(f);
    LessBlocks(f, f, "Z", g + "Z");
    LessBlocks(f, f, g + "Z", "Z");
    assert IsDigit(g[0]) by { assert g[0] == Fraction(n)[|f|]; }
    if f != "" {
      assert Suffix(n) == "." + (f + (g + "Z")) && Suffix(m) == "." + (f + "Z");
      SeparatorStep(".", f + (g + "Z"), f + "Z");
      SeparatorStep(".", f + "Z", f + (g + "Z"));
    }
  }

  lemma NoPrefixKeepsOrder(m: nat, n: nat)
    requires m < SECOND && n < SECOND
    requires !IsPrefix(Fraction(m), Fraction(n)) && !IsPrefix(Fraction(n), Fraction(m))
    ensures Less(Suffix(m), Suffix(n)) <==> m < n
  {
    assert Pow10(9) == SECOND by { assert Pow10(3) == 1000; assert Pow10(6) == 1000_000; }
    DigitsOrder(m, n, 9);
    var zm := SplitFraction(m);
    var zn := SplitFraction(n);
    var f, g := Fraction(m), Fraction(n);
    LessBeforeEnd(f, g, zm, zn);
    LessBeforeEnd(f, g, "Z", "Z");
    assert f != "" && g != "";
    assert Suffix(m) == "." + (f + "Z") && Suffix(n) == "." + (g + "Z");
    SeparatorStep(".", f + "Z", g + "Z");
  }

  /** Text order is time order except within one second when one fraction continues the other; there it is reversed. */
  lemma StoredOrderExact(a: Instant, b: Instant)
    requires a != b
    ensures (StoredBefore(a, b) <==> a < b) <==>
            !(a / SECOND == b / SECOND && (FractionPrefix(a, b) || FractionPrefix(b, a)))
    ensures StoredBefore(a, b) || StoredBefore(b, a)
  {
    if a / SECOND != b / SECOND {
      DifferentSeconds(a, b);
      DifferentSeconds(b, a);
    } else {
      var x, y := CivilOf(a), CivilOf(b);
      FormatOrder(x, y);
      FormatOrder(y, x);
      if FieldsLess(x, y) {
        FieldsInOrder(x, y);
      } else if FieldsLess(y, x) {
        FieldsInOrder(y, x);
      }
      if FractionPrefix(a, b) {
        PrefixIsSmaller(a % SECOND, b % SECOND);
        PrefixReverses(a % SECOND, b % SECOND);
      } else if FractionPrefix(b, a) {
        PrefixIsSmaller(b % SECOND, a % SECOND);
        PrefixReverses(b % SECOND, a % SECOND);
      } else {
        NoPrefixKeepsOrder(a % SECOND, b % SECOND);
        NoPrefixKeepsOrder(b % SECOND, a % SECOND);
      }
    }
  }

  /** Distinct instants are stored as distinct texts. */
  lemma FormatInjective(a: Instant, b: Instant)
    requires Format(a) == Format(b)
    ensures a == b
  {
    if a != b {
      StoredOrderExact(a, b);
      LessIrreflexive(Format(a));
    }
  }

  lemma NoFraction()
    ensures Fraction(0) == ""
  {
    DigitsOfZero(9);
  }

  /** The failing family: a whole second sorts after every later instant of that second. */
  lemma WholeSecondSortsLast(a: Instant, b: Instant)
    requires a % SECOND == 0 && a < b < a + SECOND
    ensures StoredBefore(b, a) && !StoredBefore(a, b)
  {
    NoFraction();
    assert FractionPrefix(a, b);
    StoredOrderExact(a, b);
  }

  lemma JoinOneLine(a: string, s: string, b: string)
    requires OneLine(a) && OneLine(s) && OneLine(b)
    ensures OneLine(a + (s + b))
  {
  }

  lemma FormatOneLine(t: Instant)
    ensures OneLine(Format(t))
  {
    var c := CivilOf(t);
    var sec := Digits(c.second, 2) + Suffix(c.nanos);
    assert OneLine(sec);
    var min := Digits(c.minute, 2) + (":" + sec);
    JoinOneLine(Digits(c.minute, 2), ":", sec);
    JoinOneLine(Digits(c.hour, 2), ":", min);
    var day := Digits(c.day, 2) + ("T" + TimeText(c));
    JoinOneLine(Digits(c.day, 2), "T", TimeText(c));
    JoinOneLine(Digits(c.month, 2), "-", day);
    JoinOneLine(Digits(c.year, 4), "-", Digits(c.month, 2) + ("-" + day));
  }
}
