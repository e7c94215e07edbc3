/** UTC instants and the text `_iso` stores for them (app/thread_cleanup.py). */
module Timestamps {
  import opened Text

  datatype DateTime =
    DateTime(year: nat, month: nat, day: nat, hour: nat, minute: nat, second: nat, micro: nat)

  // ---- the Gregorian calendar ----

  predicate Leap(year: nat) { year % 4 == 0 && (year % 100 != 0 || year % 400 == 0) }

  function DaysInMonth(year: nat, month: nat): nat {
    if month == 2 then (if Leap(year) then 29 else 28)
    else if month in {4, 6, 9, 11} then 30 else 31
  }

  function DaysBeforeMonth(year: nat, month: nat): nat {
    if month <= 1 then 0 else DaysBeforeMonth(year, month - 1) + DaysInMonth(year, month - 1)
  }

  function DaysBeforeYear(year: nat): nat {
    if year <= 1 then 0 else DaysBeforeYear(year - 1) + (if Leap(year - 1) then 366 else 365)
  }

  predicate Valid(d: DateTime) {
    && 1 <= d.year <= 9999 && 1 <= d.month <= 12 && 1 <= d.day <= DaysInMonth(d.year, d.month)
    && d.hour < 24 && d.minute < 60 && d.second < 60 && d.micro < 1_000_000
  }

  function Day(d: DateTime): int {
    DaysBeforeYear(d.year) + DaysBeforeMonth(d.year, d.month) + d.day
  }

  function MicroOfDay(d: DateTime): int {
    ((d.hour * 60 + d.minute) * 60 + d.second) * 1_000_000 + d.micro
  }

  /** Microseconds on the UTC time line: what a comparison of two `datetime` values decides. */
  function Instant(d: DateTime): int { Day(d) * 86_400_000_000 + MicroOfDay(d) }

  // ---- the stored text ----

  function Digit(n: nat): char requires n < 10 { "0123456789"[n] }

  function Pad(n: nat, width: nat): string {
    if width == 0 then "" else Pad(n / 10, width - 1) + [Digit(n % 10)]
  }

  /** `datetime.isoformat` leaves the fraction out when it is zero. */
  function Fraction(micro: nat): string {
    if micro == 0 then "+00:00" else "." + Pad(micro, 6) + "+00:00"
  }

  function Clock(d: DateTime): string {
    Pad(d.hour, 2) + (":" + (Pad(d.minute, 2) + (":" + (Pad(d.second, 2) + Fraction(d.micro)))))
  }

  function Iso(d: DateTime): string {
    Pad(d.year, 4) + ("-" + (Pad(d.month, 2) + ("-" + (Pad(d.day, 2) + ("T" + Clock(d))))))
  }

  // ---- fields decide both orders ----

  predicate ClockLess(a: DateTime, b: DateTime) {
    || a.hour < b.hour
    || (a.hour == b.hour && (a.minute < b.minute
    || (a.minute == b.minute && (a.second < b.second
    || (a.second == b.second && a.micro < b.micro)))))
  }

  predicate FieldsLess(a: DateTime, b: DateTime) {
    || a.year < b.year
    || (a.year == b.year && (a.month < b.month
    || (a.month == b.month && (a.day < b.day
    || (a.day == b.day && ClockLess(a, b))))))
  }

  lemma {:induction false} MonthsMonotone(year: nat, m: nat, n: nat)
    requires 1 <= m <= n
    ensures DaysBeforeMonth(year, m) + (if m < n then DaysInMonth(year, m) else 0) <= DaysBeforeMonth(year, n)
  {
    if m < n { MonthsMonotone(year, m, n - 1); }
  }

  lemma {:induction false} YearsMonotone(m: nat, n: nat)
    requires 1 <= m < n
    ensures DaysBeforeYear(m) + (if Leap(m) then 366 else 365) <= DaysBeforeYear(n)
  {
    if m + 1 < n { YearsMonotone(m, n - 1); }
  }

  lemma YearLength(year: nat)
    ensures DaysBeforeMonth(year, 12) + DaysInMonth(year, 12) == (if Leap(year) then 366 else 365)
  {
    assert DaysBeforeMonth(year, 2) == 31;
    assert DaysBeforeMonth(year, 3) == 31 + DaysInMonth(year, 2);
    assert DaysBeforeMonth(year, 5) == DaysBeforeMonth(year, 3) + 31 + 30;
    assert DaysBeforeMonth(year, 7) == DaysBeforeMonth(year, 5) + 31 + 30;
    assert DaysBeforeMonth(year, 9) == DaysBeforeMonth(year, 7) + 31 + 31;
    assert DaysBeforeMonth(year, 11) == DaysBeforeMonth(year, 9) + 30 + 31;
    assert DaysBeforeMonth(year, 12) == DaysBeforeMonth(year, 11) + 30;
  }

  lemma FieldsOrderInstants(a: DateTime, b: DateTime)
    requires Valid(a) && Valid(b) && FieldsLess(a, b)
    ensures Instant(a) < Instant(b)
  {
    if a.year < b.year {
      YearsMonotone(a.year, b.year);
      YearLength(a.year);
      MonthsMonotone(a.year, a.month, 12);
      assert Day(a) < Day(b);
    } else if a.month < b.month {
      MonthsMonotone(a.year, a.month, b.month);
      assert Day(a) < Day(b);
    }
    assert 0 <= MicroOfDay(a) < 86_400_000_000 && 0 <= MicroOfDay(b) < 86_400_000_000;
  }

  /** n has at most `width` decimal digits. */
  predicate Fits(n: nat, width: nat) {
    if width == 0 then n == 0 else Fits(n / 10, width - 1)
  }

  lemma {:induction false} FitsDown(n: nat, m: nat, width: nat)
    requires n <= m && Fits(m, width)
    ensures Fits(n, width)
  {
    if width > 0 { FitsDown(n / 10, m / 10, width - 1); }
  }

  lemma {:induction false} PadOrder(n: nat, m: nat, width: nat)
    ensures |Pad(n, width)| == |Pad(m, width)| == width
    ensures n < m && Pad(n, width) != Pad(m, width) && Fits(m, width) ==> Less(Pad(n, width), Pad(m, width))
    ensures Fits(n, width) && Fits(m, width) && Pad(n, width) == Pad(m, width) ==> n == m
  {
    if width > 0 {
      PadOrder(n / 10, m / 10, width - 1);
      LessConcat(Pad(n / 10, width - 1), [Digit(n % 10)], Pad(m / 10, width - 1), [Digit(m % 10)]);
      var p, q := Pad(n, width), Pad(m, width);
      assert p[..width - 1] == Pad(n / 10, width - 1) && p[width - 1] == Digit(n % 10);
      assert q[..width - 1] == Pad(m / 10, width - 1) && q[width - 1] == Digit(m % 10);
      if Pad(n / 10, width - 1) == Pad(m / 10, width - 1) {
        if Fits(n, width) && Fits(m, width) { assert n / 10 == m / 10; }
        if n < m && Fits(m, width) {
          FitsDown(n, m, width);
          PadOrder(n / 10, m / 10, width - 1);
        }
      }
    }
  }

  lemma FitsBounds(n: nat)
    ensures n < 10_000 ==> Fits(n, 4)
    ensures n < 1_000_000 ==> Fits(n, 6)
  {
    assert n < 1_000_000 ==> Fits(n / 10_000, 2);
    assert n < 1_000_000 ==> n / 100 / 10 / 10 == n / 10_000 && Fits(n / 100, 4);
    assert n < 10_000 ==> Fits(n / 100, 2);
  }

  lemma LessAsymmetric(a: string, b: string)
    requires Less(a, b)
    ensures !Less(b, a)
  {
    if Less(b, a) {
      LessTransitive(a, b, a);
      LessIrreflexive(a);
    }
  }

  /** One zero-padded field in front of a continuation. */
  lemma FieldOrder(n: nat, x: string, m: nat, y: string, width: nat)
    requires Fits(n, width) && Fits(m, width)
    ensures Less(Pad(n, width) + x, Pad(m, width) + y) <==> n < m || (n == m && Less(x, y))
  {
    PadOrder(n, m, width);
    PadOrder(m, n, width);
    LessConcat(Pad(n, width), x, Pad(m, width), y);
    if m < n { LessAsymmetric(Pad(m, width), Pad(n, width)); }
    LessIrreflexive(Pad(n, width));
  }

  /** A separator common to both texts does not matter. */
  lemma SeparatorOrder(c: char, x: string, y: string)
    ensures Less([c] + x, [c] + y) <==> Less(x, y)
  {
    LessConcat([c], x, [c], y);
    LessIrreflexive([c]);
  }

  /** `+` sorts before `.`, so a whole second comes before its fractions. */
  lemma FractionOrder(n: nat, m: nat)
    requires n < 1_000_000 && m < 1_000_000
    ensures Less(Fraction(n), Fraction(m)) <==> n < m
  {
    FitsBounds(n);
    FitsBounds(m);
    var zone := "+00:00";
    LessIrreflexive(zone);
    if n != 0 && m != 0 {
      FieldOrder(n, zone, m, zone, 6);
      assert Fraction(n) == ['.'] + (Pad(n, 6) + zone) && Fraction(m) == ['.'] + (Pad(m, 6) + zone);
      SeparatorOrder('.', Pad(n, 6) + zone, Pad(m, 6) + zone);
    } else {
      assert n != 0 ==> Fraction(n)[0] == '.';
      assert m != 0 ==> Fraction(m)[0] == '.';
    }
  }

  lemma ClockOrder(a: DateTime, b: DateTime)
    requires Valid(a) && Valid(b)
    ensures Less(Clock(a), Clock(b)) <==> ClockLess(a, b)
  {
    FractionOrder(a.micro, b.micro);
    var a3, b3 := Pad(a.second, 2) + Fraction(a.micro), Pad(b.second, 2) + Fraction(b.micro);
    FieldOrder(a.second, Fraction(a.micro), b.second, Fraction(b.micro), 2);
    SeparatorOrder(':', a3, b3);
    FieldOrder(a.minute, ":" + a3, b.minute, ":" + b3, 2);
    SeparatorOrder(':', Pad(a.minute, 2) + (":" + a3), Pad(b.minute, 2) + (":" + b3));
    FieldOrder(a.hour, ":" + (Pad(a.minute, 2) + (":" + a3)), b.hour, ":" + (Pad(b.minute, 2) + (":" + b3)), 2);
  }

  lemma IsoOrder(a: DateTime, b: DateTime)
    requires Valid(a) && Valid(b)
    ensures Less(Iso(a), Iso(b)) <==> FieldsLess(a, b)
  {
    ClockOrder(a, b);
    SeparatorOrder('T', Clock(a), Clock(b));
    var a2, b2 := Pad(a.day, 2) + ("T" + Clock(a)), Pad(b.day, 2) + ("T" + Clock(b));
    FieldOrder(a.day, "T" + Clock(a), b.day, "T" + Clock(b), 2);
    SeparatorOrder('-', a2, b2);
    FieldOrder(a.month, "-" + a2, b.month, "-" + b2, 2);
    SeparatorOrder('-', Pad(a.month, 2) + ("-" + a2), Pad(b.month, 2) + ("-" + b2));
    FitsBounds(a.year);
    FitsBounds(b.year);
    FieldOrder(a.year, "-" + (Pad(a.month, 2) + ("-" + a2)), b.year, "-" + (Pad(b.month, 2) + ("-" + b2)), 4);
  }

  /** The stored text is an order embedding of real time: every SQL comparison of two
      `_iso` texts (`<`, `<=`, `>`, `=`) decides the comparison of the instants. */
  lemma TextDecidesTime(a: DateTime, b: DateTime)
    requires Valid(a) && Valid(b)
    ensures Less(Iso(a), Iso(b)) <==> Instant(a) < Instant(b)
    ensures Iso(a) == Iso(b) <==> Instant(a) == Instant(b)
  {
    IsoOrder(a, b);
    IsoOrder(b, a);
    if FieldsLess(a, b) {
      FieldsOrderInstants(a, b);
    } else if FieldsLess(b, a) {
      FieldsOrderInstants(b, a);
    }
    LessIrreflexive(Iso(a));
  }
}
