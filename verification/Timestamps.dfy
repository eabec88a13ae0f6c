/** UTC timestamps of any precision: agent/internal/contracts/time.go. */
module Timestamps {
  import opened Outcomes
  import opened Decimals
  import opened Text

  datatype Error = Unrepresentable

  // The calendar fields and the fraction exactly as written.
  datatype Stamp = Stamp(year: nat, month: nat, day: nat, hour: nat, minute: nat, second: nat, fraction: string)

  datatype Instant = Instant(seconds: int, fraction: string)

  predicate IsLeap(year: nat) {
    year % 4 == 0 && (year % 100 != 0 || year % 400 == 0)
  }

  function DaysIn(year: nat, month: nat): nat {
    if month == 2 then (if IsLeap(year) then 29 else 28)
    else if month == 4 || month == 6 || month == 9 || month == 11 then 30
    else 31
  }

  // What time.Parse accepts: a real date, and no leap second.
  predicate RealDate(s: Stamp) {
    1 <= s.month <= 12 && 1 <= s.day <= DaysIn(s.year, s.month) && s.hour < 24 && s.minute < 60 && s.second < 60
  }

  predicate DigitsAt(v: string, i: nat, n: nat) {
    i + n <= |v| && AllDigits(v[i..i + n])
  }

  // ^(\d{4}-\d{2}-\d{2})[Tt](\d{2}:\d{2}:\d{2})(?:\.(\d+))?Z$
  predicate Matches(v: string) {
    && |v| >= 20 && v[|v| - 1] == 'Z'
    && DigitsAt(v, 0, 4) && v[4] == '-' && DigitsAt(v, 5, 2) && v[7] == '-' && DigitsAt(v, 8, 2)
    && (v[10] == 'T' || v[10] == 't')
    && DigitsAt(v, 11, 2) && v[13] == ':' && DigitsAt(v, 14, 2) && v[16] == ':' && DigitsAt(v, 17, 2)
    && (|v| == 20 || (|v| > 21 && v[19] == '.' && AllDigits(v[20..|v| - 1])))
  }

  function Fields(v: string): (s: Stamp)
    requires Matches(v)
    ensures AllDigits(s.fraction)
  {
    Stamp(Natural(v[0..4]), Natural(v[5..7]), Natural(v[8..10]), Natural(v[11..13]), Natural(v[14..16]), Natural(v[17..19]),
          if |v| == 20 then "" else v[20..|v| - 1])
  }

  function DaysBeforeYear(year: nat): nat {
    if year == 0 then 0 else DaysBeforeYear(year - 1) + (if IsLeap(year - 1) then 366 else 365)
  }

  function DaysBeforeMonth(year: nat, month: nat): nat {
    if month <= 1 then 0 else DaysBeforeMonth(year, month - 1) + DaysIn(year, month - 1)
  }

  function Day(s: Stamp): nat
    requires RealDate(s)
  {
    DaysBeforeYear(s.year) + DaysBeforeMonth(s.year, s.month) + s.day - 1
  }

  // base.Unix()
  function Unix(s: Stamp): int
    requires RealDate(s)
  {
    (Day(s) - DaysBeforeYear(1970)) * 86400 + s.hour * 3600 + s.minute * 60 + s.second
  }

  function TrimRight(s: string): string {
    if s != "" && s[|s| - 1] == '0' then TrimRight(s[..|s| - 1]) else s
  }

  function InstantOf(s: Stamp): Instant
    requires RealDate(s)
  {
    Instant(Unix(s), TrimRight(s.fraction))
  }

  function UtcInstant(v: string): Result<Instant, Error> {
    if !Matches(v) || !RealDate(Fields(v)) then Err(Unrepresentable) else Ok(InstantOf(Fields(v)))
  }

  function Zeros(n: nat): string {
    if n == 0 then "" else Zeros(n - 1) + "0"
  }

  function CompareInstants(a: Instant, b: Instant): int {
    if a.seconds < b.seconds then -1
    else if a.seconds > b.seconds then 1
    else
      var length := Max(|a.fraction|, |b.fraction|);
      Compare(a.fraction + Zeros(length - |a.fraction|), b.fraction + Zeros(length - |b.fraction|))
  }

  function CompareTimes(left: string, right: string): Result<int, Error> {
    var (a, b) := (UtcInstant(left), UtcInstant(right));
    if a.Err? then Err(a.error) else if b.Err? then Err(b.error) else Ok(CompareInstants(a.value, b.value))
  }

  // ---- the exact rational instant: Ticks(s) / 10^|fraction| seconds ----

  function Ticks(s: Stamp): int
    requires RealDate(s) && AllDigits(s.fraction)
  {
    Unix(s) * Pow10(|s.fraction|) + Natural(s.fraction)
  }

  // The sign of the difference of the two instants, by cross-multiplication.
  function ExactOrder(a: Stamp, b: Stamp): int
    requires RealDate(a) && RealDate(b) && AllDigits(a.fraction) && AllDigits(b.fraction)
  {
    Sign(Ticks(a) * Pow10(|b.fraction|), Ticks(b) * Pow10(|a.fraction|))
  }

  function Sign(x: int, y: int): int {
    if x < y then -1 else if x > y then 1 else 0
  }

  lemma {:induction false} ZerosAreZero(n: nat)
    ensures |Zeros(n)| == n && AllDigits(Zeros(n)) && Natural(Zeros(n)) == 0
  {
    if n > 0 {
      ZerosAreZero(n - 1);
      assert Zeros(n)[..n - 1] == Zeros(n - 1);
    }
  }

  lemma Padding(s: string, n: nat)
    requires AllDigits(s)
    ensures AllDigits(s + Zeros(n)) && |s + Zeros(n)| == |s| + n && Natural(s + Zeros(n)) == Natural(s) * Pow10(n)
  {
    ZerosAreZero(n);
    NaturalConcat(s, Zeros(n));
  }

  lemma {:induction false} Trimming(s: string)
    requires AllDigits(s)
    ensures AllDigits(TrimRight(s)) && |TrimRight(s)| <= |s|
    ensures Natural(s) == Natural(TrimRight(s)) * Pow10(|s| - |TrimRight(s)|)
  {
    if s != "" && s[|s| - 1] == '0' {
      var front := s[..|s| - 1];
      Trimming(front);
      TimesTen(Natural(TrimRight(front)), Pow10(|front| - |TrimRight(front)|));
    }
  }

  // Digit strings of equal length order as the numbers they spell.
  lemma {:induction false} DigitOrder(a: string, b: string)
    requires AllDigits(a) && AllDigits(b) && |a| == |b|
    ensures Compare(a, b) == Sign(Natural(a), Natural(b))
  {
    if a != "" {
      var (x, y) := (a[..1], b[..1]);
      assert a == x + a[1..] && b == y + b[1..];
      NaturalConcat(x, a[1..]);
      NaturalConcat(y, b[1..]);
      DigitOrder(a[1..], b[1..]);
      NaturalBound(a[1..]);
      NaturalBound(b[1..]);
      assert Natural(x[..0]) == 0 && Natural(y[..0]) == 0;
      LeadingDigit(Natural(x), Natural(y), Natural(a[1..]), Natural(b[1..]), Pow10(|a| - 1));
    }
  }

  lemma LeadingDigit(x: nat, y: nat, u: nat, v: nat, p: nat)
    requires u < p && v < p
    ensures Sign(x * p + u, y * p + v) == if x == y then Sign(u, v) else Sign(x, y)
  {
    if x < y {
      StepUp(x, y, p);
    } else if y < x {
      StepUp(y, x, p);
    }
  }

  lemma StepUp(x: int, y: int, p: nat)
    requires x < y
    ensures x * p + p <= y * p
  {
    Expand(x, y - x - 1, p);
    NonNegative(y - x - 1, p);
  }

  lemma Expand(x: int, d: int, p: int)
    ensures (x + 1 + d) * p == x * p + p + d * p
  {
  }

  lemma NonNegative(d: nat, p: nat)
    ensures 0 <= d * p
  {
  }

  lemma ScaledSign(x: int, y: int, p: nat)
    requires 0 < p
    ensures Sign(x * p, y * p) == Sign(x, y)
  {
    if x < y {
      assert x * p < y * p;
    } else if y < x {
      assert y * p < x * p;
    }
  }

  // A trimmed, padded fraction, scaled up, is the fraction it came from, scaled up.
  lemma FractionSide(f: string, other: nat, length: nat, rest: nat)
    requires AllDigits(f) && |TrimRight(f)| <= length && rest + length == |f| + other
    ensures var p := TrimRight(f) + Zeros(length - |TrimRight(f)|);
            AllDigits(p) && |p| == length && Natural(f) * Pow10(other) == Natural(p) * Pow10(rest)
  {
    var a := TrimRight(f);
    Trimming(f);
    Padding(a, length - |a|);
    PowerSplit(|f| - |a|, other, |f| - |a| + other);
    PowerSplit(length - |a|, rest, |f| - |a| + other);
    Regroup(Natural(f), Natural(a), Pow10(|f| - |a|), Pow10(other), Pow10(length - |a|), Pow10(rest));
  }

  lemma PowerSplit(a: nat, b: nat, n: nat)
    requires a + b == n
    ensures Pow10(a) * Pow10(b) == Pow10(n)
  {
    Pow10Add(a, b);
  }

  lemma Regroup(f: int, a: int, t: int, o: int, p: int, r: int)
    requires f == a * t && t * o == p * r
    ensures f * o == a * p * r
  {
    Reassociate(a, t, o);
    Reassociate(a, p, r);
  }

  // Comparing trimmed, padded fractions compares the fractions themselves, exactly.
  lemma FractionOrder(f: string, g: string)
    requires AllDigits(f) && AllDigits(g)
    ensures var (a, b) := (TrimRight(f), TrimRight(g));
            var length := Max(|a|, |b|);
            Compare(a + Zeros(length - |a|), b + Zeros(length - |b|)) == Sign(Natural(f) * Pow10(|g|), Natural(g) * Pow10(|f|))
  {
    var (a, b) := (TrimRight(f), TrimRight(g));
    var length := Max(|a|, |b|);
    TrimShorter(f);
    TrimShorter(g);
    var rest := |f| + |g| - length;
    FractionSide(f, |g|, length, rest);
    FractionSide(g, |f|, length, rest);
    var (p, q) := (a + Zeros(length - |a|), b + Zeros(length - |b|));
    DigitOrder(p, q);
    ScaledSign(Natural(p), Natural(q), Pow10(rest));
  }

  lemma {:induction false} TrimShorter(s: string)
    ensures |TrimRight(s)| <= |s|
  {
    if s != "" && s[|s| - 1] == '0' {
      TrimShorter(s[..|s| - 1]);
    }
  }

  lemma Reassociate(x: int, y: int, z: int)
    ensures x * y * z == x * (y * z)
  {
  }

  lemma {:induction false} YearsGrow(a: nat, b: nat)
    requires a < b
    ensures DaysBeforeYear(a) + (if IsLeap(a) then 366 else 365) <= DaysBeforeYear(b)
    decreases b
  {
    if a + 1 < b {
      YearsGrow(a, b - 1);
    }
  }

  lemma {:induction false} MonthsGrow(year: nat, a: nat, b: nat)
    requires 1 <= a < b
    ensures DaysBeforeMonth(year, a) + DaysIn(year, a) <= DaysBeforeMonth(year, b)
    decreases b
  {
    if a + 1 < b {
      MonthsGrow(year, a, b - 1);
    }
  }

  lemma YearLength(year: nat)
    ensures DaysBeforeMonth(year, 12) + DaysIn(year, 12) == if IsLeap(year) then 366 else 365
  {
    assert DaysBeforeMonth(year, 2) == 31;
    assert DaysBeforeMonth(year, 4) == 62 + DaysIn(year, 2);
    assert DaysBeforeMonth(year, 6) == 123 + DaysIn(year, 2);
    assert DaysBeforeMonth(year, 8) == 184 + DaysIn(year, 2);
    assert DaysBeforeMonth(year, 10) == 245 + DaysIn(year, 2);
  }

  // Which of two dates comes first, field by field.
  function FieldOrder(a: Stamp, b: Stamp): int {
    if a.year != b.year then Sign(a.year, b.year)
    else if a.month != b.month then Sign(a.month, b.month)
    else if a.day != b.day then Sign(a.day, b.day)
    else if a.hour != b.hour then Sign(a.hour, b.hour)
    else if a.minute != b.minute then Sign(a.minute, b.minute)
    else Sign(a.second, b.second)
  }

  lemma DayWithinYear(s: Stamp)
    requires RealDate(s)
    ensures DaysBeforeMonth(s.year, s.month) + s.day - 1 < if IsLeap(s.year) then 366 else 365
  {
    YearLength(s.year);
    if s.month < 12 {
      MonthsGrow(s.year, s.month, 12);
    }
  }

  lemma DaysGrow(a: Stamp, b: Stamp)
    requires RealDate(a) && RealDate(b)
    requires a.year < b.year || (a.year == b.year && (a.month < b.month || (a.month == b.month && a.day < b.day)))
    ensures Day(a) < Day(b)
  {
    if a.year < b.year {
      DayWithinYear(a);
      YearsGrow(a.year, b.year);
    } else if a.month < b.month {
      MonthsGrow(a.year, a.month, b.month);
    }
  }

  // The seconds computed from the calendar order exactly as the calendar fields do.
  lemma UnixOrder(a: Stamp, b: Stamp)
    requires RealDate(a) && RealDate(b)
    ensures Sign(Unix(a), Unix(b)) == FieldOrder(a, b)
  {
    if a.year == b.year && a.month == b.month && a.day == b.day {
      assert Day(a) == Day(b);
    } else if a.year < b.year || (a.year == b.year && (a.month < b.month || (a.month == b.month && a.day < b.day))) {
      DaysGrow(a, b);
    } else {
      DaysGrow(b, a);
    }
  }

  // For timestamps of any precision: comparison fails exactly on the unrepresentable ones, and otherwise
  // orders the exact rational instants; ties are exactly equal instants.
  lemma CompareTimesIsExact(left: string, right: string)
    ensures CompareTimes(left, right).Ok? <==> Matches(left) && Matches(right) && RealDate(Fields(left)) && RealDate(Fields(right))
    ensures CompareTimes(left, right).Ok? ==> CompareTimes(left, right).value == ExactOrder(Fields(left), Fields(right))
  {
    if CompareTimes(left, right).Ok? {
      StampOrder(Fields(left), Fields(right));
    }
  }

  lemma StampOrder(a: Stamp, b: Stamp)
    requires RealDate(a) && RealDate(b) && AllDigits(a.fraction) && AllDigits(b.fraction)
    ensures CompareInstants(InstantOf(a), InstantOf(b)) == ExactOrder(a, b)
  {
    FractionOrder(a.fraction, b.fraction);
    TickOrder(Unix(a), Unix(b), a.fraction, b.fraction);
  }

  lemma StampFields(a: Stamp, b: Stamp)
    requires RealDate(a) && RealDate(b) && AllDigits(a.fraction) && AllDigits(b.fraction)
    ensures CompareInstants(InstantOf(a), InstantOf(b))
            == if FieldOrder(a, b) != 0 then FieldOrder(a, b)
               else Sign(Natural(a.fraction) * Pow10(|b.fraction|), Natural(b.fraction) * Pow10(|a.fraction|))
  {
    UnixOrder(a, b);
    FractionOrder(a.fraction, b.fraction);
  }

  lemma TickOrder(s: int, t: int, f: string, g: string)
    requires AllDigits(f) && AllDigits(g)
    ensures var (p, q) := (Pow10(|f|), Pow10(|g|));
            Sign((s * p + Natural(f)) * q, (t * q + Natural(g)) * p)
            == if s == t then Sign(Natural(f) * q, Natural(g) * p) else Sign(s, t)
  {
    var (p, q) := (Pow10(|f|), Pow10(|g|));
    NaturalBound(f);
    NaturalBound(g);
    CrossTerms(s, t, Natural(f), Natural(g), p, q);
  }

  lemma CrossTerms(s: int, t: int, u: nat, v: nat, p: nat, q: nat)
    requires 0 < p && 0 < q && u < p && v < q
    ensures Sign((s * p + u) * q, (t * q + v) * p) == if s == t then Sign(u * q, v * p) else Sign(s, t)
  {
    var c := p * q;
    assert (s * p + u) * q == s * c + u * q by {
      Distribute(s, p, u, q);
    }
    assert (t * q + v) * p == t * c + v * p by {
      Distribute(t, q, v, p);
      assert q * p == c;
    }
    Below(u, p, q);
    Below(v, q, p);
    if s < t {
      StepUp(s, t, c);
    } else if t < s {
      StepUp(t, s, c);
    }
  }

  lemma Distribute(s: int, p: nat, u: nat, q: nat)
    ensures (s * p + u) * q == s * (p * q) + u * q
  {
    Reassociate(s, p, q);
  }

  lemma Below(u: nat, p: nat, q: nat)
    requires u < p && 0 < q
    ensures 0 <= u * q < p * q
  {
    StepUp(u, p, q);
  }

  // Hence comparison is by calendar fields first and fraction second, and trailing zeros never matter.
  lemma CompareTimesByFields(left: string, right: string)
    requires CompareTimes(left, right).Ok?
    ensures var (a, b) := (Fields(left), Fields(right));
            CompareTimes(left, right).value
            == if FieldOrder(a, b) != 0 then FieldOrder(a, b) else Sign(Natural(a.fraction) * Pow10(|b.fraction|), Natural(b.fraction) * Pow10(|a.fraction|))
  {
    StampFields(Fields(left), Fields(right));
  }

  // A total preorder.
  lemma CompareTimesIsTransitive(x: string, y: string, z: string)
    requires CompareTimes(x, y).Ok? && CompareTimes(y, z).Ok?
    requires CompareTimes(x, y).value <= 0 && CompareTimes(y, z).value <= 0
    ensures CompareTimes(x, z).Ok? && CompareTimes(x, z).value <= 0
    ensures CompareTimes(x, z).value == 0 ==> CompareTimes(x, y).value == 0 && CompareTimes(y, z).value == 0
  {
    CompareTimesIsExact(x, y);
    CompareTimesIsExact(y, z);
    CompareTimesIsExact(x, z);
    var (a, b, c) := (Fields(x), Fields(y), Fields(z));
    RatioTransitive(Ticks(a), Ticks(b), Ticks(c), Pow10(|a.fraction|), Pow10(|b.fraction|), Pow10(|c.fraction|));
  }

  lemma RatioTransitive(a: int, b: int, c: int, p: nat, q: nat, r: nat)
    requires 0 < p && 0 < q && 0 < r && a * q <= b * p && b * r <= c * q
    ensures a * r <= c * p
    ensures a * r == c * p ==> a * q == b * p && b * r == c * q
  {
    ScaledSign(a * q, b * p, r);
    ScaledSign(b * r, c * q, p);
    Swap(a, q, r);
    Swap(b, p, r);
    Swap(c, q, p);
    ScaledSign(a * r, c * p, q);
  }

  lemma Swap(x: int, y: int, z: int)
    ensures x * y * z == x * z * y
  {
  }

  lemma CompareTimesIsAntisymmetric(x: string, y: string)
    requires CompareTimes(x, y).Ok?
    ensures CompareTimes(y, x).Ok? && CompareTimes(y, x).value == 0 - CompareTimes(x, y).value
  {
    CompareTimesIsExact(x, y);
    CompareTimesIsExact(y, x);
  }
}
