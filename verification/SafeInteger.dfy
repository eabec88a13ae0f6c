/** Exact safe integers in JSON numbers: safeInteger in agent/internal/contracts/validate.go. */
module SafeInteger {
  import opened Outcomes
  import opened Decimals

  const MAX_COUNTER: int := 9007199254740991

  // The four submatches of the number pattern; an absent fraction or exponent is empty.
  datatype Parts = Parts(negative: bool, whole: string, fraction: string, exponent: string)

  function Unsigned(exponent: string): string {
    if exponent != "" && (exponent[0] == '+' || exponent[0] == '-') then exponent[1..] else exponent
  }

  predicate WellFormed(p: Parts) {
    && p.whole != "" && AllDigits(p.whole) && AllDigits(p.fraction)
    && (p.exponent != "" ==> Unsigned(p.exponent) != "" && AllDigits(Unsigned(p.exponent)))
  }

  function FractionText(p: Parts): string {
    if p.fraction == "" then "" else "." + p.fraction
  }

  function ExponentText(p: Parts, mark: char): string {
    if p.exponent == "" then "" else [mark] + p.exponent
  }

  // ^(-?)([0-9]+)(?:\.([0-9]+))?(?:[eE]([+-]?[0-9]+))?$ as a language.
  predicate Spells(token: string, p: Parts, mark: char) {
    && WellFormed(p) && (mark == 'e' || mark == 'E')
    && token == (if p.negative then "-" else "") + (p.whole + (FractionText(p) + ExponentText(p, mark)))
  }

  // The length of the longest run of digits at the front.
  function Span(s: string): (n: nat)
    ensures n <= |s| && AllDigits(s[..n]) && (n < |s| ==> !IsDigit(s[n]))
  {
    if s != "" && IsDigit(s[0]) then
      var n := Span(s[1..]);
      assert s[..n + 1] == [s[0]] + s[1..][..n];
      n + 1
    else 0
  }

  lemma {:induction false} SpanIs(a: string, b: string)
    requires AllDigits(a) && (b != "" ==> !IsDigit(b[0]))
    ensures Span(a + b) == |a|
  {
    if a == "" {
      assert a + b == b;
    } else {
      assert (a + b)[1..] == a[1..] + b;
      SpanIs(a[1..], b);
    }
  }

  function AfterFraction(s: string, p: Parts): Option<Parts> {
    if s == "" then Some(p)
    else if (s[0] == 'e' || s[0] == 'E') && Unsigned(s[1..]) != "" && AllDigits(Unsigned(s[1..])) then Some(p.(exponent := s[1..]))
    else None
  }

  function AfterWhole(s: string, p: Parts): Option<Parts> {
    if s != "" && s[0] == '.' then
      var n := Span(s[1..]);
      if n == 0 then None else AfterFraction(s[1 + n..], p.(fraction := s[1..1 + n]))
    else AfterFraction(s, p)
  }

  function AfterSign(s: string, negative: bool): Option<Parts> {
    var n := Span(s);
    if n == 0 then None else AfterWhole(s[n..], Parts(negative, s[..n], "", ""))
  }

  function MatchNumber(token: string): Option<Parts> {
    if token != "" && token[0] == '-' then AfterSign(token[1..], true) else AfterSign(token, false)
  }

  // The matcher accepts only the language ...
  lemma AfterWholeIsSound(s: string, p: Parts) returns (mark: char)
    requires AfterWhole(s, p).Some? && p.whole != "" && AllDigits(p.whole) && p.fraction == p.exponent == ""
    ensures var q := AfterWhole(s, p).value;
            && (mark == 'e' || mark == 'E') && WellFormed(q) && q.negative == p.negative && q.whole == p.whole
            && s == FractionText(q) + ExponentText(q, mark)
  {
    var q := AfterWhole(s, p).value;
    var n := if s != "" && s[0] == '.' then 1 + Span(s[1..]) else 0;
    mark := if n < |s| then s[n] else 'e';
    assert s == s[..n] + s[n..];
    if n > 0 {
      assert s[1..][..n - 1] == s[1..n];
      assert s[..n] == "." + s[1..n];
    }
    if n < |s| {
      assert s[n..] == [s[n]] + s[n..][1..];
    }
  }

  lemma MatchIsSound(token: string) returns (mark: char)
    requires MatchNumber(token).Some?
    ensures Spells(token, MatchNumber(token).value, mark)
  {
    var s := if token != "" && token[0] == '-' then token[1..] else token;
    var negative := token != "" && token[0] == '-';
    var n := Span(s);
    mark := AfterWholeIsSound(s[n..], Parts(negative, s[..n], "", ""));
    var p := MatchNumber(token).value;
    assert s == p.whole + (FractionText(p) + ExponentText(p, mark));
    if negative {
      assert token == "-" + s;
    } else {
      assert token == "" + s;
    }
  }

  // ... and all of it, splitting each token in the one possible way.
  lemma AfterWholeIsComplete(p: Parts, mark: char, q: Parts)
    requires WellFormed(p) && (mark == 'e' || mark == 'E') && q == p.(fraction := "", exponent := "")
    ensures AfterWhole(FractionText(p) + ExponentText(p, mark), q) == Some(p)
  {
    var e := ExponentText(p, mark);
    AfterFractionIsComplete(p, mark, p.(exponent := ""));
    if p.fraction == "" {
      assert FractionText(p) + e == e;
    } else {
      FractionIsSpanned(p.fraction, e);
    }
  }

  lemma AfterFractionIsComplete(p: Parts, mark: char, q: Parts)
    requires WellFormed(p) && (mark == 'e' || mark == 'E') && q == p.(exponent := "")
    ensures AfterFraction(ExponentText(p, mark), q) == Some(p)
  {
    if p.exponent != "" {
      assert ExponentText(p, mark)[1..] == p.exponent;
    }
  }

  lemma FractionIsSpanned(fraction: string, e: string)
    requires AllDigits(fraction) && (e == "" || !IsDigit(e[0]))
    ensures var s := "." + fraction + e;
            Span(s[1..]) == |fraction| && s[1..1 + |fraction|] == fraction && s[1 + |fraction|..] == e
  {
    var s := "." + fraction + e;
    assert s[1..] == fraction + e;
    SpanIs(fraction, e);
  }

  lemma MatchIsComplete(token: string, p: Parts, mark: char)
    requires Spells(token, p, mark)
    ensures MatchNumber(token) == Some(p)
  {
    var rest := FractionText(p) + ExponentText(p, mark);
    var s := p.whole + rest;
    assert IsDigit(p.whole[0]) && s[0] == p.whole[0];
    if p.negative {
      assert token[1..] == s;
    } else {
      assert token == s;
    }
    SpanIs(p.whole, rest);
    assert s[..|p.whole|] == p.whole && s[|p.whole|..] == rest;
    AfterWholeIsComplete(p, mark, Parts(p.negative, p.whole, "", ""));
  }

  // ---- the exact value: (-1)^negative * whole.fraction * 10^exponent ----

  function Coefficient(p: Parts): nat
    requires WellFormed(p)
  {
    Natural(p.whole + p.fraction)
  }

  function ExponentOf(p: Parts): int
    requires WellFormed(p)
  {
    if p.exponent == "" then 0
    else if p.exponent[0] == '-' then 0 - Natural(Unsigned(p.exponent))
    else Natural(Unsigned(p.exponent))
  }

  function Scale(p: Parts): int
    requires WellFormed(p)
  {
    ExponentOf(p) - |p.fraction|
  }

  // The value is numerator / denominator, exactly.
  function Numerator(p: Parts): int
    requires WellFormed(p)
  {
    (if p.negative then -1 else 1) * Coefficient(p) * (if Scale(p) >= 0 then Pow10(Scale(p)) else 1)
  }

  function Denominator(p: Parts): nat
    requires WellFormed(p)
  {
    if Scale(p) >= 0 then 1 else Pow10(-Scale(p))
  }

  predicate HasValue(p: Parts, n: int)
    requires WellFormed(p)
  {
    n * Denominator(p) == Numerator(p)
  }

  ghost predicate IsSafe(p: Parts)
    requires WellFormed(p)
  {
    exists n: int :: -MAX_COUNTER <= n <= MAX_COUNTER && HasValue(p, n)
  }

  // strconv.ParseInt(text, 10, 32) with its error dropped: out of range reads as the nearest bound.
  function ParseInt32(n: int): int {
    if n > 2147483647 then 2147483647 else if n < -2147483648 then -2147483648 else n
  }

  // A token within the length limit has few digits.
  lemma SpelledLength(token: string, p: Parts, mark: char)
    requires Spells(token, p, mark)
    ensures |p.whole| + |p.fraction| <= |token|
  {
  }

  // A coefficient of few digits, divided by a larger power of ten, is strictly between 0 and 1.
  lemma TooSmall(p: Parts)
    requires WellFormed(p) && 0 < Coefficient(p) && |p.whole| + |p.fraction| <= 128 && Scale(p) < -128
    ensures !IsSafe(p)
  {
    NaturalBound(p.whole + p.fraction);
    Pow10Monotone(|p.whole| + |p.fraction|, -Scale(p));
    forall n: int
      ensures !HasValue(p, n)
    {
      NoMultiple(Denominator(p), Coefficient(p), n);
    }
  }

  lemma NoMultiple(d: nat, c: nat, n: int)
    requires 0 < c < d
    ensures n * d != c && n * d != 0 - c
  {
    Multiples(d, n);
  }

  lemma Multiples(d: nat, n: int)
    ensures n <= 0 || n * d >= d
    ensures n >= 0 || n * d <= 0 - d
  {
  }

  lemma TooLarge(p: Parts)
    requires WellFormed(p) && 0 < Coefficient(p) && Scale(p) > 15
    ensures !IsSafe(p)
  {
    Pow10Sixteen();
    Pow10Monotone(16, Scale(p));
    assert Coefficient(p) * Pow10(Scale(p)) >= Pow10(Scale(p)) by {
      AtLeast(Coefficient(p), Pow10(Scale(p)));
    }
  }

  lemma AtLeast(a: nat, b: nat)
    requires 0 < a
    ensures a * b >= b
  {
  }

  lemma ZeroIsSafe(p: Parts)
    requires WellFormed(p) && Coefficient(p) == 0
    ensures IsSafe(p)
  {
    assert HasValue(p, 0);
  }

  lemma WholeValue(p: Parts)
    requires WellFormed(p) && Scale(p) >= 0
    ensures IsSafe(p) <==> Coefficient(p) * Pow10(Scale(p)) <= MAX_COUNTER
  {
    var n := (if p.negative then -1 else 1) * (Coefficient(p) * Pow10(Scale(p)));
    assert Numerator(p) == n;
    assert HasValue(p, n);
    assert forall m: int :: HasValue(p, m) ==> m == n;
  }

  lemma QuotientValue(p: Parts)
    requires WellFormed(p) && Scale(p) < 0
    ensures IsSafe(p) <==> Coefficient(p) % Pow10(-Scale(p)) == 0 && Coefficient(p) / Pow10(-Scale(p)) <= MAX_COUNTER
  {
    var (c, d) := (Coefficient(p), Denominator(p));
    var sign := if p.negative then -1 else 1;
    assert Numerator(p) == sign * c;
    if c % d == 0 {
      var n := sign * (c / d);
      assert n * d == sign * c by {
        SignedQuotient(sign, c, d);
      }
      assert HasValue(p, n);
      forall m: int | HasValue(p, m)
        ensures m == n
      {
        SameMultiple(m, n, d);
      }
    } else {
      forall m: int
        ensures !HasValue(p, m)
      {
        if HasValue(p, m) {
          ExactQuotient(c, d, sign * m);
        }
      }
    }
  }

  lemma SignedQuotient(sign: int, c: nat, d: nat)
    requires 0 < d && c % d == 0 && (sign == 1 || sign == -1)
    ensures sign * (c / d) * d == sign * c
  {
    assert c == c / d * d;
  }

  lemma SameMultiple(m: int, n: int, d: nat)
    requires 0 < d && m * d == n * d
    ensures m == n
  {
    assert (m - n) * d == 0;
    Multiples(d, m - n);
  }

  lemma ExactQuotient(c: nat, d: nat, m: int)
    requires 0 < d && m * d == c
    ensures c % d == 0
  {
    assert (m - c / d) * d == c % d;
    Multiples(d, m - c / d);
  }

  // Short enough, a number, and exactly a safe integer.
  ghost predicate Denotes(token: string) {
    |token| <= 128 && exists p, mark :: Spells(token, p, mark) && IsSafe(p)
  }

  // For every token: accepted exactly if it is short enough, matches the number pattern, and denotes an
  // integer of magnitude at most 2^53 - 1, whatever its fraction and exponent look like.
  method IsSafeInteger(token: string) returns (ok: bool)
    ensures ok <==> Denotes(token)
  {
    if |token| > 128 {
      return false;
    }
    var parts := MatchNumber(token);
    if parts.None? {
      forall p, mark | Spells(token, p, mark)
        ensures false
      {
        MatchIsComplete(token, p, mark);
      }
      return false;
    }
    var p := parts.value;
    ghost var mark := MatchIsSound(token);
    SpelledLength(token, p, mark);
    ok := DecideParts(p);
    forall q, m | Spells(token, q, m)
      ensures q == p
    {
      MatchIsComplete(token, q, m);
    }
  }

  method DecideParts(p: Parts) returns (ok: bool)
    requires WellFormed(p) && |p.whole| + |p.fraction| <= 128
    ensures ok <==> IsSafe(p)
  {
    var coefficient := Natural(p.whole + p.fraction);
    if coefficient == 0 {
      ZeroIsSafe(p);
      return true;
    }
    var exponent := 0;
    if p.exponent != "" {
      exponent := ParseInt32(ExponentOf(p));
      if exponent > 256 || exponent < -256 {
        if ExponentOf(p) > 256 {
          TooLarge(p);
        } else {
          TooSmall(p);
        }
        return false;
      }
    }
    var scale := exponent - |p.fraction|;
    if scale > 16 || scale < -128 {
      if scale > 16 {
        TooLarge(p);
      } else {
        TooSmall(p);
      }
      return false;
    }
    if scale >= 0 {
      WholeValue(p);
      coefficient := coefficient * Pow10(scale);
    } else {
      QuotientValue(p);
      var divisor := Pow10(-scale);
      var remainder := coefficient % divisor;
      coefficient := coefficient / divisor;
      if remainder != 0 {
        return false;
      }
    }
    return coefficient <= MAX_COUNTER;
  }
}
