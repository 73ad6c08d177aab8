/**
  `_canonical_decimal_str` of hosted/a2a_economic_authority/core.py: plain-point notation with trailing
  zeros removed, so that one amount has one spelling.
 */
module Canonical {
  import opened Common

  /** A finite decimal number: a sign, a coefficient and a power of ten. */
  datatype Decimal = Decimal(neg: bool, coef: nat, exp: int)

  function Digit(d: nat): char
    requires d < 10
  {
    "0123456789"[d]
  }

  function Digits(c: nat): (s: string)
    ensures |s| > 0
  {
    if c < 10 then [Digit(c)] else Digits(c / 10) + [Digit(c % 10)]
  }

  function Zeros(n: nat): string {
    if n == 0 then "" else Zeros(n - 1) + "0"
  }

  /** The digits of `c` before, and the `n` digits after, the point of `c / 10^n`. */
  function Whole(c: nat, n: nat): (s: string)
    ensures |s| > 0
  {
    if n == 0 then Digits(c) else Whole(c / 10, n - 1)
  }

  function Fraction(c: nat, n: nat): (s: string)
    ensures |s| == n
  {
    if n == 0 then "" else Fraction(c / 10, n - 1) + [Digit(c % 10)]
  }

  function Text(c: nat, n: nat): string {
    if n == 0 then Digits(c) else Whole(c, n) + "." + Fraction(c, n)
  }

  function Sign(neg: bool): string {
    if neg then "-" else ""
  }

  /** Decimal's own plain-point format. */
  function FormatF(d: Decimal): string {
    Sign(d.neg) + if d.exp < 0 then Text(d.coef, -d.exp)
                  else if d.coef == 0 then "0"
                  else Digits(d.coef) + Zeros(d.exp)
  }

  function RStrip(s: string, c: char): string {
    if s != "" && s[|s| - 1] == c then RStrip(s[..|s| - 1], c) else s
  }

  function CanonicalDecimalStr(d: Decimal): string {
    var text := FormatF(d);
    var stripped := if '.' in text then RStrip(RStrip(text, '0'), '.') else text;
    if stripped == "" then "0" else stripped
  }

  // ---- What the spelling is ----

  /** `c` times ten to the `k`. */
  function Shift(c: nat, k: nat): (r: nat)
    ensures r == 0 <==> c == 0
  {
    if k == 0 then c else 10 * Shift(c, k - 1)
  }

  function Reduced(c: nat, n: nat): (nat, nat) {
    if n > 0 && c % 10 == 0 then Reduced(c / 10, n - 1) else (c, n)
  }

  /** The same number with as few decimals as it needs. */
  function Normal(d: Decimal): (nat, nat) {
    if d.exp < 0 then Reduced(d.coef, -d.exp) else (Shift(d.coef, d.exp), 0)
  }

  predicate IsDigit(c: char) {
    '0' <= c <= '9'
  }

  lemma {:induction false} DigitsAreDigits(c: nat)
    ensures forall i :: 0 <= i < |Digits(c)| ==> IsDigit(Digits(c)[i])
  {
    if c >= 10 {
      DigitsAreDigits(c / 10);
    }
  }

  lemma {:induction false} PartsAreDigits(c: nat, n: nat)
    ensures forall i :: 0 <= i < |Whole(c, n)| ==> IsDigit(Whole(c, n)[i])
    ensures forall i :: 0 <= i < n ==> IsDigit(Fraction(c, n)[i])
  {
    if n == 0 {
      DigitsAreDigits(c);
    } else {
      PartsAreDigits(c / 10, n - 1);
    }
  }

  lemma {:induction false} ShiftedDigits(c: nat, k: nat)
    requires c > 0
    ensures Digits(c) + Zeros(k) == Digits(Shift(c, k))
  {
    if k > 0 {
      ShiftedDigits(c, k - 1);
      TenTimes(Shift(c, k - 1));
      assert Digits(c) + Zeros(k) == Digits(c) + Zeros(k - 1) + "0";
    }
  }

  lemma TenTimes(d: nat)
    requires d > 0
    ensures Digits(10 * d) == Digits(d) + "0"
  {
    assert 10 * d / 10 == d && 10 * d % 10 == 0;
  }

  lemma RStripStep(s: string, c: char)
    ensures RStrip(s + [c], c) == RStrip(s, c)
  {
  }

  /** A last decimal of zero is one more zero than the number needs. */
  lemma EndsInZero(c: nat, n: nat)
    requires n > 0 && c % 10 == 0
    ensures Text(c, n) == (if n == 1 then Digits(c / 10) + "." else Text(c / 10, n - 1)) + ['0']
  {
    hide Digits;
    assert Whole(c, n) + "." + Fraction(c, n) == Whole(c / 10, n - 1) + "." + Fraction(c / 10, n - 1) + [Digit(0)];
  }

  lemma EndsInDigit(c: nat, n: nat)
    ensures |Text(c, n)| > 0 && Text(c, n)[|Text(c, n)| - 1] == Digit(c % 10)
  {
  }

  /** Stripping zeros, then the point, from a number with decimals leaves it reduced. */
  lemma {:induction false} StripReduces(sign: string, c: nat, n: nat)
    requires n > 0
    ensures var (c', n') := Reduced(c, n);
            RStrip(RStrip(sign + Text(c, n), '0'), '.') == sign + Text(c', n')
    decreases n
  {
    hide Text, Digits;
    if c % 10 == 0 {
      EndsInZero(c, n);
      if n == 1 {
        LastZero(sign, c / 10);
        assert Text(c / 10, 0) == Digits(c / 10) by { NoDecimals(c / 10); }
        assert sign + Text(c, n) == sign + Digits(c / 10) + "." + ['0'];
      } else {
        assert sign + Text(c, n) == sign + Text(c / 10, n - 1) + ['0'];
        RStripStep(sign + Text(c / 10, n - 1), '0');
        StripReduces(sign, c / 10, n - 1);
      }
    } else {
      EndsInDigit(c, n);
    }
  }

  lemma NoDecimals(c: nat)
    ensures Text(c, 0) == Digits(c)
  {
  }

  lemma RStripNone(s: string, c: char)
    requires s != "" && s[|s| - 1] != c
    ensures RStrip(s, c) == s
  {
  }

  /** The point goes with the last zero after it. */
  lemma LastZero(sign: string, c: nat)
    ensures RStrip(RStrip(sign + Digits(c) + "." + ['0'], '0'), '.') == sign + Digits(c)
  {
    hide Digits, RStrip, Text;
    EndsInDigit(c, 0);
    NoDecimals(c);
    var text := sign + Digits(c);
    assert text + "." == text + ['.'];
    RStripStep(text + ".", '0');
    RStripNone(text + ".", '0');
    RStripStep(text, '.');
    RStripNone(text, '.');
  }

  lemma TextIsLong(c: nat, n: nat)
    ensures |Text(c, n)| > 0
  {
  }

  /** The canonical string spells the reduced number. */
  lemma CanonicalIsNormal(d: Decimal)
    ensures CanonicalDecimalStr(d) == Sign(d.neg) + Text(Normal(d).0, Normal(d).1)
  {
    TextIsLong(Normal(d).0, Normal(d).1);
    if d.exp < 0 {
      StripReduces(Sign(d.neg), d.coef, -d.exp);
      assert FormatF(d)[|Sign(d.neg)| + |Whole(d.coef, -d.exp)|] == '.';
    } else {
      if d.coef > 0 {
        ShiftedDigits(d.coef, d.exp);
      } else {
        assert Digits(0) == "0";
      }
      assert FormatF(d) == Sign(d.neg) + Digits(Shift(d.coef, d.exp));
      DigitsAreDigits(Shift(d.coef, d.exp));
    }
  }

  // ---- One spelling, one number ----

  lemma DigitsLength(c: nat)
    ensures |Digits(c)| == 1 <==> c < 10
    ensures c >= 10 ==> Digits(c)[..|Digits(c)| - 1] == Digits(c / 10)
    ensures Digits(c)[|Digits(c)| - 1] == Digit(c % 10)
  {
  }

  lemma {:induction false} DigitsInjective(a: nat, b: nat)
    requires Digits(a) == Digits(b)
    ensures a == b
  {
    DigitsLength(a);
    DigitsLength(b);
    assert a % 10 == b % 10;
    if a >= 10 {
      DigitsInjective(a / 10, b / 10);
    }
  }

  lemma {:induction false} PartsInjective(a: nat, b: nat, n: nat)
    requires Whole(a, n) == Whole(b, n) && Fraction(a, n) == Fraction(b, n)
    ensures a == b
  {
    if n == 0 {
      DigitsInjective(a, b);
    } else {
      assert Fraction(a, n)[..n - 1] == Fraction(a / 10, n - 1) && Fraction(b, n)[..n - 1] == Fraction(b / 10, n - 1);
      PartsInjective(a / 10, b / 10, n - 1);
      assert Fraction(a, n)[n - 1] == Digit(a % 10) && Fraction(b, n)[n - 1] == Digit(b % 10);
    }
  }

  /** The only point is the one before the decimals. */
  lemma PointPlace(c: nat, n: nat, i: nat)
    requires i < |Text(c, n)|
    ensures Text(c, n)[i] == '.' <==> n > 0 && i == |Text(c, n)| - 1 - n
    ensures Text(c, n)[i] != '-'
  {
    PartsAreDigits(c, n);
    if n == 0 {
      DigitsAreDigits(c);
    } else if i > |Whole(c, n)| {
      assert Text(c, n)[i] == Fraction(c, n)[i - |Whole(c, n)| - 1];
    }
  }

  lemma TextInjective(a: nat, n: nat, b: nat, m: nat)
    requires Text(a, n) == Text(b, m)
    ensures a == b && n == m
  {
    var text := Text(a, n);
    if n > 0 {
      PointPlace(a, n, |text| - 1 - n);
      PointPlace(b, m, |text| - 1 - n);
    } else if m > 0 {
      PointPlace(b, m, |text| - 1 - m);
      PointPlace(a, n, |text| - 1 - m);
    }
    assert n == m;
    if n == 0 {
      DigitsInjective(a, b);
    } else {
      assert Whole(a, n) == text[..|text| - 1 - n] && Whole(b, n) == text[..|text| - 1 - n];
      assert Fraction(a, n) == text[|text| - n..] && Fraction(b, n) == text[|text| - n..];
      PartsInjective(a, b, n);
    }
  }

  lemma SignedInjective(neg: bool, a: nat, n: nat, neg': bool, b: nat, m: nat)
    requires Sign(neg) + Text(a, n) == Sign(neg') + Text(b, m)
    ensures neg == neg' && a == b && n == m
  {
    var s, t := Sign(neg) + Text(a, n), Sign(neg') + Text(b, m);
    TextIsLong(a, n);
    TextIsLong(b, m);
    PointPlace(a, n, 0);
    PointPlace(b, m, 0);
    assert s[0] == (if neg then '-' else Text(a, n)[0]);
    assert t[0] == (if neg' then '-' else Text(b, m)[0]);
    assert s[|Sign(neg)|..] == Text(a, n) && t[|Sign(neg')|..] == Text(b, m);
    TextInjective(a, n, b, m);
  }

  // ---- Equal numbers ----

  /** The number in units of `10^m`. */
  function Units(d: Decimal, m: int): int
    requires m <= d.exp
  {
    if d.neg then 0 - Shift(d.coef, d.exp - m) else Shift(d.coef, d.exp - m)
  }

  /** Decimal's `==`. */
  predicate SameValue(a: Decimal, b: Decimal) {
    var m := Min(0, Min(a.exp, b.exp));
    Units(a, m) == Units(b, m)
  }

  lemma {:induction false} ShiftTwice(c: nat, j: nat, k: nat)
    ensures Shift(Shift(c, j), k) == Shift(c, j + k)
  {
    if k > 0 {
      ShiftTwice(c, j, k - 1);
    }
  }

  lemma {:induction false} ReducedValue(c: nat, n: nat, k: nat)
    requires k >= n
    ensures var (c', n') := Reduced(c, n);
            && n' <= n && (n' > 0 ==> c' % 10 != 0)
            && Shift(c', k - n') == Shift(c, k - n)
    decreases n
  {
    if n > 0 && c % 10 == 0 {
      ReducedValue(c / 10, n - 1, k);
      ShiftTwice(c / 10, 1, k - n);
      assert Shift(c / 10, 1) == c by { assert Shift(c / 10, 0) == c / 10; }
    }
  }

  /** The reduced form has the value it came from. */
  lemma NormalValue(d: Decimal, k: nat)
    requires d.exp + k >= 0
    ensures var (c, n) := Normal(d);
            && n <= k && (n > 0 ==> c % 10 != 0)
            && Shift(c, k - n) == Shift(d.coef, d.exp + k)
  {
    if d.exp < 0 {
      ReducedValue(d.coef, -d.exp, k);
    } else {
      ShiftTwice(d.coef, d.exp, k);
    }
  }

  /** Two reduced forms of one value are the same. */
  lemma {:induction false} ReducedUnique(a: nat, n: nat, b: nat, m: nat, k: nat)
    requires n <= k && m <= k && (n > 0 ==> a % 10 != 0) && (m > 0 ==> b % 10 != 0)
    requires Shift(a, k - n) == Shift(b, k - m)
    ensures a == b && n == m
    decreases k
  {
    if n < k && m < k {
      ReducedUnique(a, n, b, m, k - 1);
    }
  }

  /** Two amounts have one spelling exactly when they are equal, but that the two zeros are told apart. */
  lemma CanonicalExactly(a: Decimal, b: Decimal)
    ensures CanonicalDecimalStr(a) == CanonicalDecimalStr(b)
       <==> SameValue(a, b) && (a.coef == 0 ==> a.neg == b.neg)
  {
    hide CanonicalDecimalStr, Normal, Shift, Text;
    var m := Min(0, Min(a.exp, b.exp));
    NormalValue(a, -m);
    NormalValue(b, -m);
    CanonicalIsNormal(a);
    CanonicalIsNormal(b);
    if CanonicalDecimalStr(a) == CanonicalDecimalStr(b) {
      SignedInjective(a.neg, Normal(a).0, Normal(a).1, b.neg, Normal(b).0, Normal(b).1);
    }
    if Shift(a.coef, a.exp - m) == Shift(b.coef, b.exp - m) {
      ReducedUnique(Normal(a).0, Normal(a).1, Normal(b).0, Normal(b).1, -m);
    }
  }

  /** Negative zero equals zero, and is spelt differently. */
  lemma NegativeZero()
    ensures SameValue(Decimal(true, 0, 0), Decimal(false, 0, 0))
    ensures CanonicalDecimalStr(Decimal(true, 0, 0)) != CanonicalDecimalStr(Decimal(false, 0, 0))
  {
  }
}
