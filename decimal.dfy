/**
 * Decimal rendering of non-negative integers, the way `n + ''` prints a
 * millisecond timestamp or a day of the month, and `slice(-k)` on the result.
 */
module Decimal {

  predicate IsDigit(c: char) {
    '0' <= c <= '9'
  }

  predicate AllDigits(s: string) {
    forall i :: 0 <= i < |s| ==> IsDigit(s[i])
  }

  function DigitChar(d: nat): (c: char)
    requires d < 10
    ensures IsDigit(c) && c as int - '0' as int == d
  {
    ('0' as int + d) as char
  }

  function Pow10(k: nat): (p: nat)
    ensures p >= 1
    ensures k >= 1 ==> p >= 10
  {
    if k == 0 then 1 else 10 * Pow10(k - 1)
  }

  /** The decimal digits of `n`, most significant first, with no leading zero. */
  function DecimalString(n: nat): (s: string)
    ensures 1 <= |s| && AllDigits(s)
    ensures |s| > 1 ==> s[0] != '0'
    decreases n
  {
    if n < 10 then [DigitChar(n)] else DecimalString(n / 10) + [DigitChar(n % 10)]
  }

  /** The number a string of decimal digits denotes (leading zeros allowed). */
  function DigitsValue(s: string): nat
    requires AllDigits(s)
  {
    if s == [] then 0
    else 10 * DigitsValue(s[..|s| - 1]) + (s[|s| - 1] as int - '0' as int)
  }

  /**
   * `s.slice(-k)` for k >= 1: the last k characters of s, or all of s when it
   * is shorter.
   */
  function LastChars(s: string, k: nat): (r: string)
    ensures |r| == if |s| < k then |s| else k
    ensures r == s[|s| - |r|..]
  {
    if |s| <= k then s else s[|s| - k..]
  }

  lemma DigitsValueSnoc(s: string, c: char)
    requires AllDigits(s) && IsDigit(c)
    ensures AllDigits(s + [c])
    ensures DigitsValue(s + [c]) == 10 * DigitsValue(s) + (c as int - '0' as int)
  {
  }

  /** Reading back the digits that DecimalString prints gives the number again. */
  lemma {:induction false} DecimalStringValue(n: nat)
    ensures DigitsValue(DecimalString(n)) == n
    decreases n
  {
    if n < 10 {
      DigitsValueSnoc([], DigitChar(n));
    } else {
      DecimalStringValue(n / 10);
      DigitsValueSnoc(DecimalString(n / 10), DigitChar(n % 10));
    }
  }

  /** DecimalString is injective: different numbers print differently. */
  lemma DecimalStringInjective(m: nat, n: nat)
    requires DecimalString(m) == DecimalString(n)
    ensures m == n
  {
    DecimalStringValue(m);
    DecimalStringValue(n);
  }

  /** A positive multiple of m is at least m. */
  lemma MulAtLeast(a: int, m: int)
    requires a >= 1 && m > 0
    ensures a * m >= m
  {
  }

  /** Division with remainder is unique. */
  lemma DivModUnique(n: int, m: int, q: int, r: int)
    requires m > 0 && 0 <= r < m && n == q * m + r
    ensures n / m == q && n % m == r
  {
    var q', r' := n / m, n % m;
    assert n == q' * m + r';
    if q > q' {
      assert q * m == (q - q') * m + q' * m;
      MulAtLeast(q - q', m);
    } else if q < q' {
      assert q' * m == (q' - q) * m + q * m;
      MulAtLeast(q' - q, m);
    }
  }

  /** Keeping k + 1 low-order digits of 10x + d keeps k of x, then d. */
  lemma ModPow10Step(x: nat, d: nat, k: nat)
    requires d < 10
    ensures (10 * x + d) % Pow10(k + 1) == 10 * (x % Pow10(k)) + d
  {
    var p := Pow10(k);
    var a, b := x / p, x % p;
    assert 10 * x + d == a * (10 * p) + (10 * b + d);
    DivModUnique(10 * x + d, 10 * p, a, 10 * b + d);
  }

  lemma LastCharsSnoc(t: string, c: char, k: nat)
    ensures LastChars(t + [c], k + 1) == LastChars(t, k) + [c]
  {
  }

  /**
   * The last k characters of a digit string denote its value mod 10^k:
   * slicing keeps exactly the k low-order digits.
   */
  lemma {:induction false} LastCharsDigitsValue(s: string, k: nat)
    requires AllDigits(s)
    ensures AllDigits(LastChars(s, k))
    ensures DigitsValue(LastChars(s, k)) == DigitsValue(s) % Pow10(k)
    decreases |s|
  {
    if k == 0 {
      assert LastChars(s, k) == [];
      DivModUnique(DigitsValue(s), 1, DigitsValue(s), 0);
    } else if s == [] {
      assert LastChars(s, k) == [];
      DivModUnique(0, Pow10(k), 0, 0);
    } else {
      var t, c := s[..|s| - 1], s[|s| - 1];
      assert s == t + [c];
      LastCharsDigitsValue(t, k - 1);
      LastCharsDigitsStep(t, c, k);
    }
  }

  lemma LastCharsDigitsStep(t: string, c: char, k: nat)
    requires AllDigits(t) && IsDigit(c) && k >= 1
    requires AllDigits(LastChars(t, k - 1))
    requires DigitsValue(LastChars(t, k - 1)) == DigitsValue(t) % Pow10(k - 1)
    ensures AllDigits(t + [c]) && AllDigits(LastChars(t + [c], k))
    ensures DigitsValue(LastChars(t + [c], k)) == DigitsValue(t + [c]) % Pow10(k)
  {
    var j := k - 1;
    var u := LastChars(t, j);
    var d, x := c as int - '0' as int, DigitsValue(t);
    LastCharsSnoc(t, c, j);
    DigitsValueSnoc(u, c);
    DigitsValueSnoc(t, c);
    ModPow10Step(x, d, j);
    assert LastChars(t + [c], k) == u + [c];
    assert DigitsValue(u + [c]) == 10 * (x % Pow10(j)) + d == (10 * x + d) % Pow10(k);
  }

  /** The last k characters of the decimal string of n denote n mod 10^k. */
  lemma LastCharsValue(n: nat, k: nat)
    ensures AllDigits(LastChars(DecimalString(n), k))
    ensures DigitsValue(LastChars(DecimalString(n), k)) == n % Pow10(k)
  {
    LastCharsDigitsValue(DecimalString(n), k);
    DecimalStringValue(n);
  }

  /** For k >= 1, the decimal string of n is longer than k digits exactly when n >= 10^k. */
  lemma {:induction false} DecimalStringLonger(n: nat, k: nat)
    requires k >= 1
    ensures |DecimalString(n)| > k <==> n >= Pow10(k)
    decreases n
  {
    if n >= 10 {
      if k >= 2 {
        DecimalStringLonger(n / 10, k - 1);
        DivModUnique(n, 10, n / 10, n % 10);
        assert n / 10 >= Pow10(k - 1) <==> n >= Pow10(k);
      }
    }
  }
}
