/** Swift's decimal rendering of an `Int` (string interpolation `"\(n)"`) and its
    parsing initialiser `Int(_: String)`, on a 64-bit platform. */
module SwiftInt {
  import opened Wrappers
  import opened Arith

  const IntMin: int := -0x8000_0000_0000_0000
  const IntMax: int := 0x7FFF_FFFF_FFFF_FFFF

  /** The values a Swift `Int` can hold. */
  predicate InIntRange(n: int) {
    IntMin <= n <= IntMax
  }

  predicate IsDigit(c: char) {
    '0' <= c <= '9'
  }

  predicate AllDigits(s: string) {
    forall i :: 0 <= i < |s| ==> IsDigit(s[i])
  }

  function DigitValue(c: char): (d: nat)
    requires IsDigit(c)
    ensures d < 10
  {
    c as int - '0' as int
  }

  function DigitChar(d: nat): (c: char)
    requires d < 10
    ensures IsDigit(c) && DigitValue(c) == d
  {
    ('0' as int + d) as char
  }

  /** The value of a string of decimal digits, most significant first. */
  function DigitsValue(s: string): nat
    requires AllDigits(s)
    decreases |s|
  {
    if s == [] then 0 else DigitsValue(s[..|s| - 1]) * 10 + DigitValue(s[|s| - 1])
  }

  /** The decimal digits of `n` without leading zeros ("0" for zero). */
  function NatToString(n: nat): (s: string)
    ensures |s| > 0 && AllDigits(s)
    ensures s[0] == '0' <==> n == 0
    decreases n
  {
    if n < 10 then [DigitChar(n)] else NatToString(n / 10) + [DigitChar(n % 10)]
  }

  /** `"\(n)"`: a minus sign for negative values, then the digits of the magnitude. */
  function IntToString(n: int): (s: string)
    ensures |s| > 0
    ensures s[0] == '-' <==> n < 0
  {
    if n < 0 then "-" + NatToString(-n) else NatToString(n)
  }

  /** The integer a decimal literal denotes, without a range check: an optional
      '+' or '-', then at least one ASCII digit, and nothing else. */
  function ParseDecimal(s: string): (r: Option<int>)
    ensures r.Some? ==> |s| > 0
  {
    var negative := |s| > 0 && s[0] == '-';
    var digits := if |s| > 0 && (s[0] == '+' || s[0] == '-') then s[1..] else s;
    if digits == [] || !AllDigits(digits) then None
    else
      var magnitude: int := DigitsValue(digits);
      Some(if negative then -magnitude else magnitude)
  }

  /** `Int(s)`: a decimal literal whose value fits an `Int`; anything else is `nil`. */
  function ParseInt(s: string): (r: Option<int>)
    ensures r.Some? ==> InIntRange(r.value)
    ensures r.Some? ==> ParseDecimal(s) == r
  {
    match ParseDecimal(s)
    case Some(v) => if InIntRange(v) then Some(v) else None
    case None => None
  }

  lemma {:induction false} DigitsValueSnoc(s: string, c: char)
    requires AllDigits(s) && IsDigit(c)
    ensures AllDigits(s + [c]) && DigitsValue(s + [c]) == DigitsValue(s) * 10 + DigitValue(c)
  {
    assert (s + [c])[..|s|] == s;
  }

  /** Reading back the digits of `n` gives `n`. */
  lemma {:induction false} NatToStringValue(n: nat)
    ensures DigitsValue(NatToString(n)) == n
    decreases n
  {
    if n < 10 {
      assert NatToString(n) == [] + [DigitChar(n)];
      DigitsValueSnoc([], DigitChar(n));
    } else {
      NatToStringValue(n / 10);
      DigitsValueSnoc(NatToString(n / 10), DigitChar(n % 10));
    }
  }

  /** Rendering then parsing without a range check gives the original integer. */
  lemma DecimalRoundTrip(n: int)
    ensures ParseDecimal(IntToString(n)) == Some(n)
  {
    var s := IntToString(n);
    if n < 0 {
      var digits := NatToString(-n);
      NatToStringValue(-n);
      assert s == "-" + digits;
      assert s[1..] == digits;
      assert s[0] == '-';
    } else {
      NatToStringValue(n);
      assert s == NatToString(n);
      assert s[0] != '+' && s[0] != '-';
    }
  }

  /** `Int("\(n)") == n` for every `Int` value `n`. */
  lemma ParseIntRoundTrip(n: int)
    requires InIntRange(n)
    ensures ParseInt(IntToString(n)) == Some(n)
  {
    DecimalRoundTrip(n);
  }

  /** Distinct integers render to distinct strings. */
  lemma IntToStringInjective(a: int, b: int)
    ensures IntToString(a) == IntToString(b) ==> a == b
  {
    DecimalRoundTrip(a);
    DecimalRoundTrip(b);
  }

  /** A string `"\(n)"` followed by a fixed suffix still determines `n`; used for
      messages that embed a number and then go on. */
  lemma {:induction false} IntToStringPrefixFree(a: int, b: int, x: string, y: string)
    requires IntToString(a) + x == IntToString(b) + y
    requires x == [] || !IsDigit(x[0])
    requires y == [] || !IsDigit(y[0])
    ensures a == b && x == y
  {
    var sa, sb := IntToString(a), IntToString(b);
    if |sa| < |sb| {
      var c := (sa + x)[|sa|];
      assert c == sb[|sa|];
      IntToStringTailDigits(b, |sa|);
      assert false;
    } else if |sb| < |sa| {
      var c := (sb + y)[|sb|];
      assert c == sa[|sb|];
      IntToStringTailDigits(a, |sb|);
      assert false;
    } else {
      assert sa == (sa + x)[..|sa|] == (sb + y)[..|sb|] == sb;
      IntToStringInjective(a, b);
      assert x == (sa + x)[|sa|..] == (sb + y)[|sb|..] == y;
    }
  }

  /** Every character of `"\(n)"` after the first is a digit. */
  lemma IntToStringTailDigits(n: int, k: nat)
    requires 0 < k < |IntToString(n)|
    ensures IsDigit(IntToString(n)[k])
  {
    if n < 0 {
      assert IntToString(n)[k] == NatToString(-n)[k - 1];
    }
  }

  function Pow10(k: nat): (p: nat)
    ensures p > 0
  {
    if k == 0 then 1 else 10 * Pow10(k - 1)
  }

  lemma {:induction false} Pow10Monotone(j: nat, k: nat)
    requires j <= k
    ensures Pow10(j) <= Pow10(k)
    decreases k
  {
    if j < k { Pow10Monotone(j, k - 1); }
  }

  /** A string of `k` digits is worth less than `10^k`. */
  lemma {:induction false} DigitsValueBound(s: string)
    requires AllDigits(s)
    ensures DigitsValue(s) < Pow10(|s|)
    decreases |s|
  {
    if s != [] {
      DigitsValueBound(s[..|s| - 1]);
    }
  }

  /** A string of digits that does not start with '0' is worth at least `10^(k-1)`. */
  lemma {:induction false} DigitsValueLeading(s: string)
    requires AllDigits(s) && |s| > 0 && s[0] != '0'
    ensures Pow10(|s| - 1) <= DigitsValue(s)
    decreases |s|
  {
    if |s| > 1 {
      var init := s[..|s| - 1];
      assert init[0] == s[0];
      DigitsValueLeading(init);
    }
  }

  /** The value of a concatenation of digit strings. */
  lemma {:induction false} DigitsValueAppend(s: string, t: string)
    requires AllDigits(s) && AllDigits(t)
    ensures AllDigits(s + t) && DigitsValue(s + t) == DigitsValue(s) * Pow10(|t|) + DigitsValue(t)
    decreases |t|
  {
    if t == [] {
      assert s + t == s;
    } else {
      var init, c := t[..|t| - 1], t[|t| - 1];
      assert t == init + [c];
      assert s + t == (s + init) + [c];
      DigitsValueAppend(s, init);
      DigitsValueSnoc(s + init, c);
      DigitsValueSnoc(init, c);
      PlaceValue(DigitsValue(s), Pow10(|init|), DigitsValue(init), DigitValue(c), 10);
    }
  }

  /** A digit string without a leading zero is exactly how its value is written. */
  lemma {:induction false} NatToStringCanonical(s: string)
    requires AllDigits(s) && |s| > 0 && (s[0] != '0' || |s| == 1)
    ensures NatToString(DigitsValue(s)) == s
    decreases |s|
  {
    var n := DigitsValue(s);
    if |s| == 1 {
      assert s == [] + [s[0]];
      DigitsValueSnoc([], s[0]);
      assert DigitChar(DigitValue(s[0])) == s[0];
    } else {
      var init, c := s[..|s| - 1], s[|s| - 1];
      assert init[0] == s[0];
      DigitsValueLeading(init);
      NatToStringCanonical(init);
      assert n == DigitsValue(init) * 10 + DigitValue(c);
      assert n / 10 == DigitsValue(init) && n % 10 == DigitValue(c);
      assert DigitChar(DigitValue(c)) == c;
      assert s == init + [c];
    }
  }

  /** The written form of `n` has `k + 1` digits exactly when `10^k <= n < 10^(k+1)`. */
  lemma NatToStringLength(n: nat, k: nat)
    requires Pow10(k) <= n < Pow10(k + 1)
    ensures |NatToString(n)| == k + 1
  {
    var s := NatToString(n);
    NatToStringValue(n);
    DigitsValueBound(s);
    if n == 0 {
    } else {
      DigitsValueLeading(s);
      if |s| < k + 1 { Pow10Monotone(|s|, k); }
      if |s| > k + 1 { Pow10Monotone(k + 1, |s| - 1); }
    }
  }
}
