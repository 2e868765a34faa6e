/** Facts about `/` and `%` on naturals, used to read fields back out of a value built
    by placing digits side by side. */
module Arith {

  /** Appending one digit in base `base` to a value `a * p + b`. */
  lemma PlaceValue(a: nat, p: nat, b: nat, d: nat, base: nat)
    ensures (a * p + b) * base + d == a * (base * p) + (b * base + d)
  {
  }

  lemma MulMonotone(a: nat, b: nat, m: nat)
    requires a <= b
    ensures a * m <= b * m
  {
    var d := b - a;
    assert b * m == a * m + d * m;
  }

  /** Euclidean division is the only way to split `x` as `q * m + rem` with `rem < m`. */
  lemma DivModUnique(x: nat, m: nat, q: nat, rem: nat)
    requires m > 0 && rem < m && x == q * m + rem
    ensures x / m == q && x % m == rem
  {
    var q' := x / m;
    assert x == q' * m + x % m;
    if q' < q {
      MulMonotone(q' + 1, q, m);
    } else if q < q' {
      MulMonotone(q + 1, q', m);
    }
  }

  lemma DivBound(v: nat, m: nat, k: nat)
    requires m > 0 && v < k * m
    ensures v / m < k
  {
    var q := v / m;
    assert v == q * m + v % m;
    if q >= k { MulMonotone(k, q, m); }
  }
}
