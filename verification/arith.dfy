/** Small facts about integer multiplication and remainder that the solver does not find alone. */
module Arith {
  lemma {:induction false} MulAtLeast(d: int, k: int)
    requires d > 0 && k >= 1
    ensures d * k >= d
    decreases k
  {
    if k > 1 {
      MulAtLeast(d, k - 1);
      assert d * k == d * (k - 1) + d;
    }
  }

  lemma ModUnique(a: int, d: int, q: int, r: int)
    requires d > 0 && 0 <= r < d && a == d * q + r
    ensures a % d == r
  {
    var q', r' := a / d, a % d;
    assert a == d * q' + r';
    if q > q' {
      assert d * q - d * q' == d * (q - q');
      MulAtLeast(d, q - q');
    } else if q < q' {
      assert d * q' - d * q == d * (q' - q);
      MulAtLeast(d, q' - q);
    }
  }

  lemma ModShift(b: nat, d: nat)
    requires d > 0
    ensures (d + b) % d == b % d
  {
    var q := b / d;
    assert d + b == d * (q + 1) + b % d;
    ModUnique(d + b, d, q + 1, b % d);
  }

  /** Floor division leaves a remainder below the divisor. */
  lemma DivBounds(a: int, b: int)
    requires a >= 0 && b > 0
    ensures b * (a / b) <= a < b * (a / b) + b
  {
  }

  lemma MulAssoc8(d: int, r: int)
    ensures (8 * d) * r == 8 * (d * r)
  {
  }
}
