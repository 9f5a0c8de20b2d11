/** `Math.round` applied to an exact rational `num / den`, the way the dashboards use it on
    small multiples of a price or of a member count. */
module JsMath {

  /** `Math.round(num / den)`: the integer nearest to `num / den`, a half going up. */
  function Round(num: int, den: int): (r: int)
    requires den > 0
    ensures 2 * den * r - den <= 2 * num < 2 * den * r + den
  {
    var q := (2 * num + den) / (2 * den);
    DivBounds(2 * num + den, 2 * den);
    q
  }

  /** The bounds Euclidean division puts on a quotient. */
  lemma DivBounds(a: int, m: int)
    requires m > 0
    ensures m * (a / m) <= a < m * (a / m) + m
  {
    assert a == m * (a / m) + a % m;
  }

  /** No other integer lies in the half-open interval around `num / den` that `Round`
      promises, so that promise pins the result down. */
  lemma RoundIsUnique(num: int, den: int, k: int)
    requires den > 0
    requires 2 * den * k - den <= 2 * num < 2 * den * k + den
    ensures k == Round(num, den)
  {
    var r := Round(num, den);
    assert 2 * den * r - 2 * den * k == 2 * den * (r - k);
    assert 2 * den * k - 2 * den * r == 2 * den * (k - r);
    if r > k {
      MulMonotone(2 * den, r - k);
    } else if r < k {
      MulMonotone(2 * den, k - r);
    }
  }

  lemma MulMonotone(a: int, b: int)
    requires a > 0 && b >= 1
    ensures a * b >= a
  {
  }

  /** `num / den` lies exactly halfway between two integers. */
  predicate IsTie(num: int, den: int)
    requires den > 0
  {
    (2 * num) % (2 * den) == den
  }

  /** Away from halves rounding commutes with negation, so the result does not depend on
      which way the rounding of a half would go. */
  lemma RoundIsOddOffTies(num: int, den: int)
    requires den > 0 && !IsTie(num, den)
    ensures Round(-num, den) == -Round(num, den)
  {
    var r := Round(num, den);
    if 2 * num == 2 * den * r - den {
      assert 2 * num == 2 * den * (r - 1) + den;
      ModOfMultiplePlus(2 * den, r - 1, den);
      assert false;
    }
    RoundIsUnique(-num, den, -r);
  }

  lemma ModOfMultiplePlus(m: int, a: int, b: int)
    requires m > 0 && 0 <= b < m
    ensures (m * a + b) % m == b
  {
    var x := m * a + b;
    DivBounds(x, m);
    var q := x / m;
    assert m * q - m * a == m * (q - a);
    assert m * a - m * q == m * (a - q);
    if q > a {
      MulMonotone(m, q - a);
    } else if q < a {
      MulMonotone(m, a - q);
    }
    assert x == m * q + x % m;
  }

  /** An integer times 0.8 is never a half: 8n/10 has an even numerator over 10. */
  lemma EightTenthsNeverTie(n: int)
    ensures !IsTie(8 * n, 10)
  {
    var k := (16 * n) / 20;
    assert 16 * n == 20 * k + (16 * n) % 20;
  }

  /** An integer times 12 times 0.2 is never a half either. */
  lemma TwelveFifthsNeverTie(n: int)
    ensures !IsTie(24 * n, 10)
  {
    var k := (48 * n) / 20;
    assert 48 * n == 20 * k + (48 * n) % 20;
  }
}
