/** Facts about natural-number division and remainder by a variable divisor,
    which the solver does not find on its own. */
module IntArith {

  /** d·c is at least c for every positive d. */
  lemma {:induction false} MulAtLeast(d: nat, c: nat)
    requires d >= 1
    ensures d * c >= c
  {
    if d > 1 {
      MulAtLeast(d - 1, c);
      assert d * c == (d - 1) * c + c;
    }
  }

  /** Multiplication by a natural number is monotone. */
  lemma {:induction false} MulMonotone(a: nat, b: nat, c: nat)
    requires a <= b
    ensures a * c <= b * c
    decreases b - a
  {
    if a < b {
      MulMonotone(a, b - 1, c);
      assert b * c == (b - 1) * c + c;
    }
  }

  /** The quotient and remainder are the q and r of any a = q·c + r with r < c. */
  lemma DivModUnique(a: nat, q: nat, r: nat, c: nat)
    requires c >= 1 && r < c && a == q * c + r
    ensures a / c == q && a % c == r
  {
    var q', r' := a / c, a % c;
    assert a == q' * c + r';
    if q > q' {
      assert (q - q') * c == r' - r;
      MulAtLeast(q - q', c);
    } else if q' > q {
      assert (q' - q) * c == r - r';
      MulAtLeast(q' - q, c);
    }
  }

  /** Division by a positive number is monotone. */
  lemma DivMonotone(a: nat, b: nat, c: nat)
    requires c >= 1 && a <= b
    ensures a / c <= b / c
  {
    var qa, qb := a / c, b / c;
    assert a == qa * c + a % c && b == qb * c + b % c;
    if qa > qb {
      assert (qa - qb) * c == qa * c - qb * c;
      MulAtLeast(qa - qb, c);
    }
  }

  /** Adding the divisor adds one to the quotient. */
  lemma DivAddDivisor(a: nat, c: nat)
    requires c >= 1
    ensures (a + c) / c == a / c + 1
  {
    assert a == (a / c) * c + a % c;
    assert a + c == (a / c + 1) * c + a % c;
    DivModUnique(a + c, a / c + 1, a % c, c);
  }

  /** Sample k + 1 belongs to the channel after sample k's, wrapping to 0
      after the last of c channels. */
  lemma NextRemainder(k: nat, c: nat)
    requires c >= 1
    ensures (k + 1) % c == if k % c + 1 == c then 0 else k % c + 1
  {
    var q, r := k / c, k % c;
    assert k == q * c + r;
    if r + 1 == c {
      assert k + 1 == (q + 1) * c + 0;
      DivModUnique(k + 1, q + 1, 0, c);
    } else {
      DivModUnique(k + 1, q, r + 1, c);
    }
  }
}
