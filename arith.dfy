/** Facts of real arithmetic used by the scoring proofs.  Each is kept in a
    lemma of its own so that a proof sees only the products it needs. */
module RealArith {

  lemma MulNonNeg(a: real, b: real)
    requires 0.0 <= a && 0.0 <= b
    ensures 0.0 <= a * b
  {
  }

  lemma MulPos(a: real, b: real)
    requires 0.0 < a && 0.0 < b
    ensures 0.0 < a * b
  {
  }

  lemma MulMono(a: real, b: real, c: real)
    requires a <= b && 0.0 <= c
    ensures a * c <= b * c
  {
    MulNonNeg(b - a, c);
    assert (b - a) * c == b * c - a * c;
  }

  lemma MulStrict(a: real, b: real, c: real)
    requires a < b && 0.0 < c
    ensures a * c < b * c
  {
    MulPos(b - a, c);
    assert (b - a) * c == b * c - a * c;
  }

  lemma Distribute(a: real, b: real, c: real)
    ensures a * (b + c) == a * b + a * c
  {
  }

  lemma SquareFacts(q: real)
    requires 0.0 <= q
    ensures 0.0 <= q * q
    ensures q == 0.0 || 0.0 < q * q
    ensures 1.0 <= q * q <==> 1.0 <= q
  {
    if q == 0.0 {
      assert q * q == 0.0;
    } else if q < 1.0 {
      MulPos(q, q);
      MulStrict(q, 1.0, q);
    } else {
      MulPos(q, q);
      MulMono(1.0, q, q);
    }
  }

  lemma DivBounds(lo: real, hi: real, num: real, den: real)
    requires 0.0 < den
    ensures lo * den <= num ==> lo <= num / den
    ensures num <= hi * den ==> num / den <= hi
  {
    assert num / den * den == num;
    if num / den < lo {
      MulStrict(num / den, lo, den);
    }
    if hi < num / den {
      MulStrict(hi, num / den, den);
    }
  }

  /** One step of a weighted sum keeps it at least `lo` times the total weight. */
  lemma StepAtLeast(total: real, sum: real, l: real, v: real, lo: real, total': real, sum': real)
    requires lo * total <= sum && (lo <= v || l == 0.0) && 0.0 <= l
    requires total' == total + l && sum' == sum + v * l
    ensures lo * total' <= sum'
  {
    if l == 0.0 {
      assert v * l == 0.0 && lo * l == 0.0;
    } else {
      MulMono(lo, v, l);
    }
    Distribute(lo, total, l);
  }

  /** One step of a weighted sum keeps it at most `hi` times the total weight. */
  lemma StepAtMost(total: real, sum: real, l: real, v: real, hi: real, total': real, sum': real)
    requires sum <= hi * total && (v <= hi || l == 0.0) && 0.0 <= l
    requires total' == total + l && sum' == sum + v * l
    ensures sum' <= hi * total'
  {
    if l == 0.0 {
      assert v * l == 0.0 && hi * l == 0.0;
    } else {
      MulMono(v, hi, l);
    }
    Distribute(hi, total, l);
  }

  /** Dividing by a positive number keeps a strict upper bound. */
  lemma DivBelow(hi: real, num: real, den: real)
    requires 0.0 < den && num < hi * den
    ensures num / den < hi
  {
    assert num / den * den == num;
    if hi <= num / den {
      MulMono(hi, num / den, den);
    }
  }

  /** Dividing a shifted sum: `(num + c * den) / den == num / den + c`. */
  lemma DivShift(num: real, c: real, den: real)
    requires 0.0 < den
    ensures (num + c * den) / den == num / den + c
  {
    var q := num / den;
    assert q * den == num;
    assert (q + c) * den == q * den + c * den;
  }

  /** One step of two weighted sums whose values differ by `c` and whose
      weights agree keeps their difference at `c` times the total weight. */
  lemma StepShift(sum: real, sum0: real, total: real, v: real, v0: real, l: real, l0: real, c: real,
                  sum': real, sum0': real, total': real)
    requires sum == sum0 + c * total && v == v0 + c && l == l0
    requires sum' == sum + v * l && sum0' == sum0 + v0 * l0 && total' == total + l0
    ensures sum' == sum0' + c * total'
  {
    assert v * l == v0 * l0 + c * l0;
    Distribute(c, total, l0);
  }
}
