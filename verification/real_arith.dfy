/**
 Facts about field arithmetic on `real` that the circuit model uses: how a
 quotient relates to the products bounding it, and the distributive and
 commutative rearrangements of the circuit equations' components. Each is
 stated on plain reals so that the proofs about states only match terms.
 */
module RealArith {

  /** Multiplying by a positive number keeps a strict order. */
  lemma ScaleStrict(a: real, b: real, h: real)
    requires a < b && h > 0.0
    ensures a * h < b * h
  {
    assert b * h - a * h == (b - a) * h;
  }

  /** Multiplying by a positive number keeps a weak order. */
  lemma ScaleWeak(a: real, b: real, h: real)
    requires a <= b && h > 0.0
    ensures a * h <= b * h
  {
    if a < b {
      ScaleStrict(a, b, h);
    }
  }

  /** For t >= 0 and h > 0, the floor n of t/h satisfies n*h <= t < (n+1)*h. */
  lemma FloorTimesPositive(t: real, h: real, n: nat)
    requires h > 0.0
    requires n as real <= t / h < n as real + 1.0
    ensures n as real * h <= t < (n as real + 1.0) * h
  {
    var q := t / h;
    assert q * h == t;
    ScaleStrict(q, n as real + 1.0, h);
    assert t < (n as real + 1.0) * h;
    ScaleWeak(n as real, q, h);
    assert n as real * h <= t;
  }

  /** Dividing t < m*h by a positive h gives t/h < m. */
  lemma QuotientBelow(t: real, h: real, m: real)
    requires h > 0.0 && t < m * h
    ensures t / h < m
  {
    var q := t / h;
    assert q * h == t;
    if q >= m {
      ScaleWeak(m, q, h);
    }
  }

  /** Dividing t >= m*h by a positive h gives t/h >= m. */
  lemma QuotientAtLeast(t: real, h: real, m: real)
    requires h > 0.0 && t >= m * h
    ensures t / h >= m
  {
    var q := t / h;
    assert q * h == t;
    if q < m {
      ScaleStrict(q, m, h);
    }
  }

  /** Division by a nonzero number distributes over a sum. */
  lemma DivAdds(x: real, y: real, c: real)
    requires c != 0.0
    ensures (x + y) / c == x / c + y / c
  {
  }

  /** Division by a nonzero number commutes with scaling. */
  lemma DivScales(a: real, x: real, c: real)
    requires c != 0.0
    ensures (a * x) / c == a * (x / c)
  {
  }

  /** The inductor equation's right-hand side at a shifted state splits into
      its value at the state plus its source-free value at the shift. */
  lemma CurrentSlopeAffine(v: real, r: real, l: real, sv: real, sc: real, dv: real, dc: real)
    requires l != 0.0
    ensures (v - (sv + dv) - r * (sc + dc)) / l == (v - sv - r * sc) / l + (0.0 - dv - r * dc) / l
  {
    assert v - (sv + dv) - r * (sc + dc) == (v - sv - r * sc) + (0.0 - dv - r * dc);
    DivAdds(v - sv - r * sc, 0.0 - dv - r * dc, l);
  }

  /** Scaling the source and the state scales the inductor equation's right-hand side. */
  lemma CurrentSlopeScales(a: real, v: real, r: real, l: real, sv: real, sc: real)
    requires l != 0.0
    ensures (a * v - a * sv - r * (a * sc)) / l == a * ((v - sv - r * sc) / l)
  {
    assert a * v - a * sv - r * (a * sc) == a * (v - sv - r * sc);
    DivScales(a, v - sv - r * sc, l);
  }

  /** Scaling commutes with a step of size c. */
  lemma AxpyScalesReal(a: real, x: real, c: real, y: real)
    ensures a * x + c * (a * y) == a * (x + c * y)
  {
    assert c * (a * y) == a * (c * y);
  }

  /** Scaling distributes over a sum. */
  lemma SumScalesReal(a: real, x: real, y: real)
    ensures a * x + a * y == a * (x + y)
  {
  }

  /** Two scalings commute. */
  lemma ScalingsCommute(c: real, a: real, x: real)
    ensures c * (a * x) == a * (c * x)
  {
  }
}
