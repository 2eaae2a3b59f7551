/**
 The algebra of the circuit equations' right-hand side f: it is affine in the
 state, its linear part Lin is f of the unforced circuit, and f is homogeneous
 in the source voltage and the state together. The arithmetic behind each fact
 is done on plain reals in `RealArith`; the lemmas here only match terms.
 */
module CircuitAlgebra {
  import opened Types
  import opened RealArith
  import opened Circuit

  /** The derivative of the unforced circuit (V = 0): the linear part of f,
      so that f(s + d) = f(s) + Lin(d). */
  function Lin(p: CircuitParameters, d: CircuitState): CircuitState
    requires Solvable(p)
  {
    Deriv(p.(voltage := 0.0), d)
  }

  /** The same circuit driven by a times the voltage. */
  function ScaledSource(p: CircuitParameters, a: real): (q: CircuitParameters)
    ensures q.voltage == a * p.voltage
    ensures q.(voltage := p.voltage) == p
  {
    p.(voltage := a * p.voltage)
  }

  /** f is affine: moving the state by d moves the derivative by Lin(d). */
  lemma DerivAffine(p: CircuitParameters, s: CircuitState, d: CircuitState)
    requires Solvable(p)
    ensures Deriv(p, Plus(s, d)) == Plus(Deriv(p, s), Lin(p, d))
  {
    DivAdds(s.current, d.current, p.capacitance);
    CurrentSlopeAffine(p.voltage, p.resistance, p.inductance, s.voltage, s.current, d.voltage, d.current);
  }

  /** Scaling the source and the state by a scales the derivative by a. */
  lemma DerivScales(p: CircuitParameters, a: real, s: CircuitState)
    requires Solvable(p)
    ensures Deriv(ScaledSource(p, a), Times(a, s)) == Times(a, Deriv(p, s))
  {
    var q := ScaledSource(p, a);
    assert q.capacitance == p.capacitance && q.inductance == p.inductance && q.resistance == p.resistance;
    DivScales(a, s.current, p.capacitance);
    CurrentSlopeScales(a, p.voltage, p.resistance, p.inductance, s.voltage, s.current);
    assert Deriv(q, Times(a, s)).voltage == Times(a, Deriv(p, s)).voltage;
    assert Deriv(q, Times(a, s)).current == Times(a, Deriv(p, s)).current;
  }

  /** Lin is homogeneous. */
  lemma LinTimes(p: CircuitParameters, a: real, d: CircuitState)
    requires Solvable(p)
    ensures Lin(p, Times(a, d)) == Times(a, Lin(p, d))
  {
    var p0 := p.(voltage := 0.0);
    assert ScaledSource(p0, a) == p0;
    DerivScales(p0, a, d);
  }

  /** Stepping the state by a along k moves f by a along Lin(k). */
  lemma DerivAlongSlope(p: CircuitParameters, s: CircuitState, a: real, k: CircuitState)
    requires Solvable(p)
    ensures Deriv(p, Plus(s, Times(a, k))) == Plus(Deriv(p, s), Times(a, Lin(p, k)))
  {
    DerivAffine(p, s, Times(a, k));
    LinTimes(p, a, k);
  }

  /** Lin(x + a y) = Lin(x) + a Lin(y). */
  lemma LinOfSum(p: CircuitParameters, x: CircuitState, a: real, y: CircuitState)
    requires Solvable(p)
    ensures Lin(p, Plus(x, Times(a, y))) == Plus(Lin(p, x), Times(a, Lin(p, y)))
  {
    DerivAlongSlope(p.(voltage := 0.0), x, a, y);
  }

  /** Moving a times s along a times k is a times moving s along k. */
  lemma AxpyScales(a: real, s: CircuitState, h: real, k: CircuitState)
    ensures Plus(Times(a, s), Times(h, Times(a, k))) == Times(a, Plus(s, Times(h, k)))
  {
    AxpyScalesReal(a, s.voltage, h, k.voltage);
    AxpyScalesReal(a, s.current, h, k.current);
  }

  /** Scaling distributes over the sum of two states. */
  lemma PlusScales(a: real, x: CircuitState, y: CircuitState)
    ensures Plus(Times(a, x), Times(a, y)) == Times(a, Plus(x, y))
  {
    SumScalesReal(a, x.voltage, y.voltage);
    SumScalesReal(a, x.current, y.current);
  }

  /** Two scalings of a state commute. */
  lemma TimesCommute(c: real, a: real, x: CircuitState)
    ensures Times(c, Times(a, x)) == Times(a, Times(c, x))
  {
    ScalingsCommute(c, a, x.voltage);
    ScalingsCommute(c, a, x.current);
  }
}
