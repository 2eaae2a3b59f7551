/**
 Properties of the RLC integrator over exact reals: the equilibrium (V, 0) is
 the only zero of the circuit equations and is kept by every step rule; each
 rule is the Taylor expansion of the exact flow cut off at its order (1 for
 Euler, 2 for the predictor/corrector, 4 for RK4); the step response is
 proportional to the source voltage; and the clock advances strictly.
 */
module CircuitProperties {
  import opened Types
  import opened Circuit
  import opened CircuitAlgebra

  /** The circuit is at rest exactly at its equilibrium. */
  lemma DerivVanishesIff(p: CircuitParameters, s: CircuitState)
    requires Solvable(p)
    ensures Deriv(p, s) == Zero <==> s == Equilibrium(p)
  {
    var d := Deriv(p, s);
    if d == Zero {
      assert s.current == 0.0;
      assert p.voltage - s.voltage - p.resistance * s.current == 0.0;
    }
  }

  /** Explicit Euler fixes a state exactly when the state is the equilibrium
      (for a nonzero step). */
  lemma EulerFixedPointIff(p: CircuitParameters, s: CircuitState)
    requires Solvable(p) && p.dt != 0.0
    ensures EulerStep(p, s) == s <==> s == Equilibrium(p)
  {
    var d := Deriv(p, s);
    if EulerStep(p, s) == s {
      assert p.dt * d.voltage == 0.0 && p.dt * d.current == 0.0;
      assert d == Zero;
    }
    DerivVanishesIff(p, s);
  }

  /** Every step rule keeps the circuit at its equilibrium. */
  lemma StepFixesEquilibrium(p: CircuitParameters)
    requires Solvable(p)
    ensures EulerStep(p, Equilibrium(p)) == Equilibrium(p)
    ensures Rk4Step(p, Equilibrium(p)) == Equilibrium(p)
    ensures TrapezoidStep(p, Equilibrium(p)) == Equilibrium(p)
    ensures Step(p, Equilibrium(p)) == Equilibrium(p)
  {
    var e := Equilibrium(p);
    DerivVanishesIff(p, e);
    assert Deriv(p, e) == Zero;
    assert Times(p.dt / 2.0, Zero) == Zero && Times(p.dt, Zero) == Zero;
    assert Plus(e, Zero) == e;
  }

  /** Started at the equilibrium, a run never leaves it. */
  lemma {:induction false} IterateFromEquilibrium(p: CircuitParameters, k: nat)
    requires Solvable(p)
    ensures Iterate(p, Equilibrium(p), k) == Equilibrium(p)
  {
    if k > 0 {
      IterateFromEquilibrium(p, k - 1);
      StepFixesEquilibrium(p);
    }
  }

  /** The average of two states. */
  function Midpoint(a: CircuitState, b: CircuitState): CircuitState {
    Times(0.5, Plus(a, b))
  }

  /** The predictor/corrector step lands halfway between s and two Euler
      steps from s: the predictor is the first Euler step, and the corrector
      uses the slope of the second. */
  lemma TrapezoidIsEulerMidpoint(p: CircuitParameters, s: CircuitState)
    requires Solvable(p)
    ensures TrapezoidStep(p, s) == Midpoint(s, EulerStep(p, EulerStep(p, s)))
  {
    var h := p.dt;
    var k1 := Deriv(p, s);
    var e1 := EulerStep(p, s);
    HalfwayIdentity(s, h, k1, Deriv(p, e1));
  }

  /** Stepping by h/2 along the sum of two slopes reaches the midpoint of s and
      the point two successive steps of h along them lead to. */
  lemma HalfwayIdentity(s: CircuitState, h: real, k1: CircuitState, k2: CircuitState)
    ensures Plus(s, Times(h / 2.0, Plus(k1, k2))) == Midpoint(s, Plus(Plus(s, Times(h, k1)), Times(h, k2)))
  {
    HalfwayComponent(s.voltage, k1.voltage, k2.voltage, h);
    HalfwayComponent(s.current, k1.current, k2.current, h);
  }

  /** One component of `HalfwayIdentity`. */
  lemma HalfwayComponent(x: real, k1: real, k2: real, h: real)
    ensures x + h / 2.0 * (k1 + k2) == 0.5 * (x + (x + h * k1 + h * k2))
  {
    assert h / 2.0 * (k1 + k2) == 0.5 * (h * k1) + 0.5 * (h * k2);
  }

  /** One component of the second-order Taylor polynomial. */
  function Poly2(x: real, h: real, k1: real, a1: real): real {
    x + (h * k1 + h * h / 2.0 * a1)
  }

  /** The second-order Taylor polynomial s + h k1 + (h^2/2) a1. */
  function Taylor2(s: CircuitState, h: real, k1: CircuitState, a1: CircuitState): CircuitState {
    CircuitState(Poly2(s.voltage, h, k1.voltage, a1.voltage), Poly2(s.current, h, k1.current, a1.current))
  }

  /** The predictor/corrector step is the second-order Taylor expansion of the
      exact flow: s + h f(s) + (h^2/2) J f(s), with J the Jacobian Lin. */
  lemma TrapezoidIsTaylor2(p: CircuitParameters, s: CircuitState)
    requires Solvable(p)
    ensures var k1 := Deriv(p, s);
            TrapezoidStep(p, s) == Taylor2(s, p.dt, k1, Lin(p, k1))
  {
    var h := p.dt;
    var k1 := Deriv(p, s);
    DerivAlongSlope(p, s, h, k1);
    HeunIsTaylor2(s, h, k1, Lin(p, k1));
  }

  /** Averaging the slope k1 with the slope k1 + h a1 one step ahead gives the
      Taylor coefficient 1/2 of a1. */
  lemma HeunIsTaylor2(s: CircuitState, h: real, k1: CircuitState, a1: CircuitState)
    ensures Plus(s, Times(h / 2.0, Plus(k1, Plus(k1, Times(h, a1))))) == Taylor2(s, h, k1, a1)
  {
    HeunWeights(h, k1.voltage, a1.voltage, s.voltage);
    HeunWeights(h, k1.current, a1.current, s.current);
  }

  /** One component of `HeunIsTaylor2`. */
  lemma HeunWeights(h: real, k1: real, a1: real, x: real)
    ensures x + h / 2.0 * (k1 + (k1 + h * a1)) == Poly2(x, h, k1, a1)
  {
    assert h / 2.0 * (k1 + (k1 + h * a1)) == h * k1 + h * (h * a1) / 2.0;
  }

  /** Classic RK4 is the fourth-order Taylor expansion of the exact flow:
      s + h k1 + (h^2/2) J k1 + (h^3/6) J^2 k1 + (h^4/24) J^3 k1. */
  lemma Rk4IsTaylor4(p: CircuitParameters, s: CircuitState)
    requires Solvable(p)
    ensures var h := p.dt;
            var k1 := Deriv(p, s);
            var a1 := Lin(p, k1);
            var a2 := Lin(p, a1);
            var a3 := Lin(p, a2);
            Rk4Step(p, s) == Taylor4(s, h, k1, a1, a2, a3)
  {
    var h := p.dt;
    var k1 := Deriv(p, s);
    var a1 := Lin(p, k1);
    var a2 := Lin(p, a1);
    var a3 := Lin(p, a2);
    // k2 = k1 + (h/2) J k1
    var k2 := Deriv(p, Plus(s, Times(h / 2.0, k1)));
    DerivAlongSlope(p, s, h / 2.0, k1);
    assert k2 == Plus(k1, Times(h / 2.0, a1));
    // k3 = k1 + (h/2) J k2 = k1 + (h/2) a1 + (h^2/4) a2
    var k3 := Deriv(p, Plus(s, Times(h / 2.0, k2)));
    DerivAlongSlope(p, s, h / 2.0, k2);
    LinOfSum(p, k1, h / 2.0, a1);
    assert Lin(p, k2) == Plus(a1, Times(h / 2.0, a2));
    assert k3 == Plus(k1, Times(h / 2.0, Plus(a1, Times(h / 2.0, a2))));
    // k4 = k1 + h J k3 = k1 + h a1 + (h^2/2) a2 + (h^3/4) a3
    var k4 := Deriv(p, Plus(s, Times(h, k3)));
    DerivAlongSlope(p, s, h, k3);
    LinOfSum(p, a1, h / 2.0, a2);
    LinOfSum(p, k1, h / 2.0, Plus(a1, Times(h / 2.0, a2)));
    assert Lin(p, k3) == Plus(a1, Times(h / 2.0, Plus(a2, Times(h / 2.0, a3))));
    assert k4 == Plus(k1, Times(h, Plus(a1, Times(h / 2.0, Plus(a2, Times(h / 2.0, a3))))));
    Rk4Combination(s, h, k1, a1, a2, a3);
  }

  /** The RK4 weights applied to slopes written in terms of k1 and its images
      under J give the fourth-order Taylor polynomial. */
  lemma Rk4Combination(s: CircuitState, h: real,
                       k1: CircuitState, a1: CircuitState, a2: CircuitState, a3: CircuitState)
    ensures var k2 := Plus(k1, Times(h / 2.0, a1));
            var k3 := Plus(k1, Times(h / 2.0, Plus(a1, Times(h / 2.0, a2))));
            var k4 := Plus(k1, Times(h, Plus(a1, Times(h / 2.0, Plus(a2, Times(h / 2.0, a3))))));
            Plus(s, Times(h / 6.0, Plus(Plus(Plus(k1, Times(2.0, k2)), Times(2.0, k3)), k4)))
            == Taylor4(s, h, k1, a1, a2, a3)
  {
    var k2 := Plus(k1, Times(h / 2.0, a1));
    var j3 := Plus(a1, Times(h / 2.0, a2));
    var k3 := Plus(k1, Times(h / 2.0, j3));
    var j42 := Plus(a2, Times(h / 2.0, a3));
    var j41 := Plus(a1, Times(h / 2.0, j42));
    var k4 := Plus(k1, Times(h, j41));
    Rk4Weights(h, k1.voltage, a1.voltage, a2.voltage, a3.voltage, k2.voltage, j3.voltage, k3.voltage,
               j42.voltage, j41.voltage, k4.voltage, s.voltage);
    Rk4Weights(h, k1.current, a1.current, a2.current, a3.current, k2.current, j3.current, k3.current,
               j42.current, j41.current, k4.current, s.current);
  }

  /** One component of the fourth-order Taylor polynomial. */
  function Poly4(x: real, h: real, k1: real, a1: real, a2: real, a3: real): real {
    x + (h * k1 + h * h / 2.0 * a1 + (h * h * h / 6.0 * a2 + h * h * h * h / 24.0 * a3))
  }

  /** The fourth-order Taylor polynomial s + h k1 + (h^2/2) a1 + (h^3/6) a2 + (h^4/24) a3. */
  function Taylor4(s: CircuitState, h: real, k1: CircuitState, a1: CircuitState,
                   a2: CircuitState, a3: CircuitState): (r: CircuitState)
  {
    CircuitState(Poly4(s.voltage, h, k1.voltage, a1.voltage, a2.voltage, a3.voltage),
                 Poly4(s.current, h, k1.current, a1.current, a2.current, a3.current))
  }

  /** One component of `Rk4Combination`: with the nested slopes named, the RK4
      weights 1, 2, 2, 1 over 6 give the Taylor coefficients 1, 1/2, 1/6, 1/24. */
  lemma Rk4Weights(h: real, k: real, a1: real, a2: real, a3: real,
                   k2: real, j3: real, k3: real, j42: real, j41: real, k4: real, x: real)
    requires k2 == k + h / 2.0 * a1
    requires j3 == a1 + h / 2.0 * a2 && k3 == k + h / 2.0 * j3
    requires j42 == a2 + h / 2.0 * a3 && j41 == a1 + h / 2.0 * j42 && k4 == k + h * j41
    ensures x + h / 6.0 * (k + 2.0 * k2 + 2.0 * k3 + k4) == Poly4(x, h, k, a1, a2, a3)
  {
    var m1 := h * a1;
    var b2 := h * a2;
    var b3 := h * a3;
    var c3 := h * b3;
    assert h / 2.0 * a1 == m1 / 2.0;
    assert h / 2.0 * j3 == m1 / 2.0 + h * b2 / 4.0;
    assert h * j41 == m1 + h * b2 / 2.0 + h * c3 / 4.0;
    var sum := 6.0 * k + 3.0 * m1 + h * b2 + h * c3 / 4.0;
    assert k + 2.0 * k2 + 2.0 * k3 + k4 == sum;
    assert h / 6.0 * sum == h * k + h * m1 / 2.0 + h * (h * b2) / 6.0 + h * (h * c3) / 24.0;
    assert h * h / 2.0 * a1 == h * m1 / 2.0;
    assert h * h * h / 6.0 * a2 == h * (h * b2) / 6.0;
    assert h * h * h * h / 24.0 * a3 == h * (h * c3) / 24.0;
  }

  /** Scaling the source and the state by a scales every step rule's result by a. */
  lemma StepScales(p: CircuitParameters, a: real, s: CircuitState)
    requires Solvable(p)
    ensures Step(ScaledSource(p, a), Times(a, s)) == Times(a, Step(p, s))
  {
    match p.integration
    case Euler => EulerScales(p, a, s);
    case TrapezoidalDamping => TrapezoidScales(p, a, s);
    case RungeKutta4 => Rk4Scales(p, a, s);
  }

  /** The Euler case of `StepScales`. */
  lemma EulerScales(p: CircuitParameters, a: real, s: CircuitState)
    requires Solvable(p)
    ensures EulerStep(ScaledSource(p, a), Times(a, s)) == Times(a, EulerStep(p, s))
  {
    var k1 := Deriv(p, s);
    DerivScales(p, a, s);
    AxpyScales(a, s, p.dt, k1);
  }

  /** The predictor/corrector case of `StepScales`: every intermediate slope
      and point of the scaled run is a times the original one. */
  lemma TrapezoidScales(p: CircuitParameters, a: real, s: CircuitState)
    requires Solvable(p)
    ensures TrapezoidStep(ScaledSource(p, a), Times(a, s)) == Times(a, TrapezoidStep(p, s))
  {
    var h := p.dt;
    var k1 := Deriv(p, s);
    var e := Plus(s, Times(h, k1));
    var k2 := Deriv(p, e);
    DerivScales(p, a, s);
    AxpyScales(a, s, h, k1);
    DerivScales(p, a, e);
    PlusScales(a, k1, k2);
    AxpyScales(a, s, h / 2.0, Plus(k1, k2));
  }

  /** The RK4 case of `StepScales`: every stage of the scaled run is a times
      the original stage. */
  lemma Rk4Scales(p: CircuitParameters, a: real, s: CircuitState)
    requires Solvable(p)
    ensures Rk4Step(ScaledSource(p, a), Times(a, s)) == Times(a, Rk4Step(p, s))
  {
    var h := p.dt;
    var k1 := Deriv(p, s);
    var k2 := Deriv(p, Plus(s, Times(h / 2.0, k1)));
    var k3 := Deriv(p, Plus(s, Times(h / 2.0, k2)));
    var k4 := Deriv(p, Plus(s, Times(h, k3)));
    Rk4StagesScale(p, a, s);
    var t2, t3 := Times(2.0, k2), Times(2.0, k3);
    TimesCommute(2.0, a, k2);
    TimesCommute(2.0, a, k3);
    PlusScales(a, k1, t2);
    PlusScales(a, Plus(k1, t2), t3);
    PlusScales(a, Plus(Plus(k1, t2), t3), k4);
    AxpyScales(a, s, h / 6.0, Plus(Plus(Plus(k1, t2), t3), k4));
  }

  /** The four RK4 slopes of the scaled run are a times the original ones. */
  lemma Rk4StagesScale(p: CircuitParameters, a: real, s: CircuitState)
    requires Solvable(p)
    ensures var q, s', h := ScaledSource(p, a), Times(a, s), p.dt;
            var k1, k1' := Deriv(p, s), Deriv(q, s');
            var k2, k2' := Deriv(p, Plus(s, Times(h / 2.0, k1))), Deriv(q, Plus(s', Times(h / 2.0, k1')));
            var k3, k3' := Deriv(p, Plus(s, Times(h / 2.0, k2))), Deriv(q, Plus(s', Times(h / 2.0, k2')));
            var k4, k4' := Deriv(p, Plus(s, Times(h, k3))), Deriv(q, Plus(s', Times(h, k3')));
            k1' == Times(a, k1) && k2' == Times(a, k2) && k3' == Times(a, k3) && k4' == Times(a, k4)
  {
    var h := p.dt;
    var k1 := Deriv(p, s);
    var k2 := Deriv(p, Plus(s, Times(h / 2.0, k1)));
    var k3 := Deriv(p, Plus(s, Times(h / 2.0, k2)));
    DerivScales(p, a, s);
    AxpyScales(a, s, h / 2.0, k1);
    DerivScales(p, a, Plus(s, Times(h / 2.0, k1)));
    AxpyScales(a, s, h / 2.0, k2);
    DerivScales(p, a, Plus(s, Times(h / 2.0, k2)));
    AxpyScales(a, s, h, k3);
    DerivScales(p, a, Plus(s, Times(h, k3)));
  }

  /** The step response is proportional to the source voltage: every sample of
      a run driven by a*V is a times the sample of the run driven by V. */
  lemma {:induction false} ResponseScales(p: CircuitParameters, a: real, k: nat)
    requires Solvable(p)
    ensures Iterate(ScaledSource(p, a), Zero, k) == Times(a, Iterate(p, Zero, k))
  {
    if k > 0 {
      ResponseScales(p, a, k - 1);
      StepScales(p, a, Iterate(p, Zero, k - 1));
    }
  }

  /** With no source voltage the circuit stays at rest. */
  lemma UnforcedStaysAtRest(p: CircuitParameters, k: nat)
    requires Solvable(p) && p.voltage == 0.0
    ensures Iterate(p, Zero, k) == Zero
  {
    ResponseScales(p, 0.0, k);
    assert ScaledSource(p, 0.0) == p;
  }

  /** For a positive step the clock readings strictly increase. */
  lemma {:induction false} ClockStrictlyIncreasing(h: real, j: nat, k: nat)
    requires h > 0.0 && j < k
    ensures Clock(h, j) < Clock(h, k)
  {
    if j < k - 1 {
      ClockStrictlyIncreasing(h, j, k - 1);
    }
  }

  /** The default parameters give a 5000-point run. */
  lemma DefaultStepCount()
    ensures TotalSteps(DefaultParameters()) == 5000
  {
    var p := DefaultParameters();
    assert (p.t_max / p.dt).Floor == 5000;
  }
}
