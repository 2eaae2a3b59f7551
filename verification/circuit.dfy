/**
 The step-response integrator of the series RLC circuit. The state is the
 pair (capacitor voltage, inductor current), starting at (0, 0); the governing
 system is

     dVc/dt = Il / C
     dIl/dt = (V - Vc - R * Il) / L

 and one of three fixed-step rules advances it: explicit Euler, classic
 fourth-order Runge-Kutta, or a Heun-style predictor/corrector. Arithmetic is
 exact over `real`; the rounding of the Rust code's f64 arithmetic is not modelled.
 */
module Circuit {
  import opened Types
  import opened RealArith

  /** The integrator's state vector, also used for derivatives and increments. */
  datatype CircuitState = CircuitState(voltage: real, current: real)

  const Zero := CircuitState(0.0, 0.0)

  function Plus(a: CircuitState, b: CircuitState): CircuitState {
    CircuitState(a.voltage + b.voltage, a.current + b.current)
  }

  function Times(c: real, a: CircuitState): CircuitState {
    CircuitState(c * a.voltage, c * a.current)
  }

  /** The state the circuit settles in: the capacitor charged to V, no current. */
  function Equilibrium(p: CircuitParameters): CircuitState {
    CircuitState(p.voltage, 0.0)
  }

  /** The derivative divides by C and L, so both must be nonzero once a step is taken. */
  predicate Solvable(p: CircuitParameters) {
    p.capacitance != 0.0 && p.inductance != 0.0
  }

  /** The right-hand side f of the circuit equations at state s. */
  function Deriv(p: CircuitParameters, s: CircuitState): CircuitState
    requires Solvable(p)
  {
    CircuitState(s.current / p.capacitance,
                 (p.voltage - s.voltage - p.resistance * s.current) / p.inductance)
  }

  /** f is the solution of the circuit equations: the capacitor current and
      the voltage across the inductor balance. */
  lemma DerivBalances(p: CircuitParameters, s: CircuitState)
    requires Solvable(p)
    ensures Deriv(p, s).voltage * p.capacitance == s.current
    ensures Deriv(p, s).current * p.inductance == p.voltage - s.voltage - p.resistance * s.current
  {
  }

  /** One explicit Euler step: the state moves by dt times its slope. */
  function EulerStep(p: CircuitParameters, s: CircuitState): CircuitState
    requires Solvable(p)
  {
    Plus(s, Times(p.dt, Deriv(p, s)))
  }

  /** One step of classic RK4 with slopes k1..k4. */
  function Rk4Step(p: CircuitParameters, s: CircuitState): CircuitState
    requires Solvable(p)
  {
    var h := p.dt;
    var k1 := Deriv(p, s);
    var k2 := Deriv(p, Plus(s, Times(h / 2.0, k1)));
    var k3 := Deriv(p, Plus(s, Times(h / 2.0, k2)));
    var k4 := Deriv(p, Plus(s, Times(h, k3)));
    Plus(s, Times(h / 6.0, Plus(Plus(Plus(k1, Times(2.0, k2)), Times(2.0, k3)), k4)))
  }

  /** One predictor/corrector step: an Euler predictor, then a step with the
      mean of the slopes at both ends. */
  function TrapezoidStep(p: CircuitParameters, s: CircuitState): CircuitState
    requires Solvable(p)
  {
    var h := p.dt;
    var k1 := Deriv(p, s);
    var predictor := Plus(s, Times(h, k1));
    var k2 := Deriv(p, predictor);
    Plus(s, Times(h / 2.0, Plus(k1, k2)))
  }

  /** The step rule selected by the parameters; it is fixed for a whole run. */
  function Step(p: CircuitParameters, s: CircuitState): CircuitState
    requires Solvable(p)
  {
    match p.integration
    case Euler => EulerStep(p, s)
    case RungeKutta4 => Rk4Step(p, s)
    case TrapezoidalDamping => TrapezoidStep(p, s)
  }

  /** The state after k steps from s. */
  function Iterate(p: CircuitParameters, s: CircuitState, k: nat): CircuitState
    requires k == 0 || Solvable(p)
  {
    if k == 0 then s else Step(p, Iterate(p, s, k - 1))
  }

  /** The largest value of Rust's `usize` on a 64-bit target. */
  const UsizeMax: nat := 0xFFFF_FFFF_FFFF_FFFF

  /** Rust's saturating float-to-`usize` cast: truncation toward zero,
      negative values to 0, values beyond the range to `UsizeMax`. */
  function ToUsize(x: real): (n: nat)
    ensures n <= UsizeMax
    ensures x <= 0.0 ==> n == 0
    ensures 0.0 <= x < UsizeMax as real ==> n as real <= x < n as real + 1.0
    ensures x >= UsizeMax as real ==> n == UsizeMax
  {
    if x <= 0.0 then 0
    else if x >= UsizeMax as real then UsizeMax
    else x.Floor
  }

  /** The step count `t_max / dt` as the Rust code casts it. A zero dt makes the
      f64 ratio an infinity (saturating to `UsizeMax`) or, for 0/0, NaN (cast to 0);
      a ratio beyond the range of `usize` saturates too. */
  function TotalSteps(p: CircuitParameters): (n: nat)
    ensures n <= UsizeMax
    ensures p.dt == 0.0 ==> (n == UsizeMax <==> p.t_max > 0.0)
    ensures p.dt > 0.0 && 0.0 <= p.t_max < UsizeMax as real * p.dt ==>
              n as real * p.dt <= p.t_max < (n as real + 1.0) * p.dt
    ensures p.dt > 0.0 && p.t_max >= UsizeMax as real * p.dt ==> n == UsizeMax
    ensures p.dt >= 0.0 && p.t_max <= 0.0 ==> n == 0
  {
    if p.dt == 0.0 then
      if p.t_max > 0.0 then UsizeMax else 0
    else
      var n := ToUsize(p.t_max / p.dt);
      if p.dt > 0.0 && 0.0 <= p.t_max < UsizeMax as real * p.dt then
        QuotientBelow(p.t_max, p.dt, UsizeMax as real);
        FloorTimesPositive(p.t_max, p.dt, n);
        n
      else if p.dt > 0.0 && p.t_max >= UsizeMax as real * p.dt then
        QuotientAtLeast(p.t_max, p.dt, UsizeMax as real);
        n
      else
        n
  }

  /** The largest number of f64 samples a `Vec` can reserve: its byte size,
      8 per sample, must not exceed `isize::MAX`. Reserving more panics with a
      capacity overflow. */
  const MaxCapacity: nat := 0x0FFF_FFFF_FFFF_FFFF

  /** A zero dt with a positive t_max asks for `usize::MAX` samples, which the
      pre-allocation of the series cannot reserve: `simulate` panics there. */
  lemma ZeroStepOverflows(p: CircuitParameters)
    requires p.dt == 0.0 && p.t_max > 0.0
    ensures TotalSteps(p) == UsizeMax && TotalSteps(p) > MaxCapacity
  {
  }

  /** Sample k of a result, as a state vector. */
  function Sample(r: SimulationResults, k: nat): CircuitState
    requires k < |r.voltage_series| && k < |r.current_series|
  {
    CircuitState(r.voltage_series[k], r.current_series[k])
  }

  /** The clock after k increments of h, accumulated by repeated addition as
      the simulation loop does. */
  function Clock(h: real, k: nat): real {
    if k == 0 then 0.0 else Clock(h, k - 1) + h
  }

  /** Over exact reals the accumulated clock does not drift: after k steps it
      reads exactly k*h. */
  lemma {:induction false} ClockIsMultiple(h: real, k: nat)
    ensures Clock(h, k) == k as real * h
  {
    if k > 0 {
      ClockIsMultiple(h, k - 1);
      assert (k - 1) as real * h + h == k as real * h;
    }
  }

  /** Each sample of a run is one step after the one before it. */
  lemma StepBetweenSamples(p: CircuitParameters, r: SimulationResults)
    requires |r.voltage_series| == |r.current_series|
    requires |r.voltage_series| <= 1 || Solvable(p)
    requires forall k :: 0 <= k < |r.voltage_series| ==> Sample(r, k) == Iterate(p, Zero, k)
    ensures forall k :: 1 <= k < |r.voltage_series| ==> Sample(r, k) == Step(p, Sample(r, k - 1))
  {
    forall k | 1 <= k < |r.voltage_series|
      ensures Sample(r, k) == Step(p, Sample(r, k - 1))
    {
      assert Sample(r, k - 1) == Iterate(p, Zero, k - 1);
    }
  }

  /** The sampling loop: it pushes the initial state at time 0, then for every
      further index advances the clock by dt and the state by one step, pushing
      all three values together. */
  method SampleLoop(p: CircuitParameters, total: nat)
      returns (times: seq<real>, voltages: seq<real>, currents: seq<real>)
    requires total <= 1 || Solvable(p)
    ensures |times| == |voltages| == |currents| == if total <= 1 then 1 else total
    ensures forall j :: 0 <= j < |times| ==> times[j] == Clock(p.dt, j)
    ensures forall j :: 0 <= j < |voltages| ==>
              CircuitState(voltages[j], currents[j]) == Iterate(p, Zero, j)
  {
    var state := Zero;
    var t := 0.0;
    times, voltages, currents := [0.0], [state.voltage], [state.current];
    var k := 1;
    while k < total
      invariant 1 <= k && (k == 1 || k <= total)
      invariant k > 1 ==> Solvable(p)
      invariant |times| == k && |voltages| == k && |currents| == k
      invariant t == Clock(p.dt, k - 1)
      invariant state == Iterate(p, Zero, k - 1)
      invariant forall j :: 0 <= j < k ==> times[j] == Clock(p.dt, j)
      invariant forall j :: 0 <= j < k ==> CircuitState(voltages[j], currents[j]) == Iterate(p, Zero, j)
    {
      t := t + p.dt;
      state := Step(p, state);
      times, voltages, currents := times + [t], voltages + [state.voltage], currents + [state.current];
      k := k + 1;
    }
  }

  /** Runs the whole simulation: sample 0 is the initial state at time 0, and
      each later sample is one step further and dt later. Once the three series
      are reserved the Rust code has no failing path, so the result is `Ok`; a
      step count beyond `MaxCapacity` makes the reservation panic, and is
      excluded. */
  method Simulate(p: CircuitParameters) returns (r: Result<SimulationResults, string>)
    requires TotalSteps(p) <= MaxCapacity
    requires TotalSteps(p) <= 1 || Solvable(p)
    ensures r.Ok?
    ensures r.value.Aligned()
    ensures |r.value.time_series| == if TotalSteps(p) <= 1 then 1 else TotalSteps(p)
    ensures r.value.time_series[0] == 0.0
    ensures r.value.voltage_series[0] == 0.0 && r.value.current_series[0] == 0.0
    ensures forall k :: 1 <= k < |r.value.time_series| ==>
              r.value.time_series[k] == r.value.time_series[k - 1] + p.dt
    ensures forall k :: 0 <= k < |r.value.time_series| ==>
              r.value.time_series[k] == Clock(p.dt, k)
    ensures forall k :: 1 <= k < |r.value.voltage_series| ==>
              Sample(r.value, k) == Step(p, Sample(r.value, k - 1))
    ensures forall k :: 0 <= k < |r.value.voltage_series| ==>
              Sample(r.value, k) == Iterate(p, Zero, k)
  {
    var times, voltages, currents := SampleLoop(p, TotalSteps(p));
    var results := SimulationResults(times, voltages, currents);
    assert forall k :: 0 <= k < |voltages| ==> Sample(results, k) == Iterate(p, Zero, k);
    StepBetweenSamples(p, results);
    r := Ok(results);
  }
}
