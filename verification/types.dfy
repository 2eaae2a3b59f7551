/**
 The plain data of the RLC-circuit example: the simulation status, the
 integration method selector, the circuit parameters with their defaults, the
 three result series and the messages exchanged between the UI and the
 simulation slot, with the route string each message is dispatched on.

 Floating-point quantities are modelled as exact `real`s.
 */
module Types {

  /** The result of an operation that may fail with an error of type E. */
  datatype Result<+T, +E> = Ok(value: T) | Err(error: E)

  datatype Option<+T> = None | Some(value: T)

  /** Whether a simulation is in progress. */
  datatype SimulationState = Ready | Running

  /** The step rule used for a whole simulation run. */
  datatype IntegrationMethod = Euler | RungeKutta4 | TrapezoidalDamping

  /** Series RLC circuit driven by a constant voltage, plus the integration grid. */
  datatype CircuitParameters = CircuitParameters(
    capacitance: real,  // farad
    inductance: real,   // henry
    resistance: real,   // ohm
    voltage: real,      // volt, constant input
    dt: real,           // time step, second
    t_max: real,        // simulated duration, second
    integration: IntegrationMethod)  // the `method` field of the Rust struct

  /** The parameters a fresh application starts with: 1 uF, 1 mH, 0.11 ohm,
      5 V, a 1 us step over 5 ms, integrated with RK4. */
  function DefaultParameters(): (p: CircuitParameters)
    ensures p.capacitance > 0.0 && p.inductance > 0.0 && p.resistance > 0.0
    ensures p.voltage > 0.0 && p.dt > 0.0 && p.t_max > p.dt
    ensures p.integration == RungeKutta4
    // the grid has exactly 5000 points: t_max is a whole multiple of dt
    ensures p.t_max / p.dt == 5000.0
  {
    CircuitParameters(
      capacitance := 0.000001,
      inductance := 0.001,
      resistance := 0.11,
      voltage := 5.0,
      dt := 0.000001,
      t_max := 0.005,
      integration := RungeKutta4)
  }

  /** Three index-aligned series: sample k of each belongs to the same instant. */
  datatype SimulationResults = SimulationResults(
    time_series: seq<real>,
    voltage_series: seq<real>,
    current_series: seq<real>)
  {
    predicate Aligned() {
      |time_series| == |voltage_series| == |current_series|
    }
  }

  /** Messages carried between the UI and the simulation slot. */
  datatype CircuitMessage =
    | ParamsUpdated(params: CircuitParameters)
    | SimulationCompleted(results: SimulationResults)
    | SimulationStarted
    | SimulationError(message: string)
    | StopSimulation

  /** The five route names, one per message variant. */
  const Routes: set<string> :=
    {"params_updated", "sim_completed", "sim_started", "sim_error", "sim_stop"}

  /** True when both messages are built with the same constructor. */
  predicate SameVariant(a: CircuitMessage, b: CircuitMessage) {
    || (a.ParamsUpdated? && b.ParamsUpdated?)
    || (a.SimulationCompleted? && b.SimulationCompleted?)
    || (a.SimulationStarted? && b.SimulationStarted?)
    || (a.SimulationError? && b.SimulationError?)
    || (a.StopSimulation? && b.StopSimulation?)
  }

  /** The channel name a message is dispatched on; it depends on the variant only. */
  function Route(m: CircuitMessage): (r: string)
    ensures r in Routes
    ensures m.ParamsUpdated? <==> r == "params_updated"
    ensures m.SimulationCompleted? <==> r == "sim_completed"
    ensures m.SimulationStarted? <==> r == "sim_started"
    ensures m.SimulationError? <==> r == "sim_error"
    ensures m.StopSimulation? <==> r == "sim_stop"
  {
    match m
    case ParamsUpdated(_) => "params_updated"
    case SimulationCompleted(_) => "sim_completed"
    case SimulationStarted => "sim_started"
    case SimulationError(_) => "sim_error"
    case StopSimulation => "sim_stop"
  }

  /** Two messages share a route exactly when they share a variant, so no two
      variants collide and every variant reaches its own handler. */
  lemma RouteInjective(a: CircuitMessage, b: CircuitMessage)
    ensures Route(a) == Route(b) <==> SameVariant(a, b)
  {
  }

  /** Payloads never influence the route. */
  lemma RouteIgnoresPayload(p: CircuitParameters, q: CircuitParameters,
                            r: SimulationResults, r': SimulationResults,
                            e: string, e': string)
    ensures Route(ParamsUpdated(p)) == Route(ParamsUpdated(q))
    ensures Route(SimulationCompleted(r)) == Route(SimulationCompleted(r'))
    ensures Route(SimulationError(e)) == Route(SimulationError(e'))
  {
  }

  /** Every route name is used by some message. */
  lemma RoutesAllUsed(s: string)
    requires s in Routes
    ensures exists m :: Route(m) == s
  {
    if s == "params_updated" {
      assert Route(ParamsUpdated(DefaultParameters())) == s;
    } else if s == "sim_completed" {
      assert Route(SimulationCompleted(SimulationResults([], [], []))) == s;
    } else if s == "sim_started" {
      assert Route(SimulationStarted) == s;
    } else if s == "sim_error" {
      assert Route(SimulationError("")) == s;
    } else {
      assert Route(StopSimulation) == s;
    }
  }
}
