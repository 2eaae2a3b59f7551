# RLC step-response integrator and application state, in Dafny

This project models the computational core of the egui_mobius template
examples:

- the **RLC circuit simulator** of the signals-and-slots example. It integrates
  a series R-L-C circuit driven by a constant voltage V, starting from the
  state (0, 0). The state is (capacitor voltage Vc, inductor current Il), and
  the equations are
  `dVc/dt = Il / C` and `dIl/dt = (V - Vc - R·Il) / L`.
  The integration rule is one of Euler, classic RK4, or a Heun-style
  predictor/corrector called "trapezoidal damping";
- the **data types** of that example: parameters and their defaults, results,
  the simulation status and the message enum with its route names;
- the **shared application state** of the signals-and-slots example, whose
  mutators are modelled as pure transitions on a record;
- the **reactive-async application state**, whose `log` keeps a FIFO window
  of at most 1000 entries.

Floating-point numbers are modelled as exact `real`s. Integer casts are
written out explicitly, using Rust's saturating `f64 as usize`.

Files:

- `types.dfy` (module `Types`): the shared datatypes, `DefaultParameters` and
  `Route`.
- `real_arith.dfy` (module `RealArith`): small facts about real arithmetic:
  quotient bounds for the step count, and the distributive rearrangements of
  the circuit equations.
- `circuit.dfy` (module `Circuit`): the derivative, the three step rules, the
  step count and the sampling loop (`SampleLoop`, `Simulate`).
- `circuit_algebra.dfy` (module `CircuitAlgebra`): the derivative is affine
  in the state, with linear part `Lin` (the derivative of the source-free
  circuit), and homogeneous in the source voltage and the state together.
- `circuit_props.dfy` (module `CircuitProperties`): properties of the step
  rules and of whole runs:
  - equilibrium;
  - Taylor expansions: Euler is order 1, the predictor/corrector is order 2,
    and RK4 is order 4;
  - linearity in the source voltage;
  - clock monotonicity;
  - the default step count.
- `sim_app.dfy` (module `SimulationApp`): the signals-and-slots `AppState`
  and its transitions, plus the invariant "running ⇒ no error" over any
  sequence of calls.
- `async_log.dfy` (module `AsyncApp`): the reactive-async `AppState` and its
  bounded log.

A run samples the state once per loop iteration. `TotalSteps(p)` is
`t_max / dt` cast to `usize`. The loop runs `for _ in 1..total_steps`, so a
run has `max(1, TotalSteps(p))` samples. Sample k is at time
`Clock(dt, k)`, which is k repeated additions of dt. Sample k's state is
`Iterate(p, (0,0), k)`, which is k applications of the selected step rule.
`ClockIsMultiple` shows that the clock reads exactly k·dt. `simulate` has
no path that returns `Err` and no way to be cancelled; it can only panic,
when reserving the three series for more samples than a `Vec<f64>` can
hold (`MaxCapacity`, 2^60 − 1). A zero dt with a positive t_max is one such
case (`ZeroStepOverflows`). `Simulate` requires a step count within
`MaxCapacity` and then always returns `Ok`.

## Model

| member | source | states |
|---|---|---|
| Types.DefaultParameters | examples/signals-slot/src/types.rs:28-40 | the default circuit has positive C, L, R, V and dt, t_max above dt, uses RK4, and t_max is exactly 5000 steps of dt |
| Types.Route | examples/signals-slot/src/types.rs:59-69 | every message maps to one of the five route names, and each name is chosen by exactly one variant |
| Types.RouteInjective | examples/signals-slot/src/types.rs:59-69 | two messages share a route if and only if they are the same variant |
| Types.RouteIgnoresPayload | examples/signals-slot/src/types.rs:59-69 | the route does not depend on a message's payload |
| Types.RoutesAllUsed | examples/signals-slot/src/types.rs:59-69 | every route name is produced by some message, so route is onto the five names |
| Circuit.Deriv | examples/signals-slot/src/circuit.rs:46-47 | the right-hand side f of the circuit equations, as each step rule computes it; `Circuit.DerivBalances` states that it solves them and `CircuitProperties.DerivVanishesIff` that it vanishes only at (V, 0) |
| Circuit.EulerStep | examples/signals-slot/src/circuit.rs:46-49 | one Euler step s + dt·f(s); `CircuitProperties.EulerFixedPointIff` characterises its fixed points and `CircuitProperties.EulerScales` its linearity in V |
| Circuit.Rk4Step | examples/signals-slot/src/circuit.rs:59-79 | one classic RK4 step; `CircuitProperties.Rk4IsTaylor4` states that it equals the fourth-order Taylor polynomial of the exact flow |
| Circuit.TrapezoidStep | examples/signals-slot/src/circuit.rs:95-106 | one predictor/corrector step; `CircuitProperties.TrapezoidIsTaylor2` states that it equals the second-order Taylor polynomial and `CircuitProperties.TrapezoidIsEulerMidpoint` that it is the midpoint of s and two Euler steps |
| Circuit.Step | examples/signals-slot/src/circuit.rs:42-112 | the step rule selected by the method, fixed for the run; `CircuitProperties.StepFixesEquilibrium` and `CircuitProperties.StepScales` hold for every method |
| Circuit.Iterate | examples/signals-slot/src/circuit.rs:44-52 | the state after k loop iterations; `Circuit.SampleLoop` states that sample k is this state |
| Circuit.Clock | examples/signals-slot/src/circuit.rs:35-45 | the clock after k increments `t += dt`; `Circuit.ClockIsMultiple` states that it is exactly k·dt |
| Circuit.DerivBalances | examples/signals-slot/src/circuit.rs:46-47 | the derivative solves the circuit equations: C·dVc = Il and L·dIl = V - Vc - R·Il |
| Circuit.ToUsize | examples/signals-slot/src/circuit.rs:14 | the saturating cast gives 0 for non-positive inputs, the floor inside the range and usize::MAX above it |
| Circuit.TotalSteps | examples/signals-slot/src/circuit.rs:14 | the step count is within usize, brackets t_max between n·dt and (n+1)·dt for a positive dt within range, saturates to usize::MAX for a positive dt when t_max ≥ usize::MAX·dt, is 0 for a non-negative dt when t_max ≤ 0, and for a zero dt gives usize::MAX when t_max > 0 and 0 otherwise |
| Circuit.ZeroStepOverflows | examples/signals-slot/src/circuit.rs:14-20 | a zero dt with a positive t_max asks for usize::MAX samples, more than the pre-allocation can reserve |
| Circuit.ClockIsMultiple | examples/signals-slot/src/circuit.rs:35-45 | adding dt to the clock k times gives exactly k·dt |
| Circuit.StepBetweenSamples | examples/signals-slot/src/circuit.rs:44-52 | if every sample is the k-fold step from the start, consecutive samples are one step apart |
| Circuit.SampleLoop | examples/signals-slot/src/circuit.rs:29-113 | the loop yields max(1, total) samples, sample j at clock j·dt with the state after j steps from (0, 0) |
| Circuit.Simulate | examples/signals-slot/src/circuit.rs:13-120 | for a step count within the reservable capacity, simulate returns `Ok` with aligned series of max(1, N) samples; sample 0 is (0, 0, 0), times advance by dt and each sample is one step after the previous one |
| CircuitAlgebra.DerivAffine | examples/signals-slot/src/circuit.rs:63-76 | the slope at a shifted state is the slope at the state plus the source-free slope of the shift, which is how the RK4 stage slopes relate to k1 |
| CircuitAlgebra.DerivScales | examples/signals-slot/src/circuit.rs:46-47 | scaling both V and the state by a scales the derivative by a |
| CircuitAlgebra.LinTimes | examples/signals-slot/src/circuit.rs:63-76 | the source-free slope is homogeneous: scaling the shift scales it |
| CircuitAlgebra.DerivAlongSlope | examples/signals-slot/src/circuit.rs:63-76 | the slope at s + a·k is the slope at s plus a times the source-free slope of k |
| CircuitAlgebra.LinOfSum | examples/signals-slot/src/circuit.rs:68-76 | the source-free slope of x + a·y is that of x plus a times that of y |
| CircuitAlgebra.AxpyScales | examples/signals-slot/src/circuit.rs:48-49 | moving a scaled state along a scaled slope gives the scaled result of the unscaled move |
| CircuitProperties.DerivVanishesIff | examples/signals-slot/src/circuit.rs:46-47 | the derivative vanishes if and only if the state is the equilibrium (V, 0) |
| CircuitProperties.EulerFixedPointIff | examples/signals-slot/src/circuit.rs:46-49 | for a nonzero dt an Euler step keeps a state if and only if it is the equilibrium |
| CircuitProperties.StepFixesEquilibrium | examples/signals-slot/src/circuit.rs:42-112 | the equilibrium (V, 0) is a fixed point of all three step rules |
| CircuitProperties.IterateFromEquilibrium | examples/signals-slot/src/circuit.rs:42-112 | a run that starts at the equilibrium stays there for any number of steps |
| CircuitProperties.TrapezoidIsEulerMidpoint | examples/signals-slot/src/circuit.rs:95-106 | the predictor/corrector step lands exactly halfway between s and the result of two successive Euler steps from s |
| CircuitProperties.HalfwayIdentity | examples/signals-slot/src/circuit.rs:105-106 | stepping by h/2 along the sum of two slopes reaches the midpoint of s and the point two steps of h along them lead to |
| CircuitProperties.TrapezoidIsTaylor2 | examples/signals-slot/src/circuit.rs:95-106 | the predictor/corrector step equals the second-order Taylor polynomial s + h·f + h²/2·J f |
| CircuitProperties.HeunIsTaylor2 | examples/signals-slot/src/circuit.rs:105-106 | averaging the slope k1 with the slope k1 + h·a one step ahead gives s + h·k1 + h²/2·a |
| CircuitProperties.HeunWeights | examples/signals-slot/src/circuit.rs:105-106 | the same identity for one component |
| CircuitProperties.Rk4IsTaylor4 | examples/signals-slot/src/circuit.rs:59-79 | the RK4 step equals the fourth-order Taylor polynomial s + h·f + h²/2·Jf + h³/6·J²f + h⁴/24·J³f |
| CircuitProperties.Rk4Combination | examples/signals-slot/src/circuit.rs:79 | the weights 1, 2, 2, 1 over 6, applied to slopes expanded in powers of J, give the Taylor polynomial |
| CircuitProperties.Rk4Weights | examples/signals-slot/src/circuit.rs:79 | the same identity for one component, with the nested stage slopes named |
| CircuitProperties.StepScales | examples/signals-slot/src/circuit.rs:42-112 | scaling V and the state by a scales the result of every step rule by a |
| CircuitProperties.EulerScales | examples/signals-slot/src/circuit.rs:46-49 | scaling V and the state by a scales the Euler step by a |
| CircuitProperties.TrapezoidScales | examples/signals-slot/src/circuit.rs:95-106 | scaling V and the state by a scales the predictor, both slopes and the predictor/corrector step by a |
| CircuitProperties.Rk4StagesScale | examples/signals-slot/src/circuit.rs:59-76 | scaling V and the state by a scales each of the four RK4 slopes by a |
| CircuitProperties.Rk4Scales | examples/signals-slot/src/circuit.rs:59-79 | scaling V and the state by a scales the RK4 step by a |
| CircuitProperties.ResponseScales | examples/signals-slot/src/circuit.rs:29-113 | every sample of the run driven by a·V is a times the matching sample of the run driven by V |
| CircuitProperties.UnforcedStaysAtRest | examples/signals-slot/src/circuit.rs:29-113 | with V = 0 every sample stays at (0, 0) |
| CircuitProperties.ClockStrictlyIncreasing | examples/signals-slot/src/circuit.rs:35-45 | for a positive dt the sample times strictly increase |
| CircuitProperties.DefaultStepCount | examples/signals-slot/src/circuit.rs:14 | the default parameters give exactly 5000 samples |
| SimulationApp.New | examples/signals-slot/src/state.rs:14-21 | a new state has the default parameters, no results, no error and status Ready |
| SimulationApp.UpdateParameters | examples/signals-slot/src/state.rs:23-25 | the parameters are replaced and nothing else changes |
| SimulationApp.SetSimulationResults | examples/signals-slot/src/state.rs:27-34 | new results are stored, the error is cleared and the status returns to Ready; results equal to the stored ones change nothing |
| SimulationApp.SetError | examples/signals-slot/src/state.rs:36-39 | the error is recorded and the status returns to Ready, while parameters and results are kept |
| SimulationApp.StartSimulation | examples/signals-slot/src/state.rs:41-47 | the status becomes Running and the error is cleared, while parameters and results are kept |
| SimulationApp.SetErrorIdempotent | examples/signals-slot/src/state.rs:36-39 | recording the same error twice equals recording it once |
| SimulationApp.SetErrorOverwrites | examples/signals-slot/src/state.rs:36-39 | a later error replaces an earlier one |
| SimulationApp.SetSimulationResultsIdempotent | examples/signals-slot/src/state.rs:27-34 | delivering the same results twice equals delivering them once |
| SimulationApp.RepeatedResultsKeepStatus | examples/signals-slot/src/state.rs:28-29 | results already stored neither end a running simulation nor clear an error |
| SimulationApp.UpdateParametersCommutes | examples/signals-slot/src/state.rs:23-47 | a parameter update commutes with each of the other mutators |
| SimulationApp.ApplyPreservesConsistent | examples/signals-slot/src/state.rs:27-47 | every mutator keeps "running implies no error" |
| SimulationApp.ReachableConsistent | examples/signals-slot/src/state.rs:14-47 | from a new state, no sequence of calls reaches a running state that shows an error |
| SimulationApp.ResultsPersist | examples/signals-slot/src/state.rs:23-47 | once results exist, no sequence of calls removes them |
| SimulationApp.ParametersWithoutUpdate | examples/signals-slot/src/state.rs:23-47 | a sequence of calls without a parameter update keeps the starting parameters |
| SimulationApp.ParametersFollowLastUpdate | examples/signals-slot/src/state.rs:23-47 | after a sequence of calls the parameters are those of the last update, wherever in the sequence it occurs |
| AsyncApp.New | examples/reactive-async/src/state.rs:18-25 | a new state has an empty clock string, 12-hour display, an empty log and the given terminal widget |
| AsyncApp.AppEntry | examples/reactive-async/src/state.rs:29-34 | a logged entry carries the message, source "app" and the orange colour |
| AsyncApp.Log | examples/reactive-async/src/state.rs:27-39 | the new entry is last; below capacity it is appended, at capacity the oldest entry is dropped, and nothing but the log changes |
| AsyncApp.LogStaysBounded | examples/reactive-async/src/state.rs:35-37 | logging never takes a log of at most 1000 entries past 1000 |
| AsyncApp.LogKeepsOrder | examples/reactive-async/src/state.rs:27-39 | the new log is the old one, or the old one minus its first entry, followed by the new entry |
| AsyncApp.LogAllStaysBounded | examples/reactive-async/src/state.rs:27-39 | any number of logs keeps a bounded log bounded and leaves the other fields unchanged |
| AsyncApp.LogAllFromNew | examples/reactive-async/src/state.rs:18-39 | from a new state, the log holds exactly the entries of the last min(n, 1000) messages, oldest first |

## Left out

- Floating point: all arithmetic is exact over `real`. The Rust code's f64 rounding, overflow to infinity and NaN propagation are not modelled.
- Circuit.Deriv: requires C ≠ 0 and L ≠ 0, and so does every step (`Solvable`), whenever at least one step is taken. The Rust code divides anyway and produces infinities or NaN.
- Circuit.Simulate: states the sample times as the repeated sum `Clock(dt, k)`, which is how the Rust code accumulates `t`. `Circuit.ClockIsMultiple` is the separate lemma that turns this into k·dt.
- Circuit.TotalSteps: the f64 division and the cast are modelled over exact reals. The case dt < 0 is characterised only through `ToUsize`.
- The step rules apply each slope as `dt·k` and the predictor/corrector's mean slope as `(dt/2)·(k1 + k2)`, where the Rust code writes `k·dt` and `(k1 + k2)·dt/2`. These are equal over the reals; they round differently in f64.
- Circuit.Simulate: the three Rust loops, one per integration method, become one loop that applies `Step`, which dispatches on the method fixed for the run. The results are identical.
- Circuit.UsizeMax and Circuit.MaxCapacity: assume a 64-bit target (2^64 − 1 and 2^60 − 1). On a 32-bit target the cast saturates at 2^32 − 1 and the reservation limit is 2^28 − 1; that target is not modelled.
- Circuit.Simulate: requires at most `MaxCapacity` (2^60 − 1) steps, because above that `Vec::with_capacity` panics with a capacity overflow; this includes dt = 0 with t_max > 0, where the count saturates to usize::MAX. An allocation failure for a count below that bound that the machine cannot hold is not modelled either.
- The scratch arrays k1..k4 and temp are left out; they hold the slopes the step functions name directly.
- SimulationApp.SetSimulationResults: compares results by exact structural equality. In the Rust code, `SimulationResults` derives no `PartialEq`, and f64 equality would treat NaN samples as unequal.
- The `Dynamic`, `Arc` and `Mutex` wrappers become plain fields, and `Dynamic::set` becomes field replacement. Change notifications to subscribers are not modelled.
- The `println!` in `start_simulation` is not modelled.
- AsyncApp.Log: the timestamp `Local::now()` becomes a parameter. The terminal widget, built from the UI context, is an opaque type parameter.
- The simulation slot thread, the UI panels, the application entry points, the runtime integration, the colour palette and the serde derives are not part of this model. The slot thread refers to status names that do not exist in the enum.
- A parameter-validation error and mid-run cancellation are not modelled, because the code has neither.
