/**
 The shared state of the signals-and-slots RLC application: the circuit
 parameters, the latest results, whether a simulation is running and the
 error shown to the user. Each mutator of the Rust code becomes a function from
 the old record to the new one; the reactive cells that wrap every field are
 plain fields here.
 */
module SimulationApp {
  import opened Types

  datatype AppState = AppState(
    parameters: CircuitParameters,
    results: Option<SimulationResults>,
    sim_state: SimulationState,
    error_message: Option<string>)

  /** A running simulation never shows an error: starting clears the error,
      and recording an error stops the run. */
  predicate Consistent(s: AppState) {
    s.sim_state == Running ==> s.error_message == None
  }

  /** The state a fresh application starts in. */
  function New(): (s: AppState)
    ensures s.parameters == DefaultParameters()
    ensures s.results == None && s.error_message == None
    ensures s.sim_state == Ready
    ensures Consistent(s)
  {
    AppState(DefaultParameters(), None, Ready, None)
  }

  /** Replaces the parameters and nothing else: the status, the results and
      the error are unchanged. */
  function UpdateParameters(s: AppState, params: CircuitParameters): (r: AppState)
    ensures r.parameters == params
    ensures r.(parameters := s.parameters) == s
  {
    s.(parameters := params)
  }

  /** Stores new results, clears the error and returns to Ready; results equal
      to the stored ones leave the whole state untouched. */
  function SetSimulationResults(s: AppState, results: SimulationResults): (r: AppState)
    ensures s.results == Some(results) ==> r == s
    ensures s.results != Some(results) ==>
              r.results == Some(results) && r.error_message == None && r.sim_state == Ready
    ensures r.parameters == s.parameters
    ensures r.results == Some(results)
  {
    if s.results != Some(results) then
      s.(results := Some(results), error_message := None, sim_state := Ready)
    else
      s
  }

  /** Records an error message and returns to Ready. */
  function SetError(s: AppState, error: string): (r: AppState)
    ensures r.error_message == Some(error) && r.sim_state == Ready
    ensures r.parameters == s.parameters && r.results == s.results
  {
    s.(error_message := Some(error), sim_state := Ready)
  }

  /** Marks a simulation as running and clears any previous error. The
      Rust code also prints the parameters; that output is not modelled. */
  function StartSimulation(s: AppState): (r: AppState)
    ensures r.sim_state == Running && r.error_message == None
    ensures r.parameters == s.parameters && r.results == s.results
  {
    s.(sim_state := Running, error_message := None)
  }

  /** Recording the same error twice is the same as recording it once. */
  lemma SetErrorIdempotent(s: AppState, e: string)
    ensures SetError(SetError(s, e), e) == SetError(s, e)
  {
  }

  /** A later error replaces an earlier one. */
  lemma SetErrorOverwrites(s: AppState, e: string, e': string)
    ensures SetError(SetError(s, e), e') == SetError(s, e')
  {
  }

  /** Delivering the same results twice is the same as delivering them once. */
  lemma SetSimulationResultsIdempotent(s: AppState, results: SimulationResults)
    ensures SetSimulationResults(SetSimulationResults(s, results), results)
            == SetSimulationResults(s, results)
  {
  }

  /** Because of the equality guard, results that are already stored do not
      end a running simulation and do not clear a pending error. */
  lemma RepeatedResultsKeepStatus(s: AppState, results: SimulationResults)
    requires s.results == Some(results)
    ensures SetSimulationResults(s, results).sim_state == s.sim_state
    ensures SetSimulationResults(s, results).error_message == s.error_message
  {
  }

  /** Parameter updates commute with every other mutator: they touch disjoint fields. */
  lemma UpdateParametersCommutes(s: AppState, params: CircuitParameters,
                                 results: SimulationResults, e: string)
    ensures UpdateParameters(SetSimulationResults(s, results), params)
            == SetSimulationResults(UpdateParameters(s, params), results)
    ensures UpdateParameters(SetError(s, e), params) == SetError(UpdateParameters(s, params), e)
    ensures UpdateParameters(StartSimulation(s), params) == StartSimulation(UpdateParameters(s, params))
  {
  }

  /** The calls the rest of the application makes on the state. */
  datatype Action =
    | UpdateParametersAction(params: CircuitParameters)
    | SetSimulationResultsAction(results: SimulationResults)
    | SetErrorAction(error: string)
    | StartSimulationAction

  function Apply(s: AppState, a: Action): AppState {
    match a
    case UpdateParametersAction(params) => UpdateParameters(s, params)
    case SetSimulationResultsAction(results) => SetSimulationResults(s, results)
    case SetErrorAction(error) => SetError(s, error)
    case StartSimulationAction => StartSimulation(s)
  }

  /** The state after performing the actions in order. */
  function Run(s: AppState, actions: seq<Action>): AppState
    decreases |actions|
  {
    if |actions| == 0 then s else Apply(Run(s, actions[..|actions| - 1]), actions[|actions| - 1])
  }

  /** Every mutator keeps the state consistent. */
  lemma ApplyPreservesConsistent(s: AppState, a: Action)
    requires Consistent(s)
    ensures Consistent(Apply(s, a))
  {
  }

  /** No sequence of calls from a fresh state ever shows an error while running. */
  lemma {:induction false} ReachableConsistent(actions: seq<Action>)
    ensures Consistent(Run(New(), actions))
  {
    if |actions| > 0 {
      ReachableConsistent(actions[..|actions| - 1]);
      ApplyPreservesConsistent(Run(New(), actions[..|actions| - 1]), actions[|actions| - 1]);
    }
  }

  /** Once results exist they are never dropped: no mutator clears them. */
  lemma {:induction false} ResultsPersist(s: AppState, actions: seq<Action>)
    requires s.results.Some?
    ensures Run(s, actions).results.Some?
  {
    if |actions| > 0 {
      ResultsPersist(s, actions[..|actions| - 1]);
    }
  }

  /** Without parameter updates, a run keeps the starting parameters. */
  lemma {:induction false} ParametersWithoutUpdate(s: AppState, actions: seq<Action>)
    requires forall i :: 0 <= i < |actions| ==> !actions[i].UpdateParametersAction?
    ensures Run(s, actions).parameters == s.parameters
  {
    if |actions| > 0 {
      var n := |actions| - 1;
      assert forall i :: 0 <= i < n ==> actions[..n][i] == actions[i];
      ParametersWithoutUpdate(s, actions[..n]);
    }
  }

  /** After a run, the parameters are those of the last update, wherever it
      occurs: the calls after it leave them alone. */
  lemma {:induction false} ParametersFollowLastUpdate(s: AppState, actions: seq<Action>, i: nat)
    requires i < |actions| && actions[i].UpdateParametersAction?
    requires forall j :: i < j < |actions| ==> !actions[j].UpdateParametersAction?
    ensures Run(s, actions).parameters == actions[i].params
  {
    var n := |actions| - 1;
    if i < n {
      assert actions[..n][i] == actions[i];
      assert forall j :: i < j < n ==> actions[..n][j] == actions[j];
      ParametersFollowLastUpdate(s, actions[..n], i);
    }
  }
}
