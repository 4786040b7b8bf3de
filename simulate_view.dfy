/**
 * `SimulateView.run_pybamm_simulation` (frontend/src/code.jsx): registry
 * lookups, override application, experiment construction, the solver call
 * and result extraction, in that order.  The solver and the contents of the
 * parameter presets belong to the solver library; they are parameters here.
 */
module SimulateView {
  import opened Wrappers
  import opened Request
  import opened Registry
  import opened Protocol
  import opened Parameters
  import opened Results
  import Validator

  /** What `pybamm.Simulation(...).solve()` gives: a solution, or the message of what it raised. */
  datatype SolveOutcome = Solved(solution: Solution) | SolverRaised(message: string)

  /** The external solver, given the model, the parameter values and the experiment steps. */
  type Solver = (ModelSpec, map<string, Value>, seq<Step>) -> SolveOutcome

  /** The entries of each named preset, as the solver library defines them. */
  type Presets = string -> map<string, Value>

  /**
   * Every failure is re-raised as `Exception("Simulation failed: ...")`;
   * the constructor records which stage raised.
   */
  datatype SimulationFailure =
    | RegistryFailed(registryError: RegistryError)
    | ExperimentFailed(experimentError: ExperimentError)
    | SolverFailed(message: string)
    | ExtractionFailed(handlerError: HandlerError)

  /** What reaches the solver: the model, the overridden preset and the experiment steps. */
  datatype SolverJob = SolverJob(model: ModelSpec, parameters: map<string, Value>, steps: seq<Step>)

  /**
   * Everything before the solver call.  The model lookup comes first, then
   * the preset lookup; the solver gets the preset's own names with the
   * request's values where the request names them, and steps built from the
   * raw request (the clamping of `validate_parameters` is never applied).
   */
  function PrepareJob(batteryType: string, modelName: string, parameterSet: string, experimentType: string,
                      custom: map<string, Value>, presets: Presets): (r: Result<SolverJob, SimulationFailure>)
    ensures GetModel(batteryType, modelName).Failure? ==>
      r == Failure(RegistryFailed(GetModel(batteryType, modelName).error))
    ensures GetModel(batteryType, modelName).Success? && GetParameterSet(batteryType, parameterSet).Failure? ==>
      r == Failure(RegistryFailed(GetParameterSet(batteryType, parameterSet).error))
    ensures GetModel(batteryType, modelName).Success? && GetParameterSet(batteryType, parameterSet).Success?
            && CreateExperiment(experimentType, custom).Failure? ==>
      r == Failure(ExperimentFailed(CreateExperiment(experimentType, custom).error))
    ensures r.Success? <==>
      GetModel(batteryType, modelName).Success? && GetParameterSet(batteryType, parameterSet).Success?
      && CreateExperiment(experimentType, custom).Success?
    ensures r.Success? ==> r.value.model == GetModel(batteryType, modelName).value && r.value.model.name == modelName
    ensures r.Success? ==> r.value.parameters.Keys == presets(parameterSet).Keys
    ensures r.Success? ==> forall k :: k in r.value.parameters ==>
      r.value.parameters[k] == if k in custom then custom[k] else presets(parameterSet)[k]
    ensures r.Success? ==> Success(r.value.steps) == CreateExperiment(experimentType, custom)
  {
    var model :- MapError(GetModel(batteryType, modelName));
    var preset :- MapError(GetParameterSet(batteryType, parameterSet));
    var steps :- match CreateExperiment(experimentType, custom)
      case Success(s) => Success(s)
      case Failure(e) => Failure(ExperimentFailed(e));
    OverriddenSpec(presets(preset), custom);
    Success(SolverJob(model, Overridden(presets(preset), custom), steps))
  }

  function MapError<T>(r: Result<T, RegistryError>): Result<T, SimulationFailure>
  {
    match r
    case Success(v) => Success(v)
    case Failure(e) => Failure(RegistryFailed(e))
  }

  /** The duration `extract_results` is given: the raw request value, 3600 by default. */
  function RequestedDuration(custom: map<string, Value>): Value
  {
    Get(custom, DurationKey, Num(DefaultDuration))
  }

  /**
   * What `run_pybamm_simulation` returns or raises.  Extraction never makes
   * it fail: a job is only prepared when the duration is numeric, and with
   * a numeric duration the extraction's fallback cannot raise.
   */
  function Simulated(batteryType: string, modelName: string, parameterSet: string, experimentType: string,
                     custom: map<string, Value>, presets: Presets, solve: Solver): (r: Result<SimulationResult, SimulationFailure>)
    ensures !r.Failure? || !r.error.ExtractionFailed?
    ensures PrepareJob(batteryType, modelName, parameterSet, experimentType, custom, presets).Failure? ==>
      r == Failure(PrepareJob(batteryType, modelName, parameterSet, experimentType, custom, presets).error)
  {
    match PrepareJob(batteryType, modelName, parameterSet, experimentType, custom, presets)
    case Failure(e) => Failure(e)
    case Success(job) =>
      match solve(job.model, job.parameters, job.steps)
      case SolverRaised(message) => Failure(SolverFailed(message))
      case Solved(solution) =>
        ExtractedNeverRaises(solution, RequestedDuration(custom).x);
        match Extracted(solution, RequestedDuration(custom))
        case Success(result) => Success(result)
        case Failure(e) => Failure(ExtractionFailed(e))
  }

  /**
   * `run_pybamm_simulation`: looks the model and preset up, loads a fresh
   * copy of the preset, overwrites the entries the request names, builds the
   * experiment from the raw request, solves, and extracts the results.
   */
  method RunPybammSimulation(batteryType: string, modelName: string, parameterSet: string, experimentType: string,
                             custom: map<string, Value>, presets: Presets, solve: Solver)
    returns (r: Result<SimulationResult, SimulationFailure>)
    ensures r == Simulated(batteryType, modelName, parameterSet, experimentType, custom, presets, solve)
  {
    var model := GetModel(batteryType, modelName);
    if model.Failure? { return Failure(RegistryFailed(model.error)); }
    var preset := GetParameterSet(batteryType, parameterSet);
    if preset.Failure? { return Failure(RegistryFailed(preset.error)); }

    var params := new ParameterValues(presets(preset.value));
    ApplyCustomParameters(params, custom);

    var experiment := CreateExperiment(experimentType, custom);
    if experiment.Failure? { return Failure(ExperimentFailed(experiment.error)); }

    var outcome := solve(model.value, params.values, experiment.value);
    if outcome.SolverRaised? { return Failure(SolverFailed(outcome.message)); }

    var extracted := ExtractResults(outcome.solution, RequestedDuration(custom));
    if extracted.Failure? { return Failure(ExtractionFailed(extracted.error)); }
    r := Success(extracted.value);
  }

  /** An unknown chemistry is rejected before any parameter handling, whatever the solver would do. */
  lemma {:induction false} UnknownChemistryRejected(batteryType: string, modelName: string, parameterSet: string,
                                                    experimentType: string, custom: map<string, Value>,
                                                    presets: Presets, solve: Solver)
    requires batteryType !in ModelMapping
    ensures Simulated(batteryType, modelName, parameterSet, experimentType, custom, presets, solve)
      == Failure(RegistryFailed(UnsupportedBatteryType(batteryType)))
  {
  }

  /**
   * The scenario: lithium-ion, SPM, Chen2020, constant current, with a
   * C-rate of 2 and a duration of 1800s.  Neither name is a preset entry, so
   * the preset reaches the solver unchanged, yet both still shape the single
   * step: discharge at 2C for half an hour or until 2.5V.
   */
  lemma {:induction false} ScenarioJob(presets: Presets)
    requires "C-rate" !in presets("Chen2020") && "Simulation duration [s]" !in presets("Chen2020")
    ensures var custom := map["C-rate" := Num(2.0), "Simulation duration [s]" := Num(1800.0)];
      PrepareJob("lithium-ion", "SPM", "Chen2020", "constant_current", custom, presets)
        == Success(SolverJob(ModelSpec(LithiumIon, "SPM", NoOptions), presets("Chen2020"),
                             [Step(Discharge, CRate(Num(2.0)), Some(0.5), Some(Num(2.5)))]))
  {
    var custom := map["C-rate" := Num(2.0), "Simulation duration [s]" := Num(1800.0)];
    var preset := presets("Chen2020");
    assert Overridden(preset, custom) == preset;
  }

  /**
   * `validate_parameters` is never called: a C-rate of 50, which the
   * validator would clamp to 20, reaches the protocol as 50.
   */
  lemma {:induction false} OverridesAreNotClamped(presets: Presets)
    ensures Validator.Validated(map["C-rate" := Num(50.0)]) == Success(map["C-rate" := 20.0])
    ensures var job := PrepareJob("lithium-ion", "SPM", "Chen2020", "constant_current", map["C-rate" := Num(50.0)], presets);
      job.Success? && job.value.steps[0].setpoint == CRate(Num(50.0))
  {
    Validator.CRateClampedExamples();
  }

  /**
   * A solver that returns a solution makes the run return exactly what
   * `extract_results` makes of it, given the requested duration.
   */
  lemma {:induction false} SolvedRunIsExtracted(batteryType: string, modelName: string, parameterSet: string,
                                                experimentType: string, custom: map<string, Value>,
                                                presets: Presets, solve: Solver, solution: Solution)
    requires PrepareJob(batteryType, modelName, parameterSet, experimentType, custom, presets).Success?
    requires var job := PrepareJob(batteryType, modelName, parameterSet, experimentType, custom, presets).value;
      solve(job.model, job.parameters, job.steps) == Solved(solution)
    ensures RequestedDuration(custom).Num?
    ensures Extracted(solution, RequestedDuration(custom)).Success?
    ensures Simulated(batteryType, modelName, parameterSet, experimentType, custom, presets, solve)
      == Success(Extracted(solution, RequestedDuration(custom)).value)
  {
    ExtractedNeverRaises(solution, RequestedDuration(custom).x);
  }

  /** A solver that raises is reported as a simulation failure carrying its message. */
  lemma {:induction false} SolverFailureReported(batteryType: string, modelName: string, parameterSet: string,
                                                 experimentType: string, custom: map<string, Value>,
                                                 presets: Presets, solve: Solver, message: string)
    requires PrepareJob(batteryType, modelName, parameterSet, experimentType, custom, presets).Success?
    requires var job := PrepareJob(batteryType, modelName, parameterSet, experimentType, custom, presets).value;
      solve(job.model, job.parameters, job.steps) == SolverRaised(message)
    ensures Simulated(batteryType, modelName, parameterSet, experimentType, custom, presets, solve)
      == Failure(SolverFailed(message))
  {
  }
}
