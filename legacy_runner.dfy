/**
 * `run_simulation` (backend/simulation/pybamm_runner.py), the older runner:
 * a two-way chemistry dispatch, a filter that keeps only request entries the
 * preset already has, and the `c_rate`/`duration` knobs with their defaults.
 * The solver call and the plot it renders are one external step here.
 */
module LegacyRunner {
  import opened Wrappers
  import opened Request
  import opened Registry
  import opened Parameters

  /** What the runner raises, by stage. */
  datatype RunnerError =
    | UnsupportedChemistry(batteryType: string) // ValueError("Unsupported battery type: ...")
    | NotAFloat(knob: string)                   // float() of the knob raised
    | SolveOrPlotFailed(message: string)        // the solver or the plotting raised

  /** The returned dictionary. */
  datatype RunnerResult = RunnerResult(status: string, plotBase64: string, summary: string)

  /** What reaches the solver: the model, the updated preset, and the evaluation times. */
  datatype RunnerJob = RunnerJob(model: ModelSpec, parameters: map<string, Value>, tEval: seq<real>)

  /** Solving over `t_eval` and rendering the voltage plot as base64 PNG, or the message of what raised. */
  type SolveAndPlot = (ModelSpec, map<string, Value>, seq<real>) -> Result<string, string>

  /** The entries of each named preset, as the solver library defines them. */
  type Presets = string -> map<string, Value>

  const DefaultCRate: real := 1.0
  const DefaultDuration: real := 3600.0

  /**
   * The chemistry dispatch: lithium-ion runs DFN on Chen2020, lead-acid runs
   * LOQS on Sulzer2019, and every other chemistry is refused.
   */
  function Dispatch(batteryType: string): (r: Result<(ModelSpec, string), RunnerError>)
    ensures r.Success? <==> batteryType == "lithium-ion" || batteryType == "lead-acid"
    ensures r.Failure? ==> r.error == UnsupportedChemistry(batteryType)
    ensures batteryType == "lithium-ion" ==> r == Success((ModelSpec(LithiumIon, "DFN", NoOptions), "Chen2020"))
    ensures batteryType == "lead-acid" ==> r == Success((ModelSpec(LeadAcid, "LOQS", NoOptions), "Sulzer2019"))
  {
    if batteryType == "lithium-ion" then Success((ModelSpec(LithiumIon, "DFN", NoOptions), "Chen2020"))
    else if batteryType == "lead-acid" then Success((ModelSpec(LeadAcid, "LOQS", NoOptions), "Sulzer2019"))
    else Failure(UnsupportedChemistry(batteryType))
  }

  /** `float(request.get(knob, default))` */
  function KnobAsFloat(request: map<string, Value>, knob: string, default: real): Result<real, RunnerError>
  {
    match ToFloat(Get(request, knob, Num(default)))
    case Some(x) => Success(x)
    case None => Failure(NotAFloat(knob))
  }

  /**
   * Everything before the solver call.  An unknown chemistry is refused
   * before any parameter handling; the preset keeps its own names and takes
   * the request's value for each name it has; `c_rate` and `duration` must
   * coerce to floats (1 and 3600 when absent), and the solver is asked for
   * the times 0 and `duration`.
   */
  function PrepareRun(batteryType: string, request: map<string, Value>, presets: Presets): (r: Result<RunnerJob, RunnerError>)
    ensures Dispatch(batteryType).Failure? ==> r == Failure(UnsupportedChemistry(batteryType))
    ensures r.Success? ==>
      var preset := presets(Dispatch(batteryType).value.1);
      && r.value.model == Dispatch(batteryType).value.0
      && r.value.parameters.Keys == preset.Keys
      && (forall k :: k in preset ==> r.value.parameters[k] == if k in request then request[k] else preset[k])
    ensures Dispatch(batteryType).Success? ==>
      (r.Success? <==> KnobAsFloat(request, "c_rate", DefaultCRate).Success?
                       && KnobAsFloat(request, "duration", DefaultDuration).Success?)
    ensures r.Success? ==> r.value.tEval == [0.0, KnobAsFloat(request, "duration", DefaultDuration).value]
    ensures r.Success? && "duration" !in request ==> r.value.tEval == [0.0, 3600.0]
  {
    var (model, presetName) :- Dispatch(batteryType);
    var preset := presets(presetName);
    var parameters := preset + FilterValid(preset.Keys, request);
    FilterThenUpdateIsOverride(preset, request);
    OverriddenSpec(preset, request);
    var cRate :- KnobAsFloat(request, "c_rate", DefaultCRate);
    var duration :- KnobAsFloat(request, "duration", DefaultDuration);
    Success(RunnerJob(model, parameters, [0.0, duration]))
  }

  /** What `run_simulation` returns or raises. */
  function Ran(batteryType: string, request: map<string, Value>, presets: Presets, solveAndPlot: SolveAndPlot)
    : (r: Result<RunnerResult, RunnerError>)
    ensures r.Success? ==> r.value.status == "success" && r.value.summary == "Simulation completed"
  {
    var job :- PrepareRun(batteryType, request, presets);
    match solveAndPlot(job.model, job.parameters, job.tEval)
    case Success(image) => Success(RunnerResult("success", image, "Simulation completed"))
    case Failure(message) => Failure(SolveOrPlotFailed(message))
  }

  /**
   * `run_simulation`: dispatches on the chemistry, loads the preset, keeps
   * the request entries whose names the preset has, updates the preset with
   * them, reads the two knobs, solves and plots.
   */
  method RunSimulation(batteryType: string, request: map<string, Value>, presets: Presets, solveAndPlot: SolveAndPlot)
    returns (r: Result<RunnerResult, RunnerError>)
    ensures r == Ran(batteryType, request, presets, solveAndPlot)
  {
    var dispatched := Dispatch(batteryType);
    if dispatched.Failure? { return Failure(dispatched.error); }
    var (model, presetName) := dispatched.value;

    var param := new ParameterValues(presets(presetName));
    var validKeys := param.Keys();
    var filtered := FilterValid(validKeys, request);
    param.Update(filtered);

    var cRate := KnobAsFloat(request, "c_rate", DefaultCRate);
    if cRate.Failure? { return Failure(cRate.error); }
    var duration := KnobAsFloat(request, "duration", DefaultDuration);
    if duration.Failure? { return Failure(duration.error); }
    var tEval := [0.0, duration.value];

    var plotted := solveAndPlot(model, param.values, tEval);
    if plotted.Failure? { return Failure(SolveOrPlotFailed(plotted.error)); }
    r := Success(RunnerResult("success", plotted.value, "Simulation completed"));
  }

  /** An unsupported chemistry is refused whatever the request and the solver. */
  lemma {:induction false} UnsupportedChemistryRefused(batteryType: string, request: map<string, Value>,
                                                       presets: Presets, solveAndPlot: SolveAndPlot)
    requires batteryType != "lithium-ion" && batteryType != "lead-acid"
    ensures Ran(batteryType, request, presets, solveAndPlot) == Failure(UnsupportedChemistry(batteryType))
  {
  }

  /**
   * Request entries outside the preset never reach it: the two knobs
   * themselves only shape the evaluation times, unless the preset happens to
   * have entries of those names.
   */
  lemma {:induction false} UnrelatedRequestLeavesPreset(batteryType: string, request: map<string, Value>, presets: Presets)
    requires PrepareRun(batteryType, request, presets).Success?
    requires forall k :: k in request ==> k !in presets(Dispatch(batteryType).value.1)
    ensures PrepareRun(batteryType, request, presets).value.parameters == presets(Dispatch(batteryType).value.1)
  {
    var preset := presets(Dispatch(batteryType).value.1);
    assert FilterValid(preset.Keys, request) == map[];
  }
}
