# Battery simulation backend and forms, modelled in Dafny

This project models the core of a web application for battery
simulations. A React front end lets the user pick a chemistry, a model, a
parameter preset and an experiment type, and edit parameters by category.
A Django view turns such a request into a PyBaMM simulation:

- it looks up the model class and the preset for the chemistry;
- it overwrites the preset entries the request names;
- it builds an experiment protocol;
- it solves the experiment and extracts time series, a summary and metadata.

The project also models a separate validator with fixed parameter bounds,
the model catalogue endpoint, an older single-function runner, and the
registration form's validation and error handling.

Modules:

- `Wrappers`: `Option` and `Result`. `Result` supports `:-`.
- `Request`: request values. A value is a number, a string (with what
  Python's `float()` makes of it), or something that is neither.
- `Registry`: `get_model` and `get_parameter_set`, with their exact error
  messages.
- `Protocol`: `create_experiment`. Experiment steps are structured values,
  not formatted strings.
- `Validator`: `validate_parameters`, the bounds table and the clamping.
- `Parameters`: the parameter-values object as a class whose map field is
  updated in place, the override loop, and the key filter of the older
  runner.
- `Results`: `extract_results`, including the optional-variable loop, the
  summary statistics and the fallback payload.
- `SimulateView`: `run_pybamm_simulation` end to end. The solver and the
  preset contents are parameters.
- `ModelInfoView`: the catalogue, checked against the registries.
- `Frontend`: the page's tables and defaults, `handleParameterChange`, the
  flattening of parameter categories, and the chemistry-change effect,
  compared with what the backend accepts.
- `LegacyRunner`: `run_simulation` in `backend/simulation/pybamm_runner.py`.
- `Register`: the registration form handler.

## Model

| member | source | states |
|---|---|---|
| Registry.GetModel | frontend/src/code.jsx:612-650 | An unknown chemistry fails with "Unsupported battery type", exactly when the chemistry is unregistered. A registered chemistry with an unknown model fails with "Unsupported model". The lookup succeeds exactly when the pair is registered, and it returns the registered entry. On success the model has the requested name. It is lead-acid exactly for lead-acid, carries the sodium working-ion option exactly for sodium-ion, and carries reversible lithium plating exactly for lithium-metal. |
| Registry.GetParameterSet | frontend/src/code.jsx:652-683 | An unknown chemistry fails with "No parameters available", exactly when it is unregistered. An unknown preset fails with "not available". Success happens exactly when the preset is registered for the chemistry, and it returns that preset. |
| Registry.SameChemistries | frontend/src/code.jsx:615-636 | The model and preset registries cover the same four chemistries. |
| Protocol.CreateExperiment | frontend/src/code.jsx:685-720 | It succeeds exactly when the duration and the current are numbers and the current is nonzero, because all six templates are built eagerly. An unknown type yields the constant-current step built from the request's knobs or their defaults. cccv yields two steps: charge until the upper voltage, then hold at it for duration/3600 hours. Every other type yields one step. The steps of each of the six templates are stated in full: constant_voltage charges at the upper voltage for the duration; current_function discharges at the requested current; power_function at current·3.7 W; resistance_function at 1/current Ω. Every discharge step stops at the cut-off voltage. |
| Protocol.UnknownTypeIsConstantCurrent | frontend/src/code.jsx:717-718 | Any type outside the six templates gives the same result as constant_current. |
| Protocol.DefaultConstantCurrent | frontend/src/code.jsx:688-697 | An empty request gives one step: discharge at 1C for 1 hour or until 2.5 V. |
| Protocol.ZeroCurrentFailsEveryType | frontend/src/code.jsx:693-713 | A current of 0 with a numeric duration fails every type with a division by zero, including types that never use the current. |
| Validator.Clamp | frontend/src/code.jsx:1017-1018 | The result lies within the bounds. A value already inside is unchanged. A value below becomes the lower bound, a value above the upper bound. |
| Validator.ValidateParameters | frontend/src/code.jsx:998-1023 | The loop over the request returns exactly the validation function's result: a failure when some value does not convert to float, otherwise every entry converted and clamped where a bound exists. |
| Validator.BoundsAreRanges | frontend/src/code.jsx:1003-1013 | Every bound in the table has its lower end at or below its upper end. |
| Validator.ValidatedSpec | frontend/src/code.jsx:1015-1023 | Validation succeeds exactly when every value converts. On success it keeps exactly the request's keys. A bounded key lands inside its bounds, and an unbounded key keeps its float value. |
| Validator.ValidatedIdempotent | frontend/src/code.jsx:1015-1023 | Validating an already validated result changes nothing. |
| Validator.CRateClampedExamples | frontend/src/code.jsx:1004 | A C-rate of 50 becomes 20, and one of -5 becomes 0.01. |
| Parameters.ParameterValues.Set | frontend/src/code.jsx:592-593 | Assigning one entry changes that entry and nothing else. |
| Parameters.ParameterValues.Update | backend/simulation/pybamm_runner.py:24 | Updating with entries the preset has overwrites those entries and keeps the set of names. |
| Parameters.ApplyCustomParameters | frontend/src/code.jsx:590-593 | The loop leaves the object holding the preset with each request entry it names overwritten. Request names the preset lacks are ignored. |
| Parameters.OverriddenSpec | frontend/src/code.jsx:590-593 | After overriding, the names are the preset's names. A name in the request takes the request's value; any other name keeps the preset's value. |
| Parameters.UnknownOverrideIgnored | frontend/src/code.jsx:592 | Adding a request entry whose name the preset lacks does not change the result. |
| Parameters.OverriddenIdempotent | frontend/src/code.jsx:590-593 | Applying the same overrides twice gives the same result as applying them once. |
| Parameters.FilterValid | backend/simulation/pybamm_runner.py:18-21 | The filtered request has exactly the request names that are valid, each with the request's value. |
| Parameters.FilterThenUpdateIsOverride | backend/simulation/pybamm_runner.py:18-24 | Filtering then updating gives the same parameters as the override loop of the newer view. |
| Results.ExtractResults | frontend/src/code.jsx:722-802 | The method returns exactly the extraction function's result, including the fallback on any failure. |
| Results.AddOptionalVariables | frontend/src/code.jsx:748-754 | The loop adds, under its output key, exactly the series of each optional variable that is available. |
| Results.OptionalFromSpec | frontend/src/code.jsx:748-754 | With distinct output keys, each optional variable is present exactly when its own series is available, and then holds that series. No other key is added. |
| Results.OptionalVariablesWellFormed | frontend/src/code.jsx:729-746 | The eight optional output keys are distinct, and none of them is one of the four required keys. |
| Results.ExtractedNeverRaises | frontend/src/code.jsx:722-802 | With a numeric duration the extraction always returns, whatever the solution holds. |
| Results.FallbackOnRequiredFailure | frontend/src/code.jsx:781-802 | A missing or raising required series gives the fixed payload. Time is [0, d], voltage [4, 3], current [1, 1] and soc [0, 1]. The summary is 3.0 / 3.5 / 1.0 / d / 3.5·d. The metadata holds 2 points over [0, d] and the first failing cause. |
| Results.SuccessfulExtraction | frontend/src/code.jsx:724-779 | A successful extraction has no error marker and holds the required series as read. Each optional series is present exactly when available, holds the series read, and no other key appears. The summary is the last voltage, the mean voltage, the last capacity, the last time and the energy integral (0 below two time points). The point count is the number of time samples, and the time range spans the first and last samples. |
| Results.FallbackOnShapeMismatch | frontend/src/code.jsx:769 | When the required series are read but, with two or more time points, a series' length differs from time's, the energy integral fails and the result is the fixed fallback payload marked with the shape mismatch. |
| Results.SumBounds | frontend/src/code.jsx:766 | If every sample lies in [lo, hi], the sum of n samples lies in [n·lo, n·hi]. |
| Results.MeanWithinBounds | frontend/src/code.jsx:766 | The average voltage lies between any bounds of the samples. |
| Results.TrapezoidNonNegative | frontend/src/code.jsx:769 | The trapezoid integral of non-negative samples over non-decreasing times is non-negative. |
| Results.EnergyNonNegative | frontend/src/code.jsx:769 | With non-negative voltages and non-decreasing times the energy delivered is non-negative, since current enters only as its absolute value. |
| Results.EnergyExample | frontend/src/code.jsx:769 | Voltages 4, 3.5, 3 at constant 1 A over times 0, 1, 2 deliver 7. |
| Results.FallbackSummaryIsDerived | frontend/src/code.jsx:790-796 | The fixed fallback summary is the one the ordinary summary computes from the fallback's own series. |
| SimulateView.PrepareJob | frontend/src/code.jsx:578-597 | The model lookup fails first, the preset lookup second, and a failing `create_experiment` third, as an experiment-stage failure. A job is prepared exactly when all three succeed. The solver gets the model `get_model` returns and the preset's names with the request's values where the request names them. The steps are exactly `create_experiment` of the raw request. |
| SimulateView.Simulated | frontend/src/code.jsx:578-610 | A run never fails in the extraction stage. When preparing the job fails (unknown chemistry, model or preset, or a failing experiment), the run fails with that same error. |
| SimulateView.RunPybammSimulation | frontend/src/code.jsx:578-610 | The method, with a fresh preset object updated in place, returns exactly the function's result. |
| SimulateView.UnknownChemistryRejected | frontend/src/code.jsx:638-639 | An unregistered chemistry fails in the registry stage, whatever the solver does. |
| SimulateView.ScenarioJob | frontend/src/code.jsx:578-597 | A lithium-ion SPM/Chen2020 request with C-rate 2 and duration 1800 gives the solver one step: discharge at 2C for 0.5 hours or until 2.5 V. The preset reaches the solver unchanged. |
| SimulateView.OverridesAreNotClamped | frontend/src/code.jsx:578-597 | A C-rate of 50 reaches the experiment as 50, although the validator would clamp it to 20. |
| SimulateView.SolvedRunIsExtracted | frontend/src/code.jsx:599-607 | When the solver returns a solution, the run returns exactly what `extract_results` makes of it with the requested duration, which is numeric and never makes extraction fail. |
| SimulateView.SolverFailureReported | frontend/src/code.jsx:603-610 | When the solver raises, the run fails with the solver's message. |
| ModelInfoView.CatalogModelsPerChemistry | frontend/src/code.jsx:856-882 | Each catalogued chemistry is registered, and its model list is exactly its registered models. |
| ModelInfoView.CatalogAgreesWithGetModel | frontend/src/code.jsx:856-882 | A model lookup succeeds exactly when the catalogue lists the chemistry with that model. |
| ModelInfoView.CatalogAgreesWithGetParameterSet | frontend/src/code.jsx:856-882 | A preset lookup succeeds exactly when the catalogue lists the chemistry with that preset. |
| ModelInfoView.CatalogAgreesWithProtocols | frontend/src/code.jsx:883-890 | The catalogue's experiment types are exactly the six types with templates. |
| Frontend.IndexOf | frontend/src/code.jsx:150-151 | A found position holds the category. When nothing is found, no position holds it. |
| Frontend.IndexOfAt | frontend/src/code.jsx:150-151 | The last position holding the category is the one found. |
| Frontend.IndexOfUnique | frontend/src/code.jsx:150-151 | No position after the one found holds the category. |
| Frontend.HandleParameterChangeSpec | frontend/src/code.jsx:147-155 | After an edit, the category is its old entries (none when it is new) with the parameter set to the parsed value, or 0 when the text does not parse. Every other entry keeps its value. The category stays at its position, or is appended at the end when new. Every other category is unchanged. |
| Frontend.FlattenSpec | frontend/src/code.jsx:168-171 | A name is in the flat parameters exactly when some category holds it, and it takes the value of the last category that holds it. |
| Frontend.ChemistryChangedSpec | frontend/src/code.jsx:137-145 | A chemistry change resets the parameters to the defaults. For a listed chemistry it selects the first model and the first preset the page lists; for an unlisted one it keeps the model and preset. |
| Frontend.FirstChoicesAgainstBackend | frontend/src/code.jsx:137-145 | For every chemistry the page lists, it lists a first model and a first preset. The backend accepts both exactly when it registers the chemistry. |
| Frontend.ResetSelectionAgainstBackend | frontend/src/code.jsx:137-145 | After a chemistry change, the backend accepts the selected model and preset exactly when it registers the chemistry. lithium-sulfur and zinc-air are rejected. |
| Frontend.PageModelsAgainstBackend | frontend/src/code.jsx:4-33 | Every model the page offers is accepted by the backend exactly when the backend registers the chemistry. |
| Frontend.PagePresetsAgainstBackend | frontend/src/code.jsx:34-42 | The backend rejects the page's OKane2020, Bode1977, Tomaszewska2019 and Plating2021 presets and all lithium-sulfur and zinc-air presets. It accepts every other preset the page offers. |
| Frontend.PageExperimentTypesAgainstBackend | frontend/src/code.jsx:43-53 | Six of the page's nine experiment types have no template and run as constant current. Only constant_current, constant_voltage and cccv are known to both sides. |
| LegacyRunner.Dispatch | backend/simulation/pybamm_runner.py:8-15 | Dispatch succeeds exactly for lithium-ion (DFN with Chen2020) and lead-acid (LOQS with Sulzer2019). Anything else fails with "Unsupported battery type". |
| LegacyRunner.PrepareRun | backend/simulation/pybamm_runner.py:6-28 | An unsupported chemistry fails first. The parameters are the preset's names with the request's values where the request names them. The run proceeds exactly when `c_rate` and `duration` convert to float. The evaluation times are 0 and the duration, 3600 by default. |
| LegacyRunner.Ran | backend/simulation/pybamm_runner.py:43-47 | A successful run reports status "success" and summary "Simulation completed". |
| LegacyRunner.RunSimulation | backend/simulation/pybamm_runner.py:6-47 | The method, with a preset object updated in place, returns exactly the function's result. |
| LegacyRunner.UnsupportedChemistryRefused | backend/simulation/pybamm_runner.py:14-15 | Any chemistry other than the two fails with the unsupported-type error, whatever the solver does. |
| LegacyRunner.UnrelatedRequestLeavesPreset | backend/simulation/pybamm_runner.py:17-24 | A request naming no preset entry leaves the preset unchanged. |
| Register.BlankIffAllWhitespace | frontend/src/Register.js:18 | A field trims to nothing exactly when every character in it is JavaScript whitespace. |
| Register.Utf16LengthBounds | frontend/src/Register.js:28 | The JavaScript length of a password is between its character count and twice that. It equals the character count when every character is in the basic plane. |
| Register.ThreeAstralCharactersAreLongEnough | frontend/src/Register.js:28 | A password of three emoji has length 6 and passes the length check. |
| Register.ValidateForm | frontend/src/Register.js:18-31 | A blank field gives "Please fill in all fields", exactly. Otherwise, a differing confirmation gives "Passwords do not match". Otherwise, a length below 6 gives the too-short message. Validation passes exactly when none of these holds. |
| Register.ErrorMessage | frontend/src/Register.js:59-73 | A refused connection, then a timeout, take priority. A server response gives its non-empty `error` text, else its non-empty `message` text, else "Server error: " and the status. A request with no response gives the no-response message. Anything else gives "Network error: " and the error's message. |
| Register.RegisterForm.Validate | frontend/src/Register.js:18-34 | A failing check shows its message and leaves `loading` alone. Passing sets `loading` and clears the error. |
| Register.RegisterForm.HandleRegister | frontend/src/Register.js:14-77 | A failing check sends nothing. Otherwise exactly one request with the username, email and password is posted. Success alerts and navigates to /login. Failure shows the mapped message. `loading` ends false either way. |

## Left out

- The solver library is not modelled. Model construction, `pybamm.Simulation`, solving, plotting and PNG/base64 encoding are outside the model. The solver is a function parameter that returns a solution or a raised message. The contents of each preset are also a parameter. `get_parameter_set` loads all eleven presets of all four chemistries before it checks the chemistry; that loading is assumed never to raise.
- `Protocol.CreateExperiment`: `pybamm.Experiment` is assumed to accept every step built. It parses the step strings, so a non-numeric C-rate or cut-off voltage ("Discharge at fastC ...", "... or until NoneV") may be refused there. In the model such a refusal appears only as a solver failure.
- `Registry.GetModel`: constructing the registered model class (frontend/src/code.jsx:647-650 calls it with or without options) is assumed never to raise.
- Floating point is not modelled. All numbers are exact reals, so rounding in `duration/3600`, `current*3.7`, the mean and `np.trapz` does not appear, and neither do NaN and infinity.
- Python's `float()` on a string is abstracted: a string value carries its parse result, or nothing if the parse fails.
- JSON booleans and `null` values are lumped into "not a number". Python treats a boolean as 1 or 0, so `float(True)` is 1.0, `True/3600` works and `1/False` raises a division by zero. The model therefore rejects booleans that `validate_parameters`, `create_experiment` and the older runner accept.
- A request whose parameters are `None` rather than a dict cannot be represented: the request is always a map. In the source it raises `AttributeError` at `params.get` and is reported as "Simulation failed".
- Experiment steps are structured values. The exact text of the protocol strings (Python's float formatting, such as `0.5` vs `0.50`) is not modelled.
- `Results.Energy`: series of different lengths are treated as a failure that leads to the fallback payload. numpy's broadcasting of a length-1 array is not modelled.
- `Results.ExtractResults`: the order of keys in the returned dict is not modelled, because the variables are a map. Converting numpy arrays to lists is the identity here.
- `Validator.ValidateParameters`: the text of the float() error is not modelled; a failure records only that the value did not convert. The battery type and model arguments are unused, as in the source.
- `Parameters.ParameterValues.Update`: the model requires the entries to name existing keys, because the runner only passes the filtered request. The library's own checks on `update` are outside the model.
- `SimulateView.Simulated`: the "Simulation failed: ..." wrapper is a failure value that records which stage raised. The exception text itself is not modelled.
- The HTTP layer is left out: the `post` handlers, authentication and permission classes, `ParameterInfoView`, `AskAIView`, the register and login views, and the URL routing. `backend/simulation/views.py` calls `run_simulation` with three arguments and `backend/simulation/urls.py` names views that module lacks; both would fail at import or call time.
- The page's mock result is left out, and so is its payload. The payload sends `model_type` and `params`, while the view reads `model` and `parameters`.
- React's batching of state updates is left out: `Register.RegisterForm` applies each update at once. Its console logging and its form markup are also left out.
- The authentication guard, the database models, the AI helper, the home, login and form components, and every piece of presentation are left out.
- `Register.Utf16Length`: characters are Unicode scalar values. Lone surrogates, which a JavaScript string can hold, are not represented.
