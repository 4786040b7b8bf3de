/**
 * `extract_results` (frontend/src/code.jsx): pulls named series out of the
 * solver's solution, adds the optional ones that are available, computes
 * summary scalars, and on any failure returns a fixed two-point payload
 * that carries the cause.
 */
module Results {
  import opened Wrappers
  import opened Request

  /** What `solution[name].entries` gives: the samples, or the error the lookup raises. */
  datatype Lookup = Entries(samples: seq<real>) | Raises(message: string)

  /** The solver's solution, indexed by variable name. */
  type Solution = map<string, Lookup>

  /** Why extraction fell back: the stringified exception, kept structured. */
  datatype Cause =
    | MissingVariable(name: string)  // KeyError for a name the solution lacks
    | VariableError(message: string) // the lookup itself raised
    | ShapeMismatch                  // numpy could not combine series of different lengths

  datatype Summary = Summary(
    finalVoltage: real,
    averageVoltage: real,
    totalCapacity: real,
    simulationTime: real,
    energyDelivered: real)

  datatype Metadata = Metadata(totalPoints: nat, timeRange: (real, real), extractionError: Option<Cause>)

  datatype SimulationResult = SimulationResult(variables: map<string, seq<real>>, summary: Summary, metadata: Metadata)

  /** The fallback handler itself raised: `3.5 * duration` with a non-numeric duration. */
  datatype HandlerError = NonNumericDuration

  const TimeName: string := "Time [s]"
  const VoltageName: string := "Terminal voltage [V]"
  const CurrentName: string := "Current [A]"
  const CapacityName: string := "Discharge capacity [A.h]"

  /** The output keys of the four required series. */
  const RequiredKeys: set<string> := {"time", "voltage", "current", "soc"}

  /** `optional_variables`, in dictionary order: output key, then solver variable name. */
  const OptionalVariables: seq<(string, string)> := [
    ("temperature", "X-averaged cell temperature [K]"),
    ("power", "Terminal power [W]"),
    ("resistance", "Terminal resistance [Ohm]"),
    ("electrolyte_potential", "X-averaged electrolyte potential [V]"),
    ("negative_potential", "X-averaged negative electrode potential [V]"),
    ("positive_potential", "X-averaged positive electrode potential [V]"),
    ("negative_concentration", "X-averaged negative particle surface concentration [mol.m-3]"),
    ("positive_concentration", "X-averaged positive particle surface concentration [mol.m-3]")
  ]

  /** `solution[name].entries` */
  function Series(solution: Solution, name: string): Result<seq<real>, Cause>
  {
    if name !in solution then Failure(MissingVariable(name))
    else match solution[name]
      case Entries(samples) => Success(samples)
      case Raises(message) => Failure(VariableError(message))
  }

  /** An optional variable is taken when the solution has it and reading it does not raise. */
  predicate Available(solution: Solution, name: string)
  {
    name in solution && solution[name].Entries?
  }

  /** The series the optional-variable loop adds after visiting `items`, later entries winning. */
  function OptionalFrom(solution: Solution, items: seq<(string, string)>): map<string, seq<real>>
  {
    if items == [] then map[]
    else
      var (key, name) := items[|items| - 1];
      var earlier := OptionalFrom(solution, items[..|items| - 1]);
      if Available(solution, name) then earlier[key := solution[name].samples] else earlier
  }

  /** The last sample, or 0 for an empty series. */
  function Last(xs: seq<real>): real
  {
    if |xs| > 0 then xs[|xs| - 1] else 0.0
  }

  function Sum(xs: seq<real>): real
  {
    if xs == [] then 0.0 else Sum(xs[..|xs| - 1]) + xs[|xs| - 1]
  }

  /** `np.mean`, or 0 for an empty series. */
  function Mean(xs: seq<real>): real
  {
    if |xs| > 0 then Sum(xs) / |xs| as real else 0.0
  }

  function Abs(x: real): real
  {
    if x < 0.0 then -x else x
  }

  /** `voltage * np.abs(current)`, sample by sample. */
  function Power(voltage: seq<real>, current: seq<real>): (p: seq<real>)
    requires |voltage| == |current|
    ensures |p| == |voltage|
  {
    seq(|voltage|, i requires 0 <= i < |voltage| => voltage[i] * Abs(current[i]))
  }

  /** `np.trapz(y, t)`: the trapezoid-rule integral of y over t. */
  function Trapezoid(y: seq<real>, t: seq<real>): real
    requires |y| == |t|
  {
    if |t| < 2 then 0.0
    else (t[1] - t[0]) * (y[0] + y[1]) / 2.0 + Trapezoid(y[1..], t[1..])
  }

  /**
   * `energy_delivered`: 0 below two time points; otherwise the integral of
   * power over time, which numpy refuses when the series' lengths differ.
   */
  function Energy(time: seq<real>, voltage: seq<real>, current: seq<real>): Result<real, Cause>
  {
    if |time| <= 1 then Success(0.0)
    else if |voltage| != |time| || |current| != |time| then Failure(ShapeMismatch)
    else Success(Trapezoid(Power(voltage, current), time))
  }

  /** The `summary` dictionary. */
  function Summarize(time: seq<real>, voltage: seq<real>, current: seq<real>, soc: seq<real>): Result<Summary, Cause>
  {
    var energy :- Energy(time, voltage, current);
    Success(Summary(Last(voltage), Mean(voltage), Last(soc), Last(time), energy))
  }

  /** The `metadata` of a successful extraction. */
  function SampleMetadata(time: seq<real>): Metadata
  {
    Metadata(|time|, if |time| > 0 then (time[0], time[|time| - 1]) else (0.0, 0.0), None)
  }

  /** The `except` branch: two fixed points spanning the requested duration, marked with the cause. */
  function Fallback(duration: Value, cause: Cause): Result<SimulationResult, HandlerError>
  {
    match duration
    case Num(d) =>
      Success(SimulationResult(
        map["time" := [0.0, d], "voltage" := [4.0, 3.0], "current" := [1.0, 1.0], "soc" := [0.0, 1.0]],
        Summary(3.0, 3.5, 1.0, d, 3.5 * d),
        Metadata(2, (0.0, d), Some(cause))))
    case _ => Failure(NonNumericDuration)
  }

  /** The four required series, read in the order the code reads them. */
  function Required(solution: Solution): Result<(seq<real>, seq<real>, seq<real>, seq<real>), Cause>
  {
    var time :- Series(solution, TimeName);
    var voltage :- Series(solution, VoltageName);
    var current :- Series(solution, CurrentName);
    var soc :- Series(solution, CapacityName);
    Success((time, voltage, current, soc))
  }

  /** What `extract_results` returns (or, in `Failure`, what escapes its handler). */
  function Extracted(solution: Solution, duration: Value): Result<SimulationResult, HandlerError>
  {
    match Required(solution)
    case Failure(cause) => Fallback(duration, cause)
    case Success(series) =>
      var (time, voltage, current, soc) := series;
      var variables := map["time" := time, "voltage" := voltage, "current" := current, "soc" := soc]
                       + OptionalFrom(solution, OptionalVariables);
      match Summarize(time, voltage, current, soc)
      case Failure(cause) => Fallback(duration, cause)
      case Success(summary) => Success(SimulationResult(variables, summary, SampleMetadata(time)))
  }

  /**
   * `extract_results`: reads the required series, then visits the optional
   * variables one at a time, keeping each that is available; every failure
   * is turned into the fallback payload.
   */
  method ExtractResults(solution: Solution, duration: Value) returns (r: Result<SimulationResult, HandlerError>)
    ensures r == Extracted(solution, duration)
  {
    var time := Series(solution, TimeName);
    if time.Failure? { return Fallback(duration, time.error); }
    var voltage := Series(solution, VoltageName);
    if voltage.Failure? { return Fallback(duration, voltage.error); }
    var current := Series(solution, CurrentName);
    if current.Failure? { return Fallback(duration, current.error); }
    var soc := Series(solution, CapacityName);
    if soc.Failure? { return Fallback(duration, soc.error); }

    var variables := map["time" := time.value, "voltage" := voltage.value,
                         "current" := current.value, "soc" := soc.value];
    variables := AddOptionalVariables(solution, variables, OptionalVariables);
    var summary := Summarize(time.value, voltage.value, current.value, soc.value);
    if summary.Failure? { return Fallback(duration, summary.error); }
    r := Success(SimulationResult(variables, summary.value, SampleMetadata(time.value)));
  }

  /**
   * The loop over `optional_variables.items()`: each variable the solution
   * has and can read is written into `variables` under its output key; a
   * missing or raising one is skipped without stopping the loop.
   */
  method AddOptionalVariables(solution: Solution, variables: map<string, seq<real>>, items: seq<(string, string)>)
    returns (updated: map<string, seq<real>>)
    ensures updated == variables + OptionalFrom(solution, items)
  {
    updated := variables;
    var i := 0;
    while i < |items|
      invariant 0 <= i <= |items|
      invariant updated == variables + OptionalFrom(solution, items[..i])
    {
      var (key, name) := items[i];
      assert items[..i + 1][..i] == items[..i];
      if name in solution && solution[name].Entries? {
        UnionUpdate(variables, OptionalFrom(solution, items[..i]), key, solution[name].samples);
        updated := updated[key := solution[name].samples];
      }
      i := i + 1;
    }
    assert items[..i] == items;
  }

  lemma UnionUpdate<K, V>(a: map<K, V>, b: map<K, V>, k: K, v: V)
    ensures (a + b)[k := v] == a + b[k := v]
  {
  }

  /** No two entries of `items` share an output key. */
  predicate DistinctKeys(items: seq<(string, string)>)
  {
    forall i, j :: 0 <= i < j < |items| ==> items[i].0 != items[j].0
  }

  /**
   * Each optional variable is added exactly when its own series is
   * available, with that series, whatever happens to the others; nothing
   * else is added.
   */
  lemma {:induction false} OptionalFromSpec(solution: Solution, items: seq<(string, string)>)
    requires DistinctKeys(items)
    ensures forall i :: 0 <= i < |items| ==>
      (items[i].0 in OptionalFrom(solution, items) <==> Available(solution, items[i].1))
    ensures forall i :: 0 <= i < |items| && Available(solution, items[i].1) ==>
      OptionalFrom(solution, items)[items[i].0] == solution[items[i].1].samples
    ensures OptionalFrom(solution, items).Keys <= set i | 0 <= i < |items| :: items[i].0
  {
    if items != [] {
      var prefix := items[..|items| - 1];
      assert DistinctKeys(prefix);
      OptionalFromSpec(solution, prefix);
      forall i | 0 <= i < |items| - 1
        ensures items[i].0 != items[|items| - 1].0
      {
      }
    }
  }

  /** The optional output keys are distinct and never clash with a required key. */
  lemma OptionalVariablesWellFormed()
    ensures DistinctKeys(OptionalVariables)
    ensures forall i :: 0 <= i < |OptionalVariables| ==> OptionalVariables[i].0 !in RequiredKeys
  {
  }

  /** With a numeric duration `extract_results` never raises, whatever the solution holds. */
  lemma {:induction false} ExtractedNeverRaises(solution: Solution, d: real)
    ensures Extracted(solution, Num(d)).Success?
  {
  }

  /**
   * When a required series is missing or raises, the result is the fixed
   * two-point payload over [0, duration], marked with the first cause in
   * reading order.
   */
  lemma {:induction false} FallbackOnRequiredFailure(solution: Solution, d: real)
    requires Required(solution).Failure?
    ensures var r := Extracted(solution, Num(d)).value;
      && r.variables == map["time" := [0.0, d], "voltage" := [4.0, 3.0], "current" := [1.0, 1.0], "soc" := [0.0, 1.0]]
      && r.summary == Summary(3.0, 3.5, 1.0, d, 3.5 * d)
      && r.metadata == Metadata(2, (0.0, d), Some(Required(solution).error))
    ensures TimeName !in solution ==> Extracted(solution, Num(d)).value.metadata.extractionError == Some(MissingVariable(TimeName))
  {
  }

  /**
   * A successful extraction: no error marker, the required series as read,
   * every optional series exactly when available, summaries taken from the
   * last samples (0 when empty), no energy below two time points, as many
   * points as time samples, and the time range spanning the first and last
   * sample.
   */
  lemma {:induction false} SuccessfulExtraction(solution: Solution, duration: Value,
                                                time: seq<real>, voltage: seq<real>, current: seq<real>, soc: seq<real>)
    requires Required(solution) == Success((time, voltage, current, soc))
    requires Energy(time, voltage, current).Success?
    ensures Extracted(solution, duration).Success?
    ensures var r := Extracted(solution, duration).value;
      && r.metadata.extractionError == None
      && r.metadata.totalPoints == |time|
      && r.metadata.timeRange == (if |time| > 0 then (time[0], time[|time| - 1]) else (0.0, 0.0))
      && r.variables["time"] == time && r.variables["voltage"] == voltage
      && r.variables["current"] == current && r.variables["soc"] == soc
      && r.summary.finalVoltage == (if |voltage| > 0 then voltage[|voltage| - 1] else 0.0)
      && r.summary.totalCapacity == (if |soc| > 0 then soc[|soc| - 1] else 0.0)
      && r.summary.simulationTime == (if |time| > 0 then time[|time| - 1] else 0.0)
      && (|time| < 2 ==> r.summary.energyDelivered == 0.0)
    ensures var r := Extracted(solution, duration).value;
      && r.summary == Summary(Last(voltage), Mean(voltage), Last(soc), Last(time), Energy(time, voltage, current).value)
      && r.variables == map["time" := time, "voltage" := voltage, "current" := current, "soc" := soc]
                        + OptionalFrom(solution, OptionalVariables)
    ensures var r := Extracted(solution, duration).value;
      && r.variables.Keys <= RequiredKeys + (set i | 0 <= i < |OptionalVariables| :: OptionalVariables[i].0)
      && forall i :: 0 <= i < |OptionalVariables| ==>
        && (OptionalVariables[i].0 in r.variables <==> Available(solution, OptionalVariables[i].1))
        && (Available(solution, OptionalVariables[i].1) ==>
              r.variables[OptionalVariables[i].0] == solution[OptionalVariables[i].1].samples)
  {
    OptionalVariablesWellFormed();
    OptionalFromSpec(solution, OptionalVariables);
  }

  /**
   * When the required series are read but their lengths differ, and there
   * are at least two time points, the energy integral cannot be formed and
   * the result is the fixed fallback payload marked with the shape mismatch.
   */
  lemma {:induction false} FallbackOnShapeMismatch(solution: Solution, d: real,
                                                   time: seq<real>, voltage: seq<real>, current: seq<real>, soc: seq<real>)
    requires Required(solution) == Success((time, voltage, current, soc))
    requires |time| > 1 && (|voltage| != |time| || |current| != |time|)
    ensures Energy(time, voltage, current) == Failure(ShapeMismatch)
    ensures var r := Extracted(solution, Num(d)).value;
      && r.variables == map["time" := [0.0, d], "voltage" := [4.0, 3.0], "current" := [1.0, 1.0], "soc" := [0.0, 1.0]]
      && r.summary == Summary(3.0, 3.5, 1.0, d, 3.5 * d)
      && r.metadata == Metadata(2, (0.0, d), Some(ShapeMismatch))
  {
  }

  /** Sum of samples all lying in [lo, hi] lies in [n*lo, n*hi]. */
  lemma {:induction false} SumBounds(xs: seq<real>, lo: real, hi: real)
    requires forall i :: 0 <= i < |xs| ==> lo <= xs[i] <= hi
    ensures |xs| as real * lo <= Sum(xs) <= |xs| as real * hi
  {
    if xs != [] {
      SumBounds(xs[..|xs| - 1], lo, hi);
    }
  }

  /** The average voltage lies between the smallest and the largest sample. */
  lemma {:induction false} MeanWithinBounds(xs: seq<real>, lo: real, hi: real)
    requires |xs| > 0
    requires forall i :: 0 <= i < |xs| ==> lo <= xs[i] <= hi
    ensures lo <= Mean(xs) <= hi
  {
    SumBounds(xs, lo, hi);
    var n := |xs| as real;
    assert n * lo <= Sum(xs) <= n * hi;
    assert Sum(xs) / n >= lo by {
      assert Sum(xs) >= n * lo;
    }
    assert Sum(xs) / n <= hi by {
      assert Sum(xs) <= n * hi;
    }
  }

  /** Over non-decreasing time a non-negative integrand has a non-negative trapezoid integral. */
  lemma {:induction false} TrapezoidNonNegative(y: seq<real>, t: seq<real>)
    requires |y| == |t|
    requires forall i :: 0 <= i < |y| ==> y[i] >= 0.0
    requires forall i :: 0 <= i < |t| - 1 ==> t[i] <= t[i + 1]
    ensures Trapezoid(y, t) >= 0.0
  {
    if |t| >= 2 {
      TrapezoidNonNegative(y[1..], t[1..]);
      assert (t[1] - t[0]) * (y[0] + y[1]) >= 0.0;
    }
  }

  /**
   * Energy delivered is never negative when the voltage is non-negative and
   * time does not run backwards.
   */
  lemma {:induction false} EnergyNonNegative(time: seq<real>, voltage: seq<real>, current: seq<real>)
    requires Energy(time, voltage, current).Success?
    requires forall i :: 0 <= i < |voltage| ==> voltage[i] >= 0.0
    requires forall i :: 0 <= i < |time| - 1 ==> time[i] <= time[i + 1]
    ensures Energy(time, voltage, current).value >= 0.0
  {
    if |time| > 1 {
      var p := Power(voltage, current);
      forall i | 0 <= i < |p| ensures p[i] >= 0.0 {
        assert p[i] == voltage[i] * Abs(current[i]);
      }
      TrapezoidNonNegative(p, time);
    }
  }

  /** Three samples at 1A, 4V falling to 3V over two seconds deliver 7 joules. */
  lemma EnergyExample()
    ensures Energy([0.0, 1.0, 2.0], [4.0, 3.5, 3.0], [1.0, 1.0, 1.0]) == Success(7.0)
  {
    var p := Power([4.0, 3.5, 3.0], [1.0, 1.0, 1.0]);
    assert p == [4.0, 3.5, 3.0];
    assert Trapezoid(p[2..], [0.0, 1.0, 2.0][2..]) == 0.0;
  }

  /**
   * The fallback summary is what the summary computation gives for the
   * fallback series: final 3V, mean 3.5V, capacity 1, the duration, and
   * 3.5 times the duration of energy.
   */
  lemma FallbackSummaryIsDerived(d: real)
    ensures Summarize([0.0, d], [4.0, 3.0], [1.0, 1.0], [0.0, 1.0]) == Success(Summary(3.0, 3.5, 1.0, d, 3.5 * d))
  {
    var p := Power([4.0, 3.0], [1.0, 1.0]);
    assert p == [4.0, 3.0];
    assert Trapezoid(p[1..], [0.0, d][1..]) == 0.0;
    assert Sum([4.0, 3.0]) == 7.0 by {
      assert [4.0, 3.0][..1] == [4.0];
      assert [4.0][..0] == [];
    }
  }
}
