/**
 * `create_experiment` (frontend/src/code.jsx): turns an experiment type and
 * the request's knobs into the ordered steps handed to the solver's
 * experiment.  Step strings are represented by a step datatype; the way
 * Python formats the numbers inside them is not modelled.
 */
module Protocol {
  import opened Wrappers
  import opened Request

  const CRateKey: string := "C-rate"
  const DurationKey: string := "Simulation duration [s]"
  const CutOffKey: string := "Voltage cut-off [V]"
  const UpperKey: string := "Upper voltage cut-off [V]"
  const CurrentKey: string := "Current function [A]"

  /** The fixed defaults used when a knob is missing from the request. */
  const DefaultCRate: real := 1.0
  const DefaultDuration: real := 3600.0
  const DefaultCutOff: real := 2.5
  const DefaultUpper: real := 4.2
  const DefaultCurrent: real := 5.0

  const ConstantCurrent: string := "constant_current"
  const ConstantVoltage: string := "constant_voltage"
  const Cccv: string := "cccv"
  const CurrentFunction: string := "current_function"
  const PowerFunction: string := "power_function"
  const ResistanceFunction: string := "resistance_function"

  /** The experiment types `experiment_protocols` has a template for. */
  const ProtocolTypes: set<string> :=
    {ConstantCurrent, ConstantVoltage, Cccv, CurrentFunction, PowerFunction, ResistanceFunction}

  datatype Action = Discharge | Charge | Hold

  /** What a step drives: a C-rate, a voltage, a current, a power or a resistance. */
  datatype Setpoint =
    | CRate(rate: Value)
    | Volts(volts: Value)
    | Amps(amps: Value)
    | Watts(watts: real)
    | Ohms(ohms: real)

  /**
   * One instruction string: "<action> at <setpoint> [for <hours> hours]
   * [or until <volts>V]" ("until" without "or" for the first cccv step).
   */
  datatype Step = Step(action: Action, setpoint: Setpoint, hours: Option<real>, until: Option<Value>)

  /** The five knobs, each read from the request or defaulted. */
  datatype Knobs = Knobs(cRate: Value, duration: Value, cutOff: Value, upper: Value, current: Value)

  /** What building the six templates can raise. */
  datatype ExperimentError =
    | TypeMismatch(knob: string)  // arithmetic on a non-numeric knob (TypeError)
    | ZeroDivision                // `1/current` with a zero current (ZeroDivisionError)

  function ReadKnobs(params: map<string, Value>): Knobs
  {
    Knobs(Get(params, CRateKey, Num(DefaultCRate)),
          Get(params, DurationKey, Num(DefaultDuration)),
          Get(params, CutOffKey, Num(DefaultCutOff)),
          Get(params, UpperKey, Num(DefaultUpper)),
          Get(params, CurrentKey, Num(DefaultCurrent)))
  }

  /**
   * `experiment_protocols`: all six templates, built eagerly in the order
   * the dictionary literal lists them.  The first arithmetic on a knob is
   * `duration/3600` (constant_current), then `current*3.7` (power_function),
   * then `1/current` (resistance_function).
   */
  function Templates(k: Knobs): Result<map<string, seq<Step>>, ExperimentError>
  {
    if !k.duration.Num? then Failure(TypeMismatch(DurationKey))
    else if !k.current.Num? then Failure(TypeMismatch(CurrentKey))
    else if k.current.x == 0.0 then Failure(ZeroDivision)
    else
      var hours := k.duration.x / 3600.0;
      Success(map[
        ConstantCurrent := [Step(Discharge, CRate(k.cRate), Some(hours), Some(k.cutOff))],
        ConstantVoltage := [Step(Charge, Volts(k.upper), Some(hours), None)],
        Cccv := [Step(Charge, CRate(k.cRate), None, Some(k.upper)),
                 Step(Hold, Volts(k.upper), Some(hours), None)],
        CurrentFunction := [Step(Discharge, Amps(k.current), Some(hours), Some(k.cutOff))],
        PowerFunction := [Step(Discharge, Watts(k.current.x * 3.7), Some(hours), Some(k.cutOff))],
        ResistanceFunction := [Step(Discharge, Ohms(1.0 / k.current.x), Some(hours), Some(k.cutOff))]
      ])
  }

  /**
   * `create_experiment`: the steps of the requested type, or of
   * constant_current when the type has no template.  It fails exactly when
   * one of the eager templates raises, whatever the type; otherwise it yields
   * two steps for cccv (charge to the upper voltage, then hold there) and one
   * step for every other type.
   */
  function CreateExperiment(experimentType: string, params: map<string, Value>): (r: Result<seq<Step>, ExperimentError>)
    ensures var k := ReadKnobs(params);
      r.Success? <==> k.duration.Num? && k.current.Num? && k.current.x != 0.0
    ensures r.Success? ==> ReadKnobs(params).duration.Num?
    ensures r.Success? && experimentType !in ProtocolTypes ==>
      var k := ReadKnobs(params);
      r.value == [Step(Discharge, CRate(k.cRate), Some(k.duration.x / 3600.0), Some(k.cutOff))]
    ensures r.Success? ==> (|r.value| == 2 <==> experimentType == Cccv) && 1 <= |r.value| <= 2
    ensures r.Success? && experimentType == Cccv ==>
      var upper := ReadKnobs(params).upper;
      r.value[0].action == Charge && r.value[0].until == Some(upper) &&
      r.value[1] == Step(Hold, Volts(upper), Some(ReadKnobs(params).duration.x / 3600.0), None)
    ensures r.Success? ==>
      var k := ReadKnobs(params);
      var hours := k.duration.x / 3600.0;
      && (experimentType == ConstantCurrent ==> r.value == [Step(Discharge, CRate(k.cRate), Some(hours), Some(k.cutOff))])
      && (experimentType == ConstantVoltage ==> r.value == [Step(Charge, Volts(k.upper), Some(hours), None)])
      && (experimentType == Cccv ==>
            r.value == [Step(Charge, CRate(k.cRate), None, Some(k.upper)), Step(Hold, Volts(k.upper), Some(hours), None)])
      && (experimentType == CurrentFunction ==> r.value == [Step(Discharge, Amps(k.current), Some(hours), Some(k.cutOff))])
      && (experimentType == PowerFunction ==> r.value == [Step(Discharge, Watts(k.current.x * 3.7), Some(hours), Some(k.cutOff))])
      && (experimentType == ResistanceFunction ==>
            r.value == [Step(Discharge, Ohms(1.0 / k.current.x), Some(hours), Some(k.cutOff))])
  {
    var templates :- Templates(ReadKnobs(params));
    var chosen := if experimentType in templates then experimentType else ConstantCurrent;
    Success(templates[chosen])
  }

  /** An unknown experiment type is silently replaced by constant_current. */
  lemma UnknownTypeIsConstantCurrent(experimentType: string, params: map<string, Value>)
    requires experimentType !in ProtocolTypes
    ensures CreateExperiment(experimentType, params) == CreateExperiment(ConstantCurrent, params)
  {
  }

  /**
   * With no knobs in the request every default is used: one step discharging
   * at 1C for one hour or until 2.5V.
   */
  lemma DefaultConstantCurrent()
    ensures CreateExperiment(ConstantCurrent, map[]) ==
      Success([Step(Discharge, CRate(Num(1.0)), Some(1.0), Some(Num(2.5)))])
  {
  }

  /** A zero `Current function [A]` makes every experiment type fail, even those that never use the current. */
  lemma ZeroCurrentFailsEveryType(experimentType: string, params: map<string, Value>)
    requires CurrentKey in params && params[CurrentKey] == Num(0.0)
    requires DurationKey !in params || params[DurationKey].Num?
    ensures CreateExperiment(experimentType, params) == Failure(ZeroDivision)
  {
  }
}
