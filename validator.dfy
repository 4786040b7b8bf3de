/**
 * `validate_parameters` (frontend/src/code.jsx): coerces every override to a
 * float and clamps the ones that have physical bounds into their range.
 */
module Validator {
  import opened Wrappers
  import opened Request

  /** A closed range [lo, hi]. */
  datatype Bounds = Bounds(lo: real, hi: real)

  /** `parameter_bounds`. */
  const ParameterBounds: map<string, Bounds> := map[
    "C-rate" := Bounds(0.01, 20.0),
    "Ambient temperature [K]" := Bounds(250.0, 400.0),
    "Simulation duration [s]" := Bounds(1.0, 86400.0),
    "Negative electrode thickness [m]" := Bounds(0.000001, 0.01),
    "Positive electrode thickness [m]" := Bounds(0.000001, 0.01),
    "Negative electrode porosity" := Bounds(0.01, 0.99),
    "Positive electrode porosity" := Bounds(0.01, 0.99),
    "Electrolyte conductivity [S.m-1]" := Bounds(0.001, 100.0),
    "Total heat transfer coefficient [W.m-2.K-1]" := Bounds(0.1, 1000.0)
  ]

  /** `float(value)` raised: the override is not numeric. */
  datatype ValidationError = InvalidParameterValue

  /**
   * `max(min_val, min(max_val, x))`: a value inside the range is kept, one
   * below it becomes the minimum and one above it the maximum.
   */
  function Clamp(x: real, b: Bounds): (r: real)
    ensures b.lo <= b.hi ==> b.lo <= r <= b.hi
    ensures b.lo <= x <= b.hi ==> r == x
    ensures x < b.lo ==> r == b.lo
    ensures b.lo <= b.hi && x > b.hi ==> r == b.hi
  {
    var upperClamped := if x < b.hi then x else b.hi;
    if upperClamped > b.lo then upperClamped else b.lo
  }

  /** The value one parameter is validated to once it has been coerced to `x`. */
  function Sanitize(name: string, x: real): real
  {
    if name in ParameterBounds then Clamp(x, ParameterBounds[name]) else x
  }

  /**
   * What `validate_parameters` returns: an error when some value does not
   * coerce to a float, otherwise every key of the input with its sanitized
   * value.
   */
  function Validated(parameters: map<string, Value>): Result<map<string, real>, ValidationError>
  {
    if exists k :: k in parameters && ToFloat(parameters[k]).None? then Failure(InvalidParameterValue)
    else Success(map k | k in parameters :: Sanitize(k, ToFloat(parameters[k]).value))
  }

  /**
   * `validate_parameters`: builds the validated dictionary one key at a
   * time.  The chemistry and model arguments are accepted and not used.
   */
  method ValidateParameters(parameters: map<string, Value>, batteryType: string, model: string)
    returns (r: Result<map<string, real>, ValidationError>)
    ensures r == Validated(parameters)
  {
    var validated: map<string, real> := map[];
    var remaining := parameters.Keys;
    while remaining != {}
      invariant remaining <= parameters.Keys
      invariant validated.Keys == parameters.Keys - remaining
      invariant forall k :: k in validated ==>
        ToFloat(parameters[k]).Some? && validated[k] == Sanitize(k, ToFloat(parameters[k]).value)
      decreases remaining
    {
      var name :| name in remaining;
      match ToFloat(parameters[name]) {
        case None =>
          return Failure(InvalidParameterValue);
        case Some(x) =>
          validated := validated[name := Sanitize(name, x)];
      }
      remaining := remaining - {name};
    }
    assert !exists k :: k in parameters && ToFloat(parameters[k]).None?;
    assert validated == map k | k in parameters :: Sanitize(k, ToFloat(parameters[k]).value);
    r := Success(validated);
  }

  /** Every bound in the table is a non-empty range. */
  lemma BoundsAreRanges(name: string)
    requires name in ParameterBounds
    ensures ParameterBounds[name].lo <= ParameterBounds[name].hi
  {
  }

  /**
   * Validation fails exactly when some value does not coerce; on success the
   * output has the input's keys, bounded keys land in their range, values
   * already in range come back unchanged, and unbounded keys come back as
   * their float value.
   */
  lemma {:induction false} ValidatedSpec(parameters: map<string, Value>)
    ensures Validated(parameters).Success? <==> forall k :: k in parameters ==> ToFloat(parameters[k]).Some?
    ensures Validated(parameters).Success? ==> Validated(parameters).value.Keys == parameters.Keys
    ensures Validated(parameters).Success? ==> forall k :: k in parameters ==>
      var out := Validated(parameters).value[k];
      var x := ToFloat(parameters[k]).value;
      && (k in ParameterBounds ==> ParameterBounds[k].lo <= out <= ParameterBounds[k].hi)
      && (k in ParameterBounds && ParameterBounds[k].lo <= x <= ParameterBounds[k].hi ==> out == x)
      && (k !in ParameterBounds ==> out == x)
  {
    if Validated(parameters).Success? {
      forall k | k in parameters && k in ParameterBounds
        ensures ParameterBounds[k].lo <= Validated(parameters).value[k] <= ParameterBounds[k].hi
      {
        BoundsAreRanges(k);
      }
    }
  }

  /** Lifting a validated map back to request values. */
  function AsValues(m: map<string, real>): map<string, Value>
  {
    map k | k in m :: Num(m[k])
  }

  /** Validating an already validated map changes nothing. */
  lemma {:induction false} ValidatedIdempotent(parameters: map<string, Value>)
    requires Validated(parameters).Success?
    ensures Validated(AsValues(Validated(parameters).value)) == Validated(parameters)
  {
    var once := Validated(parameters).value;
    var again := AsValues(once);
    assert forall k :: k in again ==> ToFloat(again[k]).Some?;
    forall k | k in parameters
      ensures Sanitize(k, once[k]) == once[k]
    {
      if k in ParameterBounds {
        BoundsAreRanges(k);
      }
    }
    assert (map k | k in again :: Sanitize(k, ToFloat(again[k]).value)) == once;
  }

  /** Out-of-range C-rates are corrected silently: 50 becomes 20 and -5 becomes 0.01. */
  lemma CRateClampedExamples()
    ensures Validated(map["C-rate" := Num(50.0)]) == Success(map["C-rate" := 20.0])
    ensures Validated(map["C-rate" := Num(-5.0)]) == Success(map["C-rate" := 0.01])
  {
    var high := map["C-rate" := Num(50.0)];
    assert (map k | k in high :: Sanitize(k, ToFloat(high[k]).value)) == map["C-rate" := 20.0];
    var low := map["C-rate" := Num(-5.0)];
    assert (map k | k in low :: Sanitize(k, ToFloat(low[k]).value)) == map["C-rate" := 0.01];
  }
}
