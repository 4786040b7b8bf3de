/**
 * The solver's parameter container (`pybamm.ParameterValues`) as the
 * pipeline uses it, and the two ways the code writes request values into a
 * preset: the override loop of `run_pybamm_simulation`
 * (frontend/src/code.jsx) and the filter-then-update of `run_simulation`
 * (backend/simulation/pybamm_runner.py).
 */
module Parameters {
  import opened Request

  /**
   * A parameter preset loaded for one request.  Its names and values come
   * from the solver library; the model takes them as given.
   */
  class ParameterValues {
    var values: map<string, Value>

    /** `pybamm.ParameterValues(name)`: a fresh container per call, holding the preset's entries. */
    constructor (preset: map<string, Value>)
      ensures values == preset
    {
      values := preset;
    }

    /** `param.keys()` */
    function Keys(): set<string>
      reads this
    {
      values.Keys
    }

    /** `name in params` */
    predicate Contains(name: string)
      reads this
    {
      name in values
    }

    /** `params[name] = value` */
    method Set(name: string, value: Value)
      modifies this
      ensures values == old(values)[name := value]
    {
      values := values[name := value];
    }

    /**
     * `param.update(entries)`.  The library rejects names it does not
     * already hold; callers here only pass names it holds.
     */
    method Update(entries: map<string, Value>)
      requires entries.Keys <= values.Keys
      modifies this
      ensures values == old(values) + entries
      ensures values.Keys == old(values).Keys
    {
      values := values + entries;
    }
  }

  /**
   * The preset after the request's values are written onto the names it
   * already has; names the preset lacks are dropped.
   */
  function Overridden(preset: map<string, Value>, overrides: map<string, Value>): map<string, Value>
  {
    map k | k in preset :: if k in overrides then overrides[k] else preset[k]
  }

  /**
   * The override loop of `run_pybamm_simulation`: for every request entry
   * whose name the preset already holds, overwrite that entry.
   */
  method ApplyCustomParameters(params: ParameterValues, custom: map<string, Value>)
    modifies params
    ensures params.values == Overridden(old(params.values), custom)
  {
    var remaining := custom.Keys;
    while remaining != {}
      invariant remaining <= custom.Keys
      invariant params.values.Keys == old(params.values).Keys
      invariant forall k :: k in params.values ==>
        params.values[k] == if k in custom && k !in remaining then custom[k] else old(params.values)[k]
      decreases remaining
    {
      var name :| name in remaining;
      if params.Contains(name) {
        params.Set(name, custom[name]);
      }
      remaining := remaining - {name};
    }
  }

  /**
   * Overriding keeps the preset's names, takes the request's value for every
   * name both hold, and leaves every other entry as the preset had it.
   */
  lemma {:induction false} OverriddenSpec(preset: map<string, Value>, overrides: map<string, Value>)
    ensures Overridden(preset, overrides).Keys == preset.Keys
    ensures forall k :: k in preset && k in overrides ==> Overridden(preset, overrides)[k] == overrides[k]
    ensures forall k :: k in preset && k !in overrides ==> Overridden(preset, overrides)[k] == preset[k]
  {
  }

  /** A request entry whose name the preset lacks changes nothing. */
  lemma {:induction false} UnknownOverrideIgnored(preset: map<string, Value>, overrides: map<string, Value>, name: string, value: Value)
    requires name !in preset
    ensures Overridden(preset, overrides[name := value]) == Overridden(preset, overrides)
  {
  }

  /** Applying the same overrides twice is the same as applying them once. */
  lemma {:induction false} OverriddenIdempotent(preset: map<string, Value>, overrides: map<string, Value>)
    ensures Overridden(Overridden(preset, overrides), overrides) == Overridden(preset, overrides)
  {
  }

  /** `{k: v for k, v in request.items() if k in valid_keys}` */
  function FilterValid(validKeys: set<string>, request: map<string, Value>): (r: map<string, Value>)
    ensures r.Keys == request.Keys * validKeys
    ensures forall k :: k in r ==> r[k] == request[k]
  {
    map k | k in request && k in validKeys :: request[k]
  }

  /**
   * The two runners write request values into a preset the same way:
   * updating with the filtered request is overriding with the whole request.
   */
  lemma {:induction false} FilterThenUpdateIsOverride(preset: map<string, Value>, request: map<string, Value>)
    ensures preset + FilterValid(preset.Keys, request) == Overridden(preset, request)
  {
    var updated := preset + FilterValid(preset.Keys, request);
    assert updated.Keys == preset.Keys;
    forall k | k in preset
      ensures updated[k] == Overridden(preset, request)[k]
    {
    }
  }
}
