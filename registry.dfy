/**
 * The backend registry of `SimulateView`: which electrochemical models and
 * which parameter presets exist for each battery chemistry
 * (frontend/src/code.jsx, `get_model` and `get_parameter_set`).
 */
module Registry {
  import opened Wrappers

  /** The solver-side package a model class comes from. */
  datatype Family = LithiumIon | LeadAcid

  /** Construction options fixed at registration time. */
  datatype ModelOptions =
    | NoOptions
    | WorkingIon(ion: string)
    | LithiumPlating(mode: string)

  /** A registered model: the solver's model class, its registry key and its options. */
  datatype ModelSpec = ModelSpec(family: Family, name: string, options: ModelOptions)

  /** The ValueErrors the two lookups raise. */
  datatype RegistryError =
    | UnsupportedBatteryType(batteryType: string)
    | UnsupportedModel(model: string, batteryType: string)
    | NoParametersForBatteryType(batteryType: string)
    | ParameterSetUnavailable(parameterSet: string, batteryType: string)
  {
    /** The text of the raised ValueError. */
    function Message(): string
    {
      match this
      case UnsupportedBatteryType(b) => "Unsupported battery type: " + b
      case UnsupportedModel(m, b) => "Unsupported model '" + m + "' for battery type '" + b + "'"
      case NoParametersForBatteryType(b) => "No parameters available for battery type: " + b
      case ParameterSetUnavailable(p, b) => "Parameter set '" + p + "' not available for '" + b + "'"
    }
  }

  const Li: string := "lithium-ion"
  const LeadAcidKey: string := "lead-acid"
  const Sodium: string := "sodium-ion"
  const LiMetal: string := "lithium-metal"

  /** `model_mapping`: chemistry, then model key, to the model the solver builds. */
  const ModelMapping: map<string, map<string, ModelSpec>> := map[
    Li := map[
      "SPM" := ModelSpec(LithiumIon, "SPM", NoOptions),
      "SPMe" := ModelSpec(LithiumIon, "SPMe", NoOptions),
      "DFN" := ModelSpec(LithiumIon, "DFN", NoOptions),
      "MPM" := ModelSpec(LithiumIon, "MPM", NoOptions),
      "MSMR" := ModelSpec(LithiumIon, "MSMR", NoOptions)],
    LeadAcidKey := map[
      "LOQS" := ModelSpec(LeadAcid, "LOQS", NoOptions),
      "Composite" := ModelSpec(LeadAcid, "Composite", NoOptions),
      "Full" := ModelSpec(LeadAcid, "Full", NoOptions)],
    Sodium := map[
      "SPM" := ModelSpec(LithiumIon, "SPM", WorkingIon("sodium")),
      "DFN" := ModelSpec(LithiumIon, "DFN", WorkingIon("sodium"))],
    LiMetal := map[
      "SPM" := ModelSpec(LithiumIon, "SPM", LithiumPlating("reversible")),
      "DFN" := ModelSpec(LithiumIon, "DFN", LithiumPlating("reversible"))]
  ]

  /**
   * `parameter_mapping`: chemistry to the names of its presets.  The presets'
   * contents belong to the solver library and are not modelled; a preset is
   * known here by its name.
   */
  const ParameterMapping: map<string, set<string>> := map[
    Li := {"Chen2020", "Marquis2019", "Mohtat2020", "Ai2020", "Ecker2015", "OKane2022", "Prada2013"},
    LeadAcidKey := {"Sulzer2019", "Quarti2020"},
    Sodium := {"Palmer2015"},
    LiMetal := {"OKane2022"}
  ]

  /**
   * `get_model`: the chemistry is checked first, then the model key under it;
   * the model returned carries exactly the requested key, the sodium and
   * lithium-metal entries carry their construction options, and only the
   * lead-acid chemistry builds lead-acid models.
   */
  function GetModel(batteryType: string, model: string): (r: Result<ModelSpec, RegistryError>)
    ensures batteryType !in ModelMapping <==> r == Failure(UnsupportedBatteryType(batteryType))
    ensures r.Failure? && batteryType in ModelMapping ==> r.error == UnsupportedModel(model, batteryType)
    ensures r.Success? <==> batteryType in ModelMapping && model in ModelMapping[batteryType]
    ensures r.Success? ==> r.value == ModelMapping[batteryType][model] && r.value.name == model
    ensures r.Success? ==> (r.value.family == LeadAcid <==> batteryType == LeadAcidKey)
    ensures r.Success? ==> (r.value.options == WorkingIon("sodium") <==> batteryType == Sodium)
    ensures r.Success? ==> (r.value.options == LithiumPlating("reversible") <==> batteryType == LiMetal)
  {
    if batteryType !in ModelMapping then Failure(UnsupportedBatteryType(batteryType))
    else if model !in ModelMapping[batteryType] then Failure(UnsupportedModel(model, batteryType))
    else Success(ModelMapping[batteryType][model])
  }

  /**
   * `get_parameter_set`: the chemistry is checked first, then the preset
   * name; on success the preset returned is the one the request named.
   */
  function GetParameterSet(batteryType: string, parameterSet: string): (r: Result<string, RegistryError>)
    ensures batteryType !in ParameterMapping <==> r == Failure(NoParametersForBatteryType(batteryType))
    ensures r.Failure? && batteryType in ParameterMapping ==> r.error == ParameterSetUnavailable(parameterSet, batteryType)
    ensures r.Success? <==> batteryType in ParameterMapping && parameterSet in ParameterMapping[batteryType]
    ensures r.Success? ==> r.value == parameterSet
  {
    if batteryType !in ParameterMapping then Failure(NoParametersForBatteryType(batteryType))
    else if parameterSet !in ParameterMapping[batteryType] then Failure(ParameterSetUnavailable(parameterSet, batteryType))
    else Success(parameterSet)
  }

  /** Both tables register the same four chemistries. */
  lemma {:induction false} SameChemistries()
    ensures ModelMapping.Keys == ParameterMapping.Keys == {Li, LeadAcidKey, Sodium, LiMetal}
  {
  }
}
