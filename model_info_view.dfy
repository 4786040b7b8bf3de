/**
 * `ModelInfoView` (frontend/src/code.jsx): the static catalog of
 * chemistries, models, presets and experiment types the backend reports,
 * and its agreement with the tables the simulation actually uses.
 */
module ModelInfoView {
  import opened Registry
  import Protocol

  datatype ChemistryInfo = ChemistryInfo(name: string, models: seq<string>, parameterSets: seq<string>, description: string)

  /** The `info` payload, without the solver library's version string. */
  datatype ModelInfo = ModelInfo(batteryTypes: map<string, ChemistryInfo>, experimentTypes: map<string, string>)

  const Info: ModelInfo := ModelInfo(
    map[
      "lithium-ion" := ChemistryInfo("Lithium-Ion", ["SPM", "SPMe", "DFN", "MPM", "MSMR"],
        ["Chen2020", "Marquis2019", "Mohtat2020", "Ai2020", "Ecker2015", "OKane2022", "Prada2013"],
        "Standard lithium-ion battery chemistry"),
      "lead-acid" := ChemistryInfo("Lead-Acid", ["LOQS", "Composite", "Full"], ["Sulzer2019", "Quarti2020"],
        "Traditional lead-acid battery chemistry"),
      "sodium-ion" := ChemistryInfo("Sodium-Ion", ["SPM", "DFN"], ["Palmer2015"],
        "Emerging sodium-ion battery technology"),
      "lithium-metal" := ChemistryInfo("Lithium-Metal", ["SPM", "DFN"], ["OKane2022"],
        "Next-generation lithium-metal batteries")
    ],
    map[
      "constant_current" := "Constant Current Discharge",
      "constant_voltage" := "Constant Voltage",
      "cccv" := "Constant Current Constant Voltage",
      "current_function" := "Current Function",
      "power_function" := "Power Function",
      "resistance_function" := "Resistance Function"
    ])

  /** Each chemistry's model keys in the catalog are exactly those `get_model` accepts. */
  lemma {:induction false} CatalogModelsPerChemistry(batteryType: string)
    requires batteryType in Info.batteryTypes
    ensures batteryType in ModelMapping
    ensures (set m | m in Info.batteryTypes[batteryType].models) == ModelMapping[batteryType].Keys
  {
    var models := Info.batteryTypes[batteryType].models;
    if batteryType == "lithium-ion" {
      assert models == ["SPM", "SPMe", "DFN", "MPM", "MSMR"];
    } else if batteryType == "lead-acid" {
      assert models == ["LOQS", "Composite", "Full"];
    } else {
      assert models == ["SPM", "DFN"];
    }
  }

  /** The catalog advertises a (chemistry, model) pair exactly when `get_model` accepts it. */
  lemma {:induction false} CatalogAgreesWithGetModel(batteryType: string, model: string)
    ensures GetModel(batteryType, model).Success? <==>
      batteryType in Info.batteryTypes && model in Info.batteryTypes[batteryType].models
  {
    if batteryType in Info.batteryTypes {
      CatalogModelsPerChemistry(batteryType);
      assert model in Info.batteryTypes[batteryType].models <==> model in ModelMapping[batteryType];
    } else {
      assert Info.batteryTypes.Keys == ModelMapping.Keys;
    }
  }

  /** The catalog advertises a (chemistry, preset) pair exactly when `get_parameter_set` accepts it. */
  lemma {:induction false} CatalogAgreesWithGetParameterSet(batteryType: string, parameterSet: string)
    ensures GetParameterSet(batteryType, parameterSet).Success? <==>
      batteryType in Info.batteryTypes && parameterSet in Info.batteryTypes[batteryType].parameterSets
  {
    assert Info.batteryTypes.Keys == ParameterMapping.Keys;
    if batteryType in Info.batteryTypes {
      var listed := Info.batteryTypes[batteryType].parameterSets;
      assert (set p | p in listed) == ParameterMapping[batteryType];
    }
  }

  /** The catalog's experiment types are exactly the types with a protocol template. */
  lemma CatalogAgreesWithProtocols()
    ensures Info.experimentTypes.Keys == Protocol.ProtocolTypes
  {
  }
}
