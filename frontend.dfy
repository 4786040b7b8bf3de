/**
 * The simulator page's own logic (frontend/src/code.jsx, the React
 * component): its chemistry, model, preset and experiment tables, the
 * parameter edit handler, the flattening of parameter categories, and the
 * reset that runs when the chemistry changes; and how its choices fare
 * against the backend registry.
 */
module Frontend {
  import opened Wrappers
  import opened Registry
  import Protocol
  import Request

  /** `batteryModels`: chemistry to its (model key, description) pairs in object order. */
  const BatteryModels: map<string, seq<(string, string)>> := map[
    "lithium-ion" := [("SPM", "Single Particle Model"), ("SPMe", "Single Particle Model with Electrolyte"),
                      ("DFN", "Doyle-Fuller-Newman Model"), ("MPM", "Many Particle Model"),
                      ("MSMR", "Multi-Species Multi-Reaction Model")],
    "lead-acid" := [("LOQS", "Leading-Order Quasi-Static Model"), ("Composite", "Composite Model"),
                    ("Full", "Full Porous Electrode Model")],
    "sodium-ion" := [("SPM", "Single Particle Model"), ("DFN", "Doyle-Fuller-Newman Model")],
    "lithium-metal" := [("SPM", "Single Particle Model"), ("DFN", "Doyle-Fuller-Newman Model")],
    "lithium-sulfur" := [("SPM", "Single Particle Model"), ("DFN", "Doyle-Fuller-Newman Model")],
    "zinc-air" := [("SPM", "Single Particle Model")]
  ]

  /** `parameterSets` */
  const ParameterSets: map<string, seq<string>> := map[
    "lithium-ion" := ["Chen2020", "Marquis2019", "Mohtat2020", "Ai2020", "Ecker2015", "OKane2020"],
    "lead-acid" := ["Sulzer2019", "Quarti2020", "Bode1977"],
    "sodium-ion" := ["Palmer2015", "Tomaszewska2019"],
    "lithium-metal" := ["OKane2022", "Plating2021"],
    "lithium-sulfur" := ["Marinescu2016", "Danner2019"],
    "zinc-air" := ["Stamm2017"]
  ]

  /** `experimentTypes` */
  const ExperimentTypes: map<string, string> := map[
    "constant_current" := "Constant Current (CC)",
    "constant_voltage" := "Constant Voltage (CV)",
    "cccv" := "Constant Current Constant Voltage (CCCV)",
    "pulse" := "Pulse Test",
    "eis" := "Electrochemical Impedance Spectroscopy",
    "gitt" := "Galvanostatic Intermittent Titration",
    "drive_cycle" := "Drive Cycle",
    "calendar_aging" := "Calendar Aging",
    "cycle_aging" := "Cycle Aging"
  ]

  /** The parameter state: named categories, each a map from parameter name to value, in object order. */
  type Categories = seq<(string, map<string, real>)>

  /** `defaultParameterCategories`, one constant per category. */
  const ElectrochemicalDefaults: map<string, real> := map[
    "Negative electrode thickness [m]" := 0.0001,
    "Positive electrode thickness [m]" := 0.0001,
    "Negative electrode porosity" := 0.3,
    "Positive electrode porosity" := 0.3,
    "Negative particle radius [m]" := 0.000001,
    "Positive particle radius [m]" := 0.000001,
    "Negative electrode conductivity [S.m-1]" := 100.0,
    "Positive electrode conductivity [S.m-1]" := 10.0,
    "Negative electrode diffusivity [m2.s-1]" := 0.00000000000001,
    "Positive electrode diffusivity [m2.s-1]" := 0.000000000000001,
    "Negative electrode OCP [V]" := 0.1,
    "Positive electrode OCP [V]" := 4.2,
    "Negative electrode exchange current density [A.m-2]" := 5.0,
    "Positive electrode exchange current density [A.m-2]" := 1.0,
    "SEI resistivity [Ohm.m]" := 0.0001,
    "SEI thickness [m]" := 0.0000000025]

  const ElectrolyteDefaults: map<string, real> := map[
    "Electrolyte conductivity [S.m-1]" := 1.2,
    "Electrolyte diffusivity [m2.s-1]" := 0.0000000002,
    "Electrolyte transference number" := 0.2594,
    "Initial electrolyte concentration [mol.m-3]" := 1000.0,
    "Separator thickness [m]" := 0.000025,
    "Separator porosity" := 0.47,
    "Separator tortuosity" := 1.5]

  const ThermalDefaults: map<string, real> := map[
    "Total heat transfer coefficient [W.m-2.K-1]" := 10.0,
    "Ambient temperature [K]" := 298.15,
    "Negative electrode thermal conductivity [W.m-1.K-1]" := 1.7,
    "Positive electrode thermal conductivity [W.m-1.K-1]" := 2.1,
    "Electrolyte thermal conductivity [W.m-1.K-1]" := 0.6,
    "Negative electrode heat capacity [J.kg-1.K-1]" := 700.0,
    "Positive electrode heat capacity [J.kg-1.K-1]" := 700.0,
    "Electrolyte heat capacity [J.kg-1.K-1]" := 2055.0,
    "Negative electrode density [kg.m-3]" := 1800.0,
    "Positive electrode density [kg.m-3]" := 5010.0,
    "Electrolyte density [kg.m-3]" := 1200.0]

  const PhysicalDefaults: map<string, real> := map[
    "Electrode width [m]" := 0.065,
    "Electrode height [m]" := 0.1016,
    "Cell cooling surface area [m2]" := 0.00531,
    "Cell volume [m3]" := 0.00000242,
    "Number of electrode pairs connected in parallel" := 1.0,
    "Negative current collector thickness [m]" := 0.000012,
    "Positive current collector thickness [m]" := 0.000016,
    "Negative current collector conductivity [S.m-1]" := 59600000.0,
    "Positive current collector conductivity [S.m-1]" := 35500000.0]

  const OperatingDefaults: map<string, real> := map[
    "C-rate" := 1.0,
    "Simulation duration [s]" := 3600.0,
    "Maximum voltage [V]" := 4.2,
    "Minimum voltage [V]" := 2.5,
    "Initial SOC" := 1.0,
    "Operating current [A]" := 1.0,
    "Rest time [s]" := 300.0]

  /** `defaultParameterCategories`, in object order. */
  const DefaultParameterCategories: Categories := [
    ("electrochemical", ElectrochemicalDefaults),
    ("electrolyte", ElectrolyteDefaults),
    ("thermal", ThermalDefaults),
    ("physical", PhysicalDefaults),
    ("operating", OperatingDefaults)
  ]

  /** The position of a category, if present. */
  function IndexOf(categories: Categories, category: string): (r: Option<nat>)
    ensures r.Some? ==> r.value < |categories| && categories[r.value].0 == category
    ensures r.None? ==> forall i :: 0 <= i < |categories| ==> categories[i].0 != category
  {
    if categories == [] then None
    else if categories[|categories| - 1].0 == category then Some(|categories| - 1)
    else IndexOf(categories[..|categories| - 1], category)
  }

  /** `parseFloat(value) || 0`: a failed parse (NaN) and zero both give 0. */
  function ParsedOrZero(parsed: Option<real>): real
  {
    if parsed.Some? then parsed.value else 0.0
  }

  /**
   * `handleParameterChange`: the named parameter of the named category gets
   * the parsed value; a category the state lacks is appended holding just
   * that parameter.
   */
  function HandleParameterChange(categories: Categories, category: string, name: string, parsed: Option<real>): Categories
  {
    match IndexOf(categories, category)
    case Some(i) => categories[i := (category, categories[i].1[name := ParsedOrZero(parsed)])]
    case None => categories + [(category, map[name := ParsedOrZero(parsed)])]
  }

  /**
   * A parameter edit changes one entry of one category: it holds the parsed
   * value (0 when the text does not parse), every other entry of that
   * category keeps its value, every other category is unchanged, and the
   * category stays where it was or, when new, is appended at the end.
   */
  lemma {:induction false} HandleParameterChangeSpec(categories: Categories, category: string, name: string, parsed: Option<real>)
    ensures var after := HandleParameterChange(categories, category, name, parsed);
      var before := IndexOf(categories, category);
      var entries := if before.Some? then categories[before.value].1 else map[];
      && IndexOf(after, category) == (if before.Some? then before else Some(|categories|))
      && after[IndexOf(after, category).value] == (category, entries[name := if parsed.Some? then parsed.value else 0.0])
      && |after| == (if before.Some? then |categories| else |categories| + 1)
      && (forall i :: 0 <= i < |categories| && categories[i].0 != category ==> after[i] == categories[i])
  {
    var after := HandleParameterChange(categories, category, name, parsed);
    match IndexOf(categories, category)
    case Some(i) =>
      IndexOfUnique(categories, category, i);
      IndexOfAt(after, category, i);
    case None =>
      IndexOfAt(after, category, |categories|);
  }

  /** When no later category has that name, `IndexOf` finds the one at `i`. */
  lemma {:induction false} IndexOfAt(categories: Categories, category: string, i: nat)
    requires i < |categories| && categories[i].0 == category
    requires forall j :: i < j < |categories| ==> categories[j].0 != category
    ensures IndexOf(categories, category) == Some(i)
  {
    if i != |categories| - 1 {
      IndexOfAt(categories[..|categories| - 1], category, i);
    }
  }

  /** `IndexOf` finds the last category of that name. */
  lemma {:induction false} IndexOfUnique(categories: Categories, category: string, i: nat)
    requires IndexOf(categories, category) == Some(i)
    ensures forall j :: i < j < |categories| ==> categories[j].0 != category
  {
    if categories != [] && categories[|categories| - 1].0 != category {
      IndexOfUnique(categories[..|categories| - 1], category, i);
    }
  }

  /** `Object.values(parameters).forEach(c => Object.assign(flat, c))`: later categories win. */
  function Flatten(categories: Categories): map<string, real>
  {
    if categories == [] then map[] else Flatten(categories[..|categories| - 1]) + categories[|categories| - 1].1
  }

  /**
   * The flat parameters hold every name of every category, and each name
   * has the value of the last category that holds it.
   */
  lemma {:induction false} FlattenSpec(categories: Categories, name: string)
    ensures name in Flatten(categories) <==> exists i :: 0 <= i < |categories| && name in categories[i].1
    ensures name in Flatten(categories) ==>
      exists i :: (0 <= i < |categories| && name in categories[i].1
        && Flatten(categories)[name] == categories[i].1[name]
        && forall j :: i < j < |categories| ==> name !in categories[j].1)
  {
    if categories != [] {
      var n := |categories| - 1;
      var prefix := categories[..n];
      FlattenSpec(prefix, name);
      if name in categories[n].1 {
      } else if name in Flatten(prefix) {
        var i :| 0 <= i < |prefix| && name in prefix[i].1 && Flatten(prefix)[name] == prefix[i].1[name]
          && forall j :: i < j < |prefix| ==> name !in prefix[j].1;
        assert categories[i] == prefix[i];
      } else {
        forall i | 0 <= i < |categories| ensures name !in categories[i].1 {
          if i < n { assert categories[i] == prefix[i]; }
        }
      }
    }
  }

  /** The page's selection state. */
  datatype Selection = Selection(chemistry: string, model: string, parameterSet: string, parameters: Categories)

  /** The first model the page lists for a chemistry, if it lists the chemistry. */
  function FirstModel(chemistry: string): Option<string>
  {
    if chemistry in BatteryModels && |BatteryModels[chemistry]| > 0 then Some(BatteryModels[chemistry][0].0) else None
  }

  /** The first preset the page lists for a chemistry, if it lists the chemistry. */
  function FirstPreset(chemistry: string): Option<string>
  {
    if chemistry in ParameterSets && |ParameterSets[chemistry]| > 0 then Some(ParameterSets[chemistry][0]) else None
  }

  /**
   * The effect run when the chemistry changes: the parameters go back to the
   * defaults, and the preset and model become the chemistry's first ones when
   * the tables list the chemistry (otherwise they stay as they were).
   */
  function ChemistryChanged(s: Selection): Selection
  {
    var preset := if FirstPreset(s.chemistry).Some? then FirstPreset(s.chemistry).value else s.parameterSet;
    var model := if FirstModel(s.chemistry).Some? then FirstModel(s.chemistry).value else s.model;
    Selection(s.chemistry, model, preset, DefaultParameterCategories)
  }

  /**
   * A chemistry change resets the parameters to the defaults; for a listed
   * chemistry it selects the first model and first preset the page lists,
   * and for an unlisted one it keeps the model and preset as they were.
   */
  lemma {:induction false} ChemistryChangedSpec(s: Selection)
    ensures var r := ChemistryChanged(s);
      && r.chemistry == s.chemistry
      && r.parameters == DefaultParameterCategories
      && (s.chemistry in BatteryModels ==>
            && |BatteryModels[s.chemistry]| > 0 && |ParameterSets[s.chemistry]| > 0
            && r.model == BatteryModels[s.chemistry][0].0
            && r.parameterSet == ParameterSets[s.chemistry][0])
      && (s.chemistry !in BatteryModels ==> r.model == s.model && r.parameterSet == s.parameterSet)
  {
    assert BatteryModels.Keys == ParameterSets.Keys;
    if s.chemistry in BatteryModels {
      FirstChoicesAgainstBackend(s.chemistry);
    }
  }

  /** The first model and preset of a listed chemistry are accepted by the backend exactly when it registers the chemistry. */
  lemma {:induction false} FirstChoicesAgainstBackend(chemistry: string)
    requires chemistry in BatteryModels
    ensures FirstModel(chemistry).Some? && FirstPreset(chemistry).Some?
    ensures (GetModel(chemistry, FirstModel(chemistry).value).Success?
             && GetParameterSet(chemistry, FirstPreset(chemistry).value).Success?)
            <==> chemistry in ModelMapping
  {
    assert BatteryModels.Keys == ParameterSets.Keys;
    var c := chemistry;
    if c == "lithium-ion" {
      assert FirstModel(c) == Some("SPM") && FirstPreset(c) == Some("Chen2020");
    } else if c == "lead-acid" {
      assert FirstModel(c) == Some("LOQS") && FirstPreset(c) == Some("Sulzer2019");
    } else if c == "sodium-ion" {
      assert FirstModel(c) == Some("SPM") && FirstPreset(c) == Some("Palmer2015");
    } else if c == "lithium-metal" {
      assert FirstModel(c) == Some("SPM") && FirstPreset(c) == Some("OKane2022");
    }
  }

  /**
   * After a chemistry change the page's model and preset are accepted by
   * the backend exactly when the backend registers the chemistry: the two
   * page-only chemistries (lithium-sulfur, zinc-air) get selections the
   * backend rejects.
   */
  lemma {:induction false} ResetSelectionAgainstBackend(s: Selection)
    requires s.chemistry in BatteryModels
    ensures var r := ChemistryChanged(s);
      (GetModel(r.chemistry, r.model).Success? && GetParameterSet(r.chemistry, r.parameterSet).Success?)
        <==> s.chemistry in ModelMapping
  {
    FirstChoicesAgainstBackend(s.chemistry);
  }

  /** Every model the page offers for a chemistry is accepted by the backend exactly when it registers the chemistry. */
  lemma {:induction false} PageModelsAgainstBackend(chemistry: string, i: nat)
    requires chemistry in BatteryModels && i < |BatteryModels[chemistry]|
    ensures GetModel(chemistry, BatteryModels[chemistry][i].0).Success? <==> chemistry in ModelMapping
  {
  }

  /**
   * The page-only presets: the backend rejects OKane2020, Bode1977,
   * Tomaszewska2019, Plating2021 and every lithium-sulfur and zinc-air
   * preset, and accepts every other preset the page offers.
   */
  lemma {:induction false} PagePresetsAgainstBackend(chemistry: string, i: nat)
    requires chemistry in ParameterSets && i < |ParameterSets[chemistry]|
    ensures var p := ParameterSets[chemistry][i];
      GetParameterSet(chemistry, p).Success? <==>
        chemistry in ParameterMapping && p !in {"OKane2020", "Bode1977", "Tomaszewska2019", "Plating2021"}
  {
  }

  /**
   * Six of the page's nine experiment types have no backend template and
   * are run as constant current; the backend's function-driven types are
   * not offered by the page.
   */
  lemma {:induction false} PageExperimentTypesAgainstBackend(experimentType: string, params: map<string, Request.Value>)
    requires experimentType in ExperimentTypes
    ensures experimentType !in {"constant_current", "constant_voltage", "cccv"} ==>
      Protocol.CreateExperiment(experimentType, params) == Protocol.CreateExperiment("constant_current", params)
    ensures ExperimentTypes.Keys * Protocol.ProtocolTypes == {"constant_current", "constant_voltage", "cccv"}
  {
    if experimentType !in {"constant_current", "constant_voltage", "cccv"} {
      Protocol.UnknownTypeIsConstantCurrent(experimentType, params);
    }
  }
}
