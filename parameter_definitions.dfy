/** The catalogue of parameter definitions and the four algorithm templates
    that seed the builder. */
module ParameterDefinitionsData {
  import opened Wrappers
  import opened Types

  function RangeConfig(min: real, max: real, unit: Option<string>, required: bool): ParameterConfig {
    ParameterConfig(Range, Some(min), Some(max), None, None, Some(required), unit)
  }

  function ListConfig(options: seq<string>, required: bool): ParameterConfig {
    ParameterConfig(List, None, None, None, Some(options), Some(required), None)
  }

  function TextConfig(kind: ValidationType, value: Option<string>, required: bool): ParameterConfig {
    ParameterConfig(kind, None, None, if value.Some? then Some(VStr(value.value)) else None, None, Some(required), None)
  }

  const ParameterDefinitions: seq<ParameterDefinition> := [
    ParameterDefinition("patient_age", "Patient Age", Range,
      RangeConfig(0.0, 120.0, Some("years"), true), true, "Patient Info"),
    ParameterDefinition("patient_gender", "Patient Gender", List,
      ListConfig(["Male", "Female", "Other"], true), true, "Patient Info"),
    ParameterDefinition("result", "Test Result", Range,
      RangeConfig(0.0, 100.0, None, true), false, "Results"),
    ParameterDefinition("qc", "Quality Control", Contains,
      TextConfig(Contains, Some("normal"), true), false, "Quality"),
    ParameterDefinition("unity", "Unit of Measurement", List,
      ListConfig(["g/L", "mg/dL", "mmol/L", "\U{B5}mol/L", "IU/L"], true), false, "Results"),
    ParameterDefinition("entecedent", "Previous Value", List,
      ListConfig(["LOW", "HIGH"], false), false, "Medical History"),
    ParameterDefinition("entecedent_date", "Days Since Previous Test", Range,
      RangeConfig(0.0, 365.0, Some("days"), false), false, "Medical History"),
    ParameterDefinition("interparameter", "Linked Parameter", List,
      ListConfig([], false), false, "Relationships"),
    ParameterDefinition("comments", "Comments", Contains,
      TextConfig(Contains, None, false), false, "Notes")
  ]

  /** An entry of `algorithmTemplates`: its key, display name and the
      parameters it installs. */
  datatype Template = Template(key: string, name: string, defaultParameters: seq<Parameter>)

  function Sub(param: string, config: ParameterConfig): SubParameter {
    SubParameter(param, Some(config))
  }

  const BloodTemplate := Template("blood", "Blood Analysis (FNS)", [
    Parameter("globule_rouge", "Globule Rouge", [
      Sub("result", RangeConfig(5.0, 15.0, Some("M/\U{B5}L"), true)),
      Sub("result_type", ListConfig(["normal", "supra", "infra"], true)),
      Sub("qc", TextConfig(Contains, Some("abnormal"), true))]),
    Parameter("hemoglobine", "H\U{E9}moglobine", [
      Sub("result", RangeConfig(12.0, 16.0, Some("g/dL"), true)),
      Sub("qc", TextConfig(Contains, Some("normal"), true))]),
    Parameter("plaquettes", "Plaquettes", [
      Sub("result", RangeConfig(150.0, 450.0, Some("K/\U{B5}L"), true))])])

  const UrineTemplate := Template("urine", "Urine Analysis", [
    Parameter("proteine", "Prot\U{E9}ine", [
      Sub("result", RangeConfig(0.0, 0.15, Some("g/L"), true)),
      Sub("sample_type", ListConfig(["urine"], true))]),
    Parameter("glucose", "Glucose", [
      Sub("result", TextConfig(Exact, Some("0"), true)),
      Sub("qc", TextConfig(Contains, Some("normal"), true))])])

  const BiochemistryTemplate := Template("biochemistry", "Biochemistry Analysis", [
    Parameter("cholesterol", "Cholest\U{E9}rol Total", [
      Sub("result", RangeConfig(0.0, 2.0, Some("g/L"), true)),
      Sub("result_type", ListConfig(["normal", "elevated", "low"], true))]),
    Parameter("glucose_sanguin", "Glucose Sanguin", [
      Sub("result", RangeConfig(0.7, 1.1, Some("g/L"), true)),
      Sub("unity", ListConfig(["g/L", "mg/dL", "mmol/L"], true))])])

  const HematologyTemplate := Template("hematology", "Hematology Analysis", [
    Parameter("leucocytes", "Leucocytes", [
      Sub("result", RangeConfig(4.0, 10.0, Some("10^9/L"), true)),
      Sub("sample_type", ListConfig(["blood", "plasma"], true))]),
    Parameter("neutrophiles", "Neutrophiles", [
      Sub("result", RangeConfig(50.0, 70.0, Some("%"), true)),
      Sub("qc", TextConfig(Contains, Some("normal"), true))])])

  /** `algorithmTemplates`, in declaration order. */
  const AlgorithmTemplates: seq<Template> := [BloodTemplate, UrineTemplate, BiochemistryTemplate, HematologyTemplate]

  /** The template keys in declaration order (`Object.keys(algorithmTemplates)`). */
  function TemplateKeys(ts: seq<Template>): (r: seq<string>)
    ensures |r| == |ts| && forall i :: 0 <= i < |ts| ==> r[i] == ts[i].key
  {
    if ts == [] then [] else [ts[0].key] + TemplateKeys(ts[1..])
  }

  /** The position of the first template with that key, or None. */
  function TemplateIndex(ts: seq<Template>, key: string): (r: Option<nat>)
    ensures r.Some? ==> r.value < |ts| && ts[r.value].key == key
    ensures r.Some? ==> forall j :: 0 <= j < r.value ==> ts[j].key != key
    ensures r.None? <==> forall i :: 0 <= i < |ts| ==> ts[i].key != key
  {
    if ts == [] then None
    else if ts[0].key == key then Some(0)
    else
      match TemplateIndex(ts[1..], key)
      case None => None
      case Some(k) => Some(k + 1)
  }

  /** `algorithmTemplates[key]`: the first template with that key, or None. */
  function FindTemplate(ts: seq<Template>, key: string): (r: Option<Template>)
    ensures r.Some? ==> r.value in ts && r.value.key == key
    ensures r.None? <==> forall i :: 0 <= i < |ts| ==> ts[i].key != key
  {
    match TemplateIndex(ts, key)
    case Some(i) => Some(ts[i])
    case None => None
  }

  // ---------------------------------------------------------------------
  // Invariants of the tables

  /** Nine definitions, each of whose default config has the definition's
      own kind. */
  lemma DefinitionsWellFormed()
    ensures |ParameterDefinitions| == 9
    ensures forall i :: 0 <= i < |ParameterDefinitions| ==>
      ParameterDefinitions[i].defaultConfig.kind == ParameterDefinitions[i].kind
  {
  }

  /** No two definitions share a name. */
  lemma DefinitionNamesDistinct()
    ensures forall i, j :: 0 <= i < j < |ParameterDefinitions| ==>
      ParameterDefinitions[i].name != ParameterDefinitions[j].name
  {
  }

  /** Exactly the first two definitions, `patient_age` and `patient_gender`,
      are global. */
  lemma GlobalDefinitionsAreTheTwoPatientFields()
    ensures |ParameterDefinitions| > 2
    ensures ParameterDefinitions[0].name == "patient_age" && ParameterDefinitions[1].name == "patient_gender"
    ensures forall i :: 0 <= i < |ParameterDefinitions| ==> (ParameterDefinitions[i].isGlobal <==> i < 2)
  {
  }

  /** The four template keys, in the order the pickers offer them. */
  lemma TemplateKeysInOrder()
    ensures TemplateKeys(AlgorithmTemplates) == ["blood", "urine", "biochemistry", "hematology"]
  {
  }

  /** The lookup by key finds each of the four templates under its own key
      and nothing under any other key. */
  lemma FindTemplateByKey(key: string)
    ensures TemplateIndex(AlgorithmTemplates, "blood") == Some(0)
    ensures TemplateIndex(AlgorithmTemplates, "urine") == Some(1)
    ensures TemplateIndex(AlgorithmTemplates, "biochemistry") == Some(2)
    ensures TemplateIndex(AlgorithmTemplates, "hematology") == Some(3)
    ensures FindTemplate(AlgorithmTemplates, key).Some? <==>
      key == "blood" || key == "urine" || key == "biochemistry" || key == "hematology"
  {
    var ts := AlgorithmTemplates;
    assert |ts| == 4;
    assert ts[0].key == "blood" && ts[1].key == "urine";
    assert ts[2].key == "biochemistry" && ts[3].key == "hematology";
  }

  /** The blood template is the first one and has parameters. */
  lemma BloodTemplateFirst()
    ensures |AlgorithmTemplates| == 4 && AlgorithmTemplates[0] == BloodTemplate
    ensures |BloodTemplate.defaultParameters| > 0
  {
  }

  /** What every template sub-parameter satisfies: a config that is
      required and, for a range, has both bounds with min <= max. */
  predicate WellFormedTemplateSub(s: SubParameter) {
    && s.config.Some?
    && s.config.value.required == Some(true)
    && (s.config.value.kind == Range ==>
          s.config.value.min.Some? && s.config.value.max.Some? &&
          s.config.value.min.value <= s.config.value.max.value)
  }

  /** A template parameter has at least one sub-parameter, all well formed. */
  predicate WellFormedTemplateParameter(p: Parameter) {
    && |p.subParameters| >= 1
    && forall j :: 0 <= j < |p.subParameters| ==> WellFormedTemplateSub(p.subParameters[j])
  }

  predicate WellFormedTemplate(t: Template) {
    forall i :: 0 <= i < |t.defaultParameters| ==> WellFormedTemplateParameter(t.defaultParameters[i])
  }

  lemma BloodWellFormed() ensures WellFormedTemplate(BloodTemplate) {
    var b := BloodTemplate.defaultParameters;
    assert WellFormedTemplateParameter(b[0]);
    assert WellFormedTemplateParameter(b[1]);
    assert WellFormedTemplateParameter(b[2]);
  }

  lemma UrineWellFormed() ensures WellFormedTemplate(UrineTemplate) {
    var u := UrineTemplate.defaultParameters;
    assert WellFormedTemplateParameter(u[0]);
    assert WellFormedTemplateParameter(u[1]);
  }

  lemma BiochemistryWellFormed() ensures WellFormedTemplate(BiochemistryTemplate) {
    var c := BiochemistryTemplate.defaultParameters;
    assert WellFormedTemplateParameter(c[0]);
    assert WellFormedTemplateParameter(c[1]);
  }

  lemma HematologyWellFormed() ensures WellFormedTemplate(HematologyTemplate) {
    var h := HematologyTemplate.defaultParameters;
    assert WellFormedTemplateParameter(h[0]);
    assert WellFormedTemplateParameter(h[1]);
  }

  /** Every template parameter has a sub-parameter, every template
      sub-parameter is required, and every template range has min <= max. */
  lemma EveryTemplateWellFormed()
    ensures forall i :: 0 <= i < |AlgorithmTemplates| ==> WellFormedTemplate(AlgorithmTemplates[i])
  {
    BloodWellFormed();
    UrineWellFormed();
    BiochemistryWellFormed();
    HematologyWellFormed();
  }
}
