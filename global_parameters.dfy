/** The table of global (patient-context) parameters and what the forms rely
    on about it. */
module GlobalParametersData {
  import opened Wrappers
  import opened Types

  const GlobalParameters: seq<GlobalParameter> := [
    GlobalParameter("patient_age", "Patient Age", RangeInput, VNum(30), None, Some(0.0), Some(120.0), Some("years")),
    GlobalParameter("patient_gender", "Patient Gender", ListInput, VStr("M"), Some(["M", "F"]), None, None, None),
    GlobalParameter("questionnaire", "Questionnaire", TextInput, VStr(""), None, None, None, None)
  ]

  /** Three entries with pairwise distinct names. */
  lemma GlobalNamesDistinct()
    ensures |GlobalParameters| == 3
    ensures forall i, j :: 0 <= i < j < |GlobalParameters| ==> GlobalParameters[i].name != GlobalParameters[j].name
  {
  }

  /** The default age lies between the range entry's own bounds. */
  lemma AgeDefaultWithinBounds()
    ensures var g := GlobalParameters[0];
      && g.name == "patient_age" && g.kind == RangeInput
      && g.defaultValue.VNum? && g.min.Some? && g.max.Some?
      && g.min.value <= g.defaultValue.n as real <= g.max.value
  {
  }

  /** The default gender is one of the list entry's options. */
  lemma GenderDefaultAmongOptions()
    ensures var g := GlobalParameters[1];
      && g.name == "patient_gender" && g.kind == ListInput
      && g.defaultValue.VStr? && g.options.Some?
      && g.defaultValue.s in g.options.value
  {
  }

  /** min, max and unit are set exactly on the range entry, and a list
      entry is the only one with options. */
  lemma RangeFieldsOnlyOnRange()
    ensures forall g :: g in GlobalParameters ==>
      && ((g.min.Some? || g.max.Some? || g.unit.Some?) <==> g.kind == RangeInput)
      && (g.options.Some? <==> g.kind == ListInput)
  {
  }
}
