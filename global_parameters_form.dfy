/** The global-parameter panel of the builder: a list of `{name, value}`
    pairs that the panel reads with `getValue` (falling back to the table's
    defaults) and writes with `updateValue` (an upsert by name). */
module GlobalParametersForm {
  import opened Wrappers
  import opened Types
  import opened Strings
  import opened GlobalParametersData

  /** `values.find(v => v.name === name)`, as the index of the first match. */
  function IndexOfName(values: seq<GlobalParameterValue>, name: string): (r: Option<nat>)
    ensures r.Some? ==> r.value < |values| && values[r.value].name == name
    ensures r.Some? ==> forall j :: 0 <= j < r.value ==> values[j].name != name
    ensures r.None? <==> forall j :: 0 <= j < |values| ==> values[j].name != name
  {
    if values == [] then None
    else if values[0].name == name then Some(0)
    else
      match IndexOfName(values[1..], name)
      case None => None
      case Some(k) => Some(k + 1)
  }

  /** `globalParameters.find(p => p.name === name)`. */
  function FindGlobal(gs: seq<GlobalParameter>, name: string): (r: Option<GlobalParameter>)
    ensures r.Some? ==> r.value in gs && r.value.name == name
    ensures r.None? <==> forall j :: 0 <= j < |gs| ==> gs[j].name != name
  {
    if gs == [] then None
    else if gs[0].name == name then Some(gs[0])
    else FindGlobal(gs[1..], name)
  }

  /** `values.map(v => v.name === name ? {...v, value} : v)`. */
  function SetWhereNamed(values: seq<GlobalParameterValue>, name: string, value: Value): (r: seq<GlobalParameterValue>)
    ensures |r| == |values|
    ensures forall i :: 0 <= i < |values| ==>
      r[i] == if values[i].name == name then values[i].(value := value) else values[i]
  {
    if values == [] then []
    else
      [if values[0].name == name then values[0].(value := value) else values[0]]
      + SetWhereNamed(values[1..], name, value)
  }

  /** `updateValue(name, value)`: every entry with the name gets the new
      value; when there was none, one entry is appended at the end. */
  function UpdateValue(values: seq<GlobalParameterValue>, name: string, value: Value): (r: seq<GlobalParameterValue>)
    ensures IndexOfName(values, name).Some? ==>
      && |r| == |values|
      && forall i :: 0 <= i < |values| ==>
           r[i] == if values[i].name == name then values[i].(value := value) else values[i]
    ensures IndexOfName(values, name).None? ==> r == values + [GlobalParameterValue(name, value)]
  {
    var updated := SetWhereNamed(values, name, value);
    assert forall i :: 0 <= i < |values| ==> updated[i].name == values[i].name;
    if IndexOfName(updated, name).None? then updated + [GlobalParameterValue(name, value)]
    else updated
  }

  /** `getValue(name)`: the first entry's value (whatever it is), else the
      table default when that is truthy, else `""`. */
  function GetValue(values: seq<GlobalParameterValue>, name: string): (r: Value)
  {
    match IndexOfName(values, name)
    case Some(i) => values[i].value
    case None =>
      match FindGlobal(GlobalParameters, name)
      case Some(g) => if Truthy(g.defaultValue) then g.defaultValue else VStr("")
      case None => VStr("")
  }

  // ---------------------------------------------------------------------
  // Properties of the upsert and the lookup

  /** The list grows by one entry exactly when the name was absent. */
  lemma UpdateLength(values: seq<GlobalParameterValue>, name: string, value: Value)
    ensures |UpdateValue(values, name, value)| ==
      if exists i :: 0 <= i < |values| && values[i].name == name then |values| else |values| + 1
  {
    if IndexOfName(values, name).Some? {
      assert values[IndexOfName(values, name).value].name == name;
    }
  }

  /** The lookup returns the value of the first entry with the name. */
  lemma GetValueFirstMatch(values: seq<GlobalParameterValue>, name: string, i: nat)
    requires i < |values| && values[i].name == name
    requires forall j :: 0 <= j < i ==> values[j].name != name
    ensures GetValue(values, name) == values[i].value
  {
    var k := IndexOfName(values, name);
    assert k.Some?;
    assert k.value == i;
  }

  /** Without an entry, the lookup yields the table default (30 for the age,
      "M" for the gender) and `""` for every other name, the questionnaire
      included, since its default `""` is falsy. */
  lemma GetValueFallback(values: seq<GlobalParameterValue>, name: string)
    requires forall j :: 0 <= j < |values| ==> values[j].name != name
    ensures name == "patient_age" ==> GetValue(values, name) == VNum(30)
    ensures name == "patient_gender" ==> GetValue(values, name) == VStr("M")
    ensures name != "patient_age" && name != "patient_gender" ==> GetValue(values, name) == VStr("")
  {
    var g := FindGlobal(GlobalParameters, name);
    if g.Some? {
      assert g.value == GlobalParameters[0] || g.value == GlobalParameters[1] || g.value == GlobalParameters[2];
    }
  }

  /** The age panel reads `patient_age_min` and `patient_age_max`, which
      have no entry in the table: while unset they read as `""`. */
  lemma AgeBoundsUnsetReadEmpty(values: seq<GlobalParameterValue>)
    requires forall j :: 0 <= j < |values| ==>
      values[j].name != "patient_age_min" && values[j].name != "patient_age_max"
    ensures GetValue(values, "patient_age_min") == VStr("")
    ensures GetValue(values, "patient_age_max") == VStr("")
    ensures FindGlobal(GlobalParameters, "patient_age_min").None?
    ensures FindGlobal(GlobalParameters, "patient_age_max").None?
  {
    GetValueFallback(values, "patient_age_min");
    GetValueFallback(values, "patient_age_max");
  }

  /** The questionnaire reads as `""` both when unset and when set to its
      default. */
  lemma QuestionnaireAtDefaultReadsEmpty(values: seq<GlobalParameterValue>)
    requires IndexOfName(values, "questionnaire").None? ||
             values[IndexOfName(values, "questionnaire").value].value == VStr("")
    ensures GetValue(values, "questionnaire") == VStr("")
  {
    if IndexOfName(values, "questionnaire").None? {
      GetValueFallback(values, "questionnaire");
    }
  }

  /** Upsert then lookup: the lookup returns the value just written. */
  lemma GetAfterUpdate(values: seq<GlobalParameterValue>, name: string, value: Value)
    ensures GetValue(UpdateValue(values, name, value), name) == value
  {
    var r := UpdateValue(values, name, value);
    var k := IndexOfName(values, name);
    if k.Some? {
      GetValueFirstMatch(r, name, k.value);
    } else {
      GetValueFirstMatch(r, name, |values|);
    }
  }

  /** Writing one name leaves what every other name reads unchanged. */
  lemma GetOtherAfterUpdate(values: seq<GlobalParameterValue>, name: string, value: Value, other: string)
    requires other != name
    ensures GetValue(UpdateValue(values, name, value), other) == GetValue(values, other)
  {
    var r := UpdateValue(values, name, value);
    var k := IndexOfName(values, other);
    if k.Some? {
      GetValueFirstMatch(r, other, k.value);
    } else {
      assert forall j :: 0 <= j < |r| ==> r[j].name != other by {
        forall j | 0 <= j < |r| ensures r[j].name != other {
          if j < |values| { assert r[j].name == values[j].name; }
        }
      }
      assert IndexOfName(r, other).None?;
    }
  }

  // ---------------------------------------------------------------------
  // The input handlers of the panel

  /** The fallbacks of the two age inputs: the range entry's min and max. */
  const AgeMinFallback: int := 0
  const AgeMaxFallback: int := 120

  lemma AgeFallbacksAreTableBounds()
    ensures GlobalParameters[0].name == "patient_age"
    ensures GlobalParameters[0].min == Some(AgeMinFallback as real)
    ensures GlobalParameters[0].max == Some(AgeMaxFallback as real)
  {
  }

  /** `parseInt(text) || fallback`: NaN and 0 both give the fallback. */
  function IntOr(text: string, fallback: int): (r: int)
    ensures ParseInt(text).Some? && ParseInt(text).value != 0 ==> r == ParseInt(text).value
    ensures ParseInt(text).None? || ParseInt(text).value == 0 ==> r == fallback
  {
    match ParseInt(text)
    case Some(n) => if n != 0 then n else fallback
    case None => fallback
  }

  /** The min-age and max-age inputs write `patient_age_min` or
      `patient_age_max`; an empty input stores the bound, and so does a
      typed 0 in the max-age input, which therefore stores 120. */
  function OnAgeBoundInput(values: seq<GlobalParameterValue>, isMax: bool, text: string): (r: seq<GlobalParameterValue>)
  {
    if isMax then UpdateValue(values, "patient_age_max", VNum(IntOr(text, AgeMaxFallback)))
    else UpdateValue(values, "patient_age_min", VNum(IntOr(text, AgeMinFallback)))
  }

  /** `parseInt("")` is NaN and `parseInt("0")` is 0, so an emptied input
      and a typed 0 both give the fallback. */
  lemma IntOrEmptyAndZero(fallback: int)
    ensures IntOr("", fallback) == fallback
    ensures IntOr("0", fallback) == fallback
  {
    assert ParseInt("") == None by {
      assert TrimStart("") == "" && Unsigned("") == "";
      assert DigitPrefix(DigitText(""), RadixOf("")) == "";
    }
    assert ParseInt("0") == Some(0) by {
      assert DigitsValue("0", 10) == 0 by {
        assert "0"[..0] == "";
      }
      ReadDecimalDigits("0");
      ParseIntOfUnsigned("0");
    }
  }

  /** The age input writes its key so that it reads back the parsed value;
      an emptied input reads back the bound, and so does a 0 typed in the
      max-age input. */
  lemma AgeBoundInputReadBack(values: seq<GlobalParameterValue>, isMax: bool, text: string)
    ensures var key := if isMax then "patient_age_max" else "patient_age_min";
      GetValue(OnAgeBoundInput(values, isMax, text), key) == VNum(IntOr(text, if isMax then AgeMaxFallback else AgeMinFallback))
    ensures isMax ==> GetValue(OnAgeBoundInput(values, true, "0"), "patient_age_max") == VNum(120)
    ensures GetValue(OnAgeBoundInput(values, isMax, ""), if isMax then "patient_age_max" else "patient_age_min")
      == VNum(if isMax then 120 else 0)
  {
    IntOrEmptyAndZero(AgeMaxFallback);
    IntOrEmptyAndZero(AgeMinFallback);
    if isMax {
      GetAfterUpdate(values, "patient_age_max", VNum(IntOr(text, AgeMaxFallback)));
      GetAfterUpdate(values, "patient_age_max", VNum(AgeMaxFallback));
    } else {
      GetAfterUpdate(values, "patient_age_min", VNum(IntOr(text, AgeMinFallback)));
      GetAfterUpdate(values, "patient_age_min", VNum(AgeMinFallback));
    }
  }

  /** The gender select and the questionnaire text write the chosen string. */
  function OnTextInput(values: seq<GlobalParameterValue>, name: string, text: string): (r: seq<GlobalParameterValue>)
    ensures GetValue(r, name) == VStr(text)
  {
    GetAfterUpdate(values, name, VStr(text));
    UpdateValue(values, name, VStr(text))
  }
}
