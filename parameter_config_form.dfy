/** The editor of one sub-parameter's validation config: every input
    produces a partial config that is spread over the current one. */
module ParameterConfigForm {
  import opened Wrappers
  import opened Types
  import opened Strings

  /** `Partial<ParameterConfig>`: None is a key the update does not carry. */
  datatype ConfigPatch = ConfigPatch(
    kind: Option<ValidationType>,
    min: Option<real>,
    max: Option<real>,
    value: Option<Value>,
    options: Option<seq<string>>,
    required: Option<bool>,
    unit: Option<string>)

  const NoChange := ConfigPatch(None, None, None, None, None, None, None)

  /** `updateConfig(updates)`, i.e. `{...config, ...updates}`: every field the
      update carries is overridden, every other field is kept. */
  function UpdateConfig(config: ParameterConfig, patch: ConfigPatch): (r: ParameterConfig)
    ensures r.kind == if patch.kind.Some? then patch.kind.value else config.kind
    ensures patch.min.Some? ==> r.min == patch.min
    ensures patch.max.Some? ==> r.max == patch.max
    ensures patch.value.Some? ==> r.value == patch.value
    ensures patch.options.Some? ==> r.options == patch.options
    ensures patch.required.Some? ==> r.required == patch.required
    ensures patch.unit.Some? ==> r.unit == patch.unit
    ensures patch.min.None? ==> r.min == config.min
    ensures patch.max.None? ==> r.max == config.max
    ensures patch.value.None? ==> r.value == config.value
    ensures patch.options.None? ==> r.options == config.options
    ensures patch.required.None? ==> r.required == config.required
    ensures patch.unit.None? ==> r.unit == config.unit
  {
    ParameterConfig(
      patch.kind.GetOr(config.kind),
      if patch.min.Some? then patch.min else config.min,
      if patch.max.Some? then patch.max else config.max,
      if patch.value.Some? then patch.value else config.value,
      if patch.options.Some? then patch.options else config.options,
      if patch.required.Some? then patch.required else config.required,
      if patch.unit.Some? then patch.unit else config.unit)
  }

  /** An empty update changes nothing, and applying an update twice is
      applying it once. */
  lemma UpdateConfigLaws(config: ParameterConfig, patch: ConfigPatch)
    ensures UpdateConfig(config, NoChange) == config
    ensures UpdateConfig(UpdateConfig(config, patch), patch) == UpdateConfig(config, patch)
  {
  }

  // ---------------------------------------------------------------------
  // The `list` input: comma-separated options

  /** `pieces.map(s => s.trim())`. */
  function TrimAll(pieces: seq<string>): (r: seq<string>)
    ensures |r| == |pieces|
    ensures forall i :: 0 <= i < |pieces| ==> r[i] == Trim(pieces[i])
  {
    if pieces == [] then [] else [Trim(pieces[0])] + TrimAll(pieces[1..])
  }

  /** `pieces.filter(s => s)`: the non-empty pieces, in order. */
  function DropEmpty(pieces: seq<string>): (r: seq<string>)
    ensures |r| <= |pieces|
    ensures forall x :: x in r <==> x in pieces && x != ""
    ensures (forall i :: 0 <= i < |pieces| ==> pieces[i] != "") ==> r == pieces
  {
    if pieces == [] then []
    else (if pieces[0] == "" then [] else [pieces[0]]) + DropEmpty(pieces[1..])
  }

  /** The filter works piece by piece: a single piece is kept exactly when
      it is not empty, and two lists end to end give their kept pieces end
      to end, so the options keep the order of the text. */
  lemma {:induction false} DropEmptyAppend(a: seq<string>, b: seq<string>)
    ensures DropEmpty(a + b) == DropEmpty(a) + DropEmpty(b)
    ensures |a| == 1 ==> DropEmpty(a) == (if a[0] == "" then [] else a)
  {
    if a == [] {
      assert a + b == b;
    } else {
      assert (a + b)[1..] == a[1..] + b;
      DropEmptyAppend(a[1..], b);
    }
  }

  /** An option the parser can produce: non-empty, comma-free and with no
      white space at either end. */
  predicate IsCleanOption(o: string) {
    o != "" && ',' !in o && Trim(o) == o
  }

  /** Trimmed pieces of a split are comma-free and trimmed. */
  lemma TrimmedPiecesClean(pieces: seq<string>)
    requires forall i :: 0 <= i < |pieces| ==> ',' !in pieces[i]
    ensures forall x :: x in TrimAll(pieces) && x != "" ==> IsCleanOption(x)
  {
    var trimmed := TrimAll(pieces);
    forall i | 0 <= i < |trimmed| ensures ',' !in trimmed[i] && Trim(trimmed[i]) == trimmed[i] {
      TrimIsContained(pieces[i]);
      TrimIdempotent(pieces[i]);
    }
  }

  /** The list input's parser: split on `,`, trim each piece, drop the
      empty ones. */
  function ParseOptions(text: string): (r: seq<string>)
    ensures forall o :: o in r ==> IsCleanOption(o)
    ensures |r| <= CommaCount(text) + 1
  {
    TrimmedPiecesClean(Split(text));
    DropEmpty(TrimAll(Split(text)))
  }

  /** The list input's text: `config.options?.join(', ') || ''`. */
  function OptionsText(config: ParameterConfig): string {
    match config.options
    case None => ""
    case Some(os) => Join(os, ", ")
  }

  /** Typing into the list input replaces the options and nothing else. */
  function OnOptionsInput(config: ParameterConfig, text: string): (r: ParameterConfig)
    ensures r == config.(options := Some(ParseOptions(text)))
  {
    UpdateConfig(config, NoChange.(options := Some(ParseOptions(text))))
  }

  /** Round trip: the displayed text of clean options parses back to the
      same options. */
  lemma {:induction false} ParseJoinRoundTrip(os: seq<string>)
    requires forall i :: 0 <= i < |os| ==> IsCleanOption(os[i])
    ensures ParseOptions(Join(os, ", ")) == os
  {
    if os != [] {
      SplitJoinCommaSpace(os);
      TrimAllSpacePrefixed(os);
    }
  }

  /** Trimming the pieces `[o0, " " + o1, ...]` of clean options gives the
      options back. */
  lemma TrimAllSpacePrefixed(os: seq<string>)
    requires os != []
    requires forall i :: 0 <= i < |os| ==> IsCleanOption(os[i])
    ensures TrimAll([os[0]] + SpacePrefixed(os[1..])) == os
  {
    var pieces := [os[0]] + SpacePrefixed(os[1..]);
    var trimmed := TrimAll(pieces);
    forall i | 0 <= i < |os| ensures trimmed[i] == os[i] {
      if i > 0 {
        assert pieces[i] == " " + os[i];
        SpaceThenTrim(os[i]);
      }
    }
  }

  /** What the list input shows after an edit parses back to the options the
      edit stored, so re-reading the field never changes the options. */
  lemma OptionsInputStable(config: ParameterConfig, text: string)
    ensures ParseOptions(OptionsText(OnOptionsInput(config, text))) == ParseOptions(text)
  {
    var os := ParseOptions(text);
    assert forall i :: 0 <= i < |os| ==> os[i] in os;
    ParseJoinRoundTrip(os);
  }

  // ---------------------------------------------------------------------
  // The `boolean` picker, the kind picker and the required checkbox

  /** `String(v)` for the values a config can hold. */
  function ValueToString(v: Value): string {
    match v
    case VStr(s) => s
    case VNum(n) => IntToString(n)
    case VBool(b) => if b then "true" else "false"
  }

  /** Picking an entry of the boolean select stores `true` exactly when the
      entry is `'true'`, and changes nothing else. */
  function OnBooleanSelect(config: ParameterConfig, selected: string): (r: ParameterConfig)
    ensures r.value == Some(VBool(selected == "true"))
    ensures r.(value := config.value) == config
  {
    UpdateConfig(config, NoChange.(value := Some(VBool(selected == "true"))))
  }

  /** The boolean select shows `config.value?.toString() || 'true'`. */
  function BooleanDisplay(config: ParameterConfig): (r: string)
    ensures config.value.None? ==> r == "true"
    ensures r != ""
  {
    match config.value
    case None => "true"
    case Some(v) => if ValueToString(v) == "" then "true" else ValueToString(v)
  }

  /** The select shows what it stored. */
  lemma BooleanSelectShowsChoice(config: ParameterConfig, selected: string)
    ensures BooleanDisplay(OnBooleanSelect(config, selected)) == if selected == "true" then "true" else "false"
  {
  }

  /** Changing the validation kind keeps min, max, value, options, unit and
      required from before. */
  function OnKindSelect(config: ParameterConfig, kind: ValidationType): (r: ParameterConfig)
    ensures r.kind == kind
    ensures r.(kind := config.kind) == config
  {
    UpdateConfig(config, NoChange.(kind := Some(kind)))
  }

  /** The required checkbox stores its checked state and nothing else. */
  function OnRequiredToggle(config: ParameterConfig, checked: bool): (r: ParameterConfig)
    ensures r.required == Some(checked)
    ensures r.(required := config.required) == config
  {
    UpdateConfig(config, NoChange.(required := Some(checked)))
  }

  /** The checkbox shows `config.required || false`. */
  function RequiredDisplay(config: ParameterConfig): (r: bool)
    ensures r <==> config.required == Some(true)
  {
    config.required.GetOr(false)
  }

  /** The text input of `exact` and `contains` stores the typed string. */
  function OnValueInput(config: ParameterConfig, text: string): (r: ParameterConfig)
    ensures r.value == Some(VStr(text))
    ensures r.(value := config.value) == config
  {
    UpdateConfig(config, NoChange.(value := Some(VStr(text))))
  }

  /** The unit input of `range` stores the typed string. */
  function OnUnitInput(config: ParameterConfig, text: string): (r: ParameterConfig)
    ensures r.unit == Some(text)
    ensures r.(unit := config.unit) == config
  {
    UpdateConfig(config, NoChange.(unit := Some(text)))
  }

  /** The inputs shown under the kind picker. */
  datatype Field = MinInput | MaxInput | UnitInput | ValueInput | OptionsInput | BooleanSelect

  /** The kinds the picker offers, in its order. */
  const KindChoices: seq<ValidationType> := [Range, Exact, Contains, List, Boolean]

  /** `renderConfigFields()`: the kind-specific inputs. */
  function ConfigFields(kind: ValidationType): seq<Field> {
    match kind
    case Range => [MinInput, MaxInput, UnitInput]
    case Exact => [ValueInput]
    case Contains => [ValueInput]
    case List => [OptionsInput]
    case Boolean => [BooleanSelect]
    case Date => []
  }

  /** `date` is the one kind the picker does not offer, and the one kind
      with no inputs of its own. */
  lemma DateIsNeitherOfferedNorRendered(kind: ValidationType)
    ensures kind in KindChoices <==> kind != Date
    ensures ConfigFields(kind) == [] <==> kind == Date
  {
  }
}
