# LABO_FRONT configuration logic in Dafny

LABO_FRONT is a React front end for configuring laboratory validation
algorithms. This project models the state-update helpers of its components
and the constant tables they read, and proves properties of them:

- the algorithm builder: the parameter list, template application, loading,
  clearing, save-time pruning and the id rule. The builder's parameter
  objects are modelled as heap objects, because several handlers copy only
  the outer array and then write into `updated[index].subParameters`. That
  write changes the object that the previous state, the loaded algorithm or
  the template still holds (`AlgorithmBuilder.TemplateEditPersists`).
- the global-parameter panel: the upsert by name and the lookup with a
  default.
- the validation-config editor: the merge, the comma-separated option list
  with its display join, and the kind, boolean and required inputs.
- the workflow form: the selection list, the order extraction and the
  submit guards.
- the web scraper: the mapping list and the generated Playwright script.
- the library: the sub-parameter count, duplicate, new-algorithm and
  new-workflow records, and the workflow chain with its `(Deleted)`
  fallback.
- the new-algorithm form and the duplicate dialog.

Modules follow the source files. `Types` holds the records of
`src/types/index.ts`. `GlobalParametersData` and `ParameterDefinitionsData`
hold the tables. `Strings` holds the JavaScript built-ins the components use
(`trim`, `split(',')`, `join`, `String(n)` and `parseInt`). `Lists` holds
the index filter `filter((_, i) => i !== k)`. The other modules are one per
component. `AlgorithmBuilderLogic` holds the pure parts of the builder and
`AlgorithmBuilder` its state.

A `useState` slot is a field of a class, and a handler is a method that
assigns it. Pure helpers are functions. `new Date()` becomes a `now`
parameter. `alert`, `console` and the server calls are not modelled.

## Model

| member | source | states |
|---|---|---|
| Strings.BlankIffTrimEmpty | src/components/AlgorithmBuilder.tsx:100 | the guard `!name.trim()` holds exactly when the name is white space throughout |
| Strings.TrimStart | src/components/ParameterConfigForm.tsx:105 | only leading white space is dropped, and the result starts with none |
| Strings.TrimEnd | src/components/ParameterConfigForm.tsx:105 | only trailing white space is dropped, and the result ends with none |
| Strings.Trim | src/components/ParameterConfigForm.tsx:105 | `trim` yields a contiguous piece of the input with white space at neither end |
| Strings.TrimIdempotent | src/components/DuplicateAlgorithmModal.tsx:32 | trimming twice is trimming once |
| Strings.SpaceThenTrim | src/components/ParameterConfigForm.tsx:103-105 | the space left by the `', '` separator never survives `trim` |
| Strings.Split | src/components/ParameterConfigForm.tsx:105 | `split(',')` gives at least one piece, one more than the number of commas, none holding a comma |
| Strings.SplitJoinCommaSpace | src/components/ParameterConfigForm.tsx:103-105 | splitting a `', '`-join of comma-free strings gives back the first string and every later one with a leading space |
| Strings.Join | src/components/ParameterConfigForm.tsx:103 | `join` of no strings is `""` and of one string is that string |
| Strings.NatToString | src/components/WorkflowForm.tsx:79 | a decimal rendering: non-empty, digits only, no leading zero |
| Strings.IntToString | src/components/WorkflowForm.tsx:79 | `String(n)` is never empty |
| Strings.ReadDecimalDigits | src/components/WorkflowForm.tsx:38 | a run of decimal digits without a `0x` prefix is read as its decimal value |
| Strings.ParseIntOfUnsigned | src/components/WorkflowForm.tsx:38 | text that starts with a digit is parsed from its first character, without sign or leading space |
| Strings.ParseIntOfNegated | src/components/WorkflowForm.tsx:38 | the same text after a `-` is parsed as the negated value |
| Strings.NatToStringValue | src/components/WorkflowForm.tsx:79 | the decimal rendering of `n`, read back as digits, is `n` |
| Strings.DigitPrefix | src/components/WorkflowForm.tsx:38 | `parseInt` reads the longest prefix of digits of the radix |
| Strings.ParseIntOfIntToString | src/components/WorkflowForm.tsx:38 | `parseInt(String(n))` is `n` for every integer |
| Strings.ParseInt | src/components/WorkflowForm.tsx:38 | `parseInt`: leading white space, an optional sign, a `0x` radix prefix, then the longest digit prefix; the contract lives in `ReadDecimalDigits`, `ParseIntOfUnsigned`, `ParseIntOfNegated` and `ParseIntOfIntToString` |
| Lists.Without | src/components/AlgorithmBuilder.tsx:74 | dropping an index inside the list shortens it by one, and an index outside the list changes nothing; which entries remain is stated by `WithoutShifts` and `WithoutSlices` |
| Lists.WithoutShifts | src/components/WorkflowForm.tsx:20 | after the drop, earlier entries keep their index and later ones move down by one |
| Lists.WithoutSlices | src/components/WebScraper.tsx:18 | the drop equals the slice before k followed by the slice after k |
| Lists.WithoutMembership | src/components/AlgorithmBuilder.tsx:366 | every kept entry was in the list, and every entry other than the dropped one is kept |
| GlobalParametersData.GlobalNamesDistinct | src/data/globalParameters.ts:3-26 | three global entries with pairwise distinct names |
| GlobalParametersData.AgeDefaultWithinBounds | src/data/globalParameters.ts:8-10 | the age default 30 lies within the entry's own [0, 120] |
| GlobalParametersData.GenderDefaultAmongOptions | src/data/globalParameters.ts:17-18 | the gender default `M` is among the options `M`, `F` |
| GlobalParametersData.RangeFieldsOnlyOnRange | src/data/globalParameters.ts:9-11 | min, max and unit are set exactly on the range entry, and options only on the list entry |
| ParameterDefinitionsData.DefinitionsWellFormed | src/data/parameterDefinitions.ts:3-121 | nine definitions, each default config of the definition's own kind |
| ParameterDefinitionsData.DefinitionNamesDistinct | src/data/parameterDefinitions.ts:3-121 | no two definitions share a name |
| ParameterDefinitionsData.GlobalDefinitionsAreTheTwoPatientFields | src/data/parameterDefinitions.ts:3-121 | the first two definitions are `patient_age` and `patient_gender`, and a definition is global exactly when it is one of those two |
| ParameterDefinitionsData.TemplateKeys | src/data/parameterDefinitions.ts:123 | one key per template, in declaration order |
| ParameterDefinitionsData.TemplateKeysInOrder | src/data/parameterDefinitions.ts:123-358 | the keys are blood, urine, biochemistry and hematology, in that order |
| ParameterDefinitionsData.TemplateIndex | src/components/AlgorithmBuilder.tsx:80-82 | the position of the first template with the key, or none exactly when no template has it |
| ParameterDefinitionsData.FindTemplate | src/components/AlgorithmBuilder.tsx:80-82 | a found template is in the table under that key, and none is found only when no template has the key |
| ParameterDefinitionsData.FindTemplateByKey | src/components/AlgorithmBuilder.tsx:199-202 | each key finds its own template, and a key finds one exactly when it is one of the four picker values |
| ParameterDefinitionsData.BloodTemplateFirst | src/data/parameterDefinitions.ts:123-200 | the blood template comes first of the four and has parameters |
| ParameterDefinitionsData.EveryTemplateWellFormed | src/data/parameterDefinitions.ts:123-358 | every template parameter has a sub-parameter, every template sub-parameter is required, and every template range has min <= max |
| GlobalParametersForm.IndexOfName | src/components/GlobalParametersForm.tsx:26 | the index of the first entry with the name, or none exactly when no entry has it |
| GlobalParametersForm.GetValue | src/components/GlobalParametersForm.tsx:25-31 | `getValue`: the first entry's value, else a truthy table default, else `""`; stated by `GetValueFirstMatch`, `GetValueFallback` and `GetAfterUpdate` |
| GlobalParametersForm.FindGlobal | src/components/GlobalParametersForm.tsx:29 | a found table entry has the name, and none is found only when no entry has it |
| GlobalParametersForm.SetWhereNamed | src/components/GlobalParametersForm.tsx:15 | every entry with the name gets the value, every other entry and the order stay |
| GlobalParametersForm.UpdateValue | src/components/GlobalParametersForm.tsx:14-20 | with the name present, every match is set and nothing else changes; with it absent, exactly one entry is appended at the end |
| GlobalParametersForm.UpdateLength | src/components/GlobalParametersForm.tsx:15-20 | the list grows by one exactly when the name was absent, and otherwise keeps its length |
| GlobalParametersForm.GetValueFirstMatch | src/components/GlobalParametersForm.tsx:26-27 | the lookup returns the value of the first entry with the name, whatever that value is |
| GlobalParametersForm.GetValueFallback | src/components/GlobalParametersForm.tsx:29-30 | without an entry, the lookup yields 30 for the age, `M` for the gender and `""` for every other name |
| GlobalParametersForm.AgeBoundsUnsetReadEmpty | src/components/GlobalParametersForm.tsx:57 | `patient_age_min` and `patient_age_max` have no table entry and read as `""` while unset |
| GlobalParametersForm.QuestionnaireAtDefaultReadsEmpty | src/data/globalParameters.ts:24 | the questionnaire reads as `""` both unset and at its default |
| GlobalParametersForm.GetAfterUpdate | src/components/GlobalParametersForm.tsx:14-27 | after the upsert of a name, the lookup of that name returns the written value |
| GlobalParametersForm.GetOtherAfterUpdate | src/components/GlobalParametersForm.tsx:14-31 | the upsert of one name leaves the lookup of every other name unchanged |
| GlobalParametersForm.AgeFallbacksAreTableBounds | src/components/GlobalParametersForm.tsx:61 | the age inputs fall back to the range entry's min 0 and max 120 |
| GlobalParametersForm.IntOr | src/components/GlobalParametersForm.tsx:61 | `parseInt(text) \|\| fallback`: a non-zero parse is kept, and NaN or 0 gives the fallback |
| GlobalParametersForm.IntOrEmptyAndZero | src/components/GlobalParametersForm.tsx:61 | an empty input and the text `0` both give the fallback |
| GlobalParametersForm.OnAgeBoundInput | src/components/GlobalParametersForm.tsx:55-85 | the age inputs upsert `patient_age_min` or `patient_age_max`; what reads back is stated by `AgeBoundInputReadBack` |
| GlobalParametersForm.AgeBoundInputReadBack | src/components/GlobalParametersForm.tsx:55-85 | the age input writes its key so that it reads back the parsed value; an empty input stores the bound, and 0 in the max input stores 120 |
| GlobalParametersForm.OnTextInput | src/components/GlobalParametersForm.tsx:133-151 | the gender select and the questionnaire input store the typed string, which the lookup then returns |
| ParameterConfigForm.UpdateConfig | src/components/ParameterConfigForm.tsx:15-17 | every field the update carries is overridden, and every other field is kept |
| ParameterConfigForm.UpdateConfigLaws | src/components/ParameterConfigForm.tsx:15-17 | an empty update changes nothing, and applying an update twice is applying it once |
| ParameterConfigForm.TrimAll | src/components/ParameterConfigForm.tsx:105 | each piece is replaced by its trim, at the same index |
| ParameterConfigForm.DropEmpty | src/components/ParameterConfigForm.tsx:105 | exactly the non-empty pieces are kept, and a list with no empty piece is kept whole; their order is stated by `DropEmptyAppend` |
| ParameterConfigForm.DropEmptyAppend | src/components/ParameterConfigForm.tsx:105 | the empty-piece filter works piece by piece, so kept options keep the order and repetitions of the text |
| ParameterConfigForm.TrimmedPiecesClean | src/components/ParameterConfigForm.tsx:105 | trimmed pieces of a split are comma-free and trimmed |
| ParameterConfigForm.ParseOptions | src/components/ParameterConfigForm.tsx:104-106 | no parsed option is empty, holds a comma or has white space at an end; there are at most commas + 1 of them |
| ParameterConfigForm.OptionsText | src/components/ParameterConfigForm.tsx:103 | the list input shows the `', '`-join of the options, or `''` without options; `ParseJoinRoundTrip` and `OptionsInputStable` read it back |
| ParameterConfigForm.OnOptionsInput | src/components/ParameterConfigForm.tsx:104-106 | the list input replaces the options by the parse of the text and changes no other field |
| ParameterConfigForm.ParseJoinRoundTrip | src/components/ParameterConfigForm.tsx:103-105 | parsing the `', '`-join of clean options gives back the same options |
| ParameterConfigForm.TrimAllSpacePrefixed | src/components/ParameterConfigForm.tsx:103-105 | trimming the pieces of a join of clean options gives the options back |
| ParameterConfigForm.OptionsInputStable | src/components/ParameterConfigForm.tsx:103-106 | re-parsing what the input shows after an edit gives the options the edit stored |
| ParameterConfigForm.OnBooleanSelect | src/components/ParameterConfigForm.tsx:121 | the boolean select stores `true` exactly when the choice is `'true'`, and changes nothing else |
| ParameterConfigForm.BooleanDisplay | src/components/ParameterConfigForm.tsx:120 | the select shows `true` when no value is set and never shows an empty choice |
| ParameterConfigForm.BooleanSelectShowsChoice | src/components/ParameterConfigForm.tsx:120-121 | after a choice, the select shows that choice |
| ParameterConfigForm.OnKindSelect | src/components/ParameterConfigForm.tsx:143 | changing the kind keeps min, max, value, options, required and unit |
| ParameterConfigForm.OnRequiredToggle | src/components/ParameterConfigForm.tsx:161 | the checkbox stores its checked state in `required` and nothing else |
| ParameterConfigForm.RequiredDisplay | src/components/ParameterConfigForm.tsx:160 | the checkbox is checked exactly when `required` is true |
| ParameterConfigForm.OnValueInput | src/components/ParameterConfigForm.tsx:72 | the exact/contains input stores the typed string as the value and nothing else |
| ParameterConfigForm.OnUnitInput | src/components/ParameterConfigForm.tsx:55 | the unit input stores the typed string and nothing else |
| ParameterConfigForm.DateIsNeitherOfferedNorRendered | src/components/ParameterConfigForm.tsx:130-150 | `date` is the one kind the picker does not offer and the one kind without inputs of its own |
| AlgorithmBuilderLogic.DefaultGlobalValues | src/components/AlgorithmBuilder.tsx:36-38 | one `{name, defaultValue}` pair per table entry, in table order |
| AlgorithmBuilderLogic.DefaultValuesReadLikeUnset | src/components/AlgorithmBuilder.tsx:37 | the initial global values read the same as an empty list |
| AlgorithmBuilderLogic.LoadedId | src/components/AlgorithmBuilder.tsx:43 | only a string id is taken over when loading, unchanged |
| AlgorithmBuilderLogic.LoadedParameters | src/components/AlgorithmBuilder.tsx:46-48 | the loaded parameters are the algorithm's when it has any, and never empty |
| AlgorithmBuilderLogic.LoadedGlobals | src/components/AlgorithmBuilder.tsx:50-52 | the loaded global values are the algorithm's when it has any, and never empty |
| AlgorithmBuilderLogic.PruneSubs | src/components/AlgorithmBuilder.tsx:108 | exactly the sub-parameters with a non-blank param are kept; their order is stated by `PruneSubsAppend` |
| AlgorithmBuilderLogic.PruneSubsAppend | src/components/AlgorithmBuilder.tsx:108 | sub-parameter pruning works entry by entry, so kept entries keep their order and repetitions |
| AlgorithmBuilderLogic.PruneParameter | src/components/AlgorithmBuilder.tsx:106-109 | name and label are kept, and the sub-parameters are their pruned list, so exactly the non-blank ones remain in their order (`PruneSubsAppend`) |
| AlgorithmBuilderLogic.Prune | src/components/AlgorithmBuilder.tsx:106-109 | no more parameters than before, each with a non-blank name and only non-blank sub-parameters |
| AlgorithmBuilderLogic.PruneMembership | src/components/AlgorithmBuilder.tsx:106-109 | the kept parameters are exactly the pruned forms of the parameters with a non-blank name |
| AlgorithmBuilderLogic.PruneAppend | src/components/AlgorithmBuilder.tsx:106 | pruning works entry by entry, so the original order is kept |
| AlgorithmBuilderLogic.PruneSubsOfClean | src/components/AlgorithmBuilder.tsx:108 | sub-parameters that are all non-blank are kept as they are |
| AlgorithmBuilderLogic.PruneOfClean | src/components/AlgorithmBuilder.tsx:106-109 | a list without blanks at either level is kept as it is |
| AlgorithmBuilderLogic.PruneIdempotent | src/components/AlgorithmBuilder.tsx:106-109 | pruning twice is pruning once |
| AlgorithmBuilderLogic.BlankParameterPruned | src/components/AlgorithmBuilder.tsx:62-71 | the blank parameter that add and clear insert is dropped on save |
| AlgorithmBuilderLogic.CarriedId | src/components/AlgorithmBuilder.tsx:122-123 | the saved record carries an id exactly when the current id is a non-empty string, and then that string |
| AlgorithmBuilderLogic.LoadThenSaveId | src/components/AlgorithmBuilder.tsx:43 | loading then saving keeps a non-empty string id and drops every other id |
| AlgorithmBuilderLogic.SaveRecord | src/components/AlgorithmBuilder.tsx:99-125 | a blank name is refused; otherwise the record has the fields, the pruned parameters, the id rule and the edited created date |
| AlgorithmBuilderLogic.SavedParametersAreClean | src/components/AlgorithmBuilder.tsx:106-114 | a saved record has only non-blank parameters and sub-parameters |
| AlgorithmBuilderLogic.GlobalDefinitions | src/components/AlgorithmBuilder.tsx:59 | exactly the global definitions are kept |
| AlgorithmBuilderLogic.SpecificDefinitions | src/components/AlgorithmBuilder.tsx:60 | exactly the non-global definitions are kept |
| AlgorithmBuilderLogic.DefinitionsPartition | src/components/AlgorithmBuilder.tsx:59-60 | the two filters split the definitions: the multisets add up to the list |
| AlgorithmBuilderLogic.FiltersOfGlobalsFirst | src/components/AlgorithmBuilder.tsx:59-60 | with the globals first, the filters are the two slices |
| AlgorithmBuilderLogic.DefinitionTableSplit | src/components/AlgorithmBuilder.tsx:59-60 | the globals are the first two definitions, the select offers the other seven, and `interparameter` is one of those seven |
| AlgorithmBuilderLogic.OtherNames | src/components/AlgorithmBuilder.tsx:308-310 | every other parameter's non-empty, different name is offered, and no empty or current name is |
| AlgorithmBuilderLogic.OtherNamesAreNames | src/components/AlgorithmBuilder.tsx:308-310 | every offered name is the name of some parameter |
| AlgorithmBuilderLogic.OtherNamesAppend | src/components/AlgorithmBuilder.tsx:308-310 | the offered names follow the parameter list in order, one parameter at a time |
| AlgorithmBuilderLogic.FirstOtherName | src/components/AlgorithmBuilder.tsx:313 | `availableParams[0] \|\| ''`; stated by `FirstOtherNameEmpty` and `FirstOtherNameIndex` |
| AlgorithmBuilderLogic.FirstOtherNameEmpty | src/components/AlgorithmBuilder.tsx:313 | the linked name is `''` exactly when no other parameter has a non-empty, different name |
| AlgorithmBuilderLogic.FirstOtherNameIndex | src/components/AlgorithmBuilder.tsx:308-313 | a non-empty linked name is the first such name in list order |
| AlgorithmBuilderLogic.SelectedSub | src/components/AlgorithmBuilder.tsx:301-323 | the chosen name is stored; `interparameter` resets the config, and any other choice keeps it |
| AlgorithmBuilderLogic.InterparameterConfig | src/components/AlgorithmBuilder.tsx:307-316 | the config stored for `interparameter`: exact, not required, linked to the first other name; stated by `SelectedSub` |
| AlgorithmBuilder.Snapshot | src/components/AlgorithmBuilder.tsx:29-31 | the values shown are, entry by entry, the values the parameter objects hold |
| AlgorithmBuilder.SnapshotWithout | src/components/AlgorithmBuilder.tsx:73-75 | dropping an object then reading the values is reading then dropping |
| AlgorithmBuilder.SeparateWithout | src/components/AlgorithmBuilder.tsx:73-75 | dropping an entry keeps the remaining `subParameters` arrays pairwise distinct |
| AlgorithmBuilder.NewBlankNode | src/components/AlgorithmBuilder.tsx:65-69 | a fresh object with its own fresh array, holding the blank parameter |
| AlgorithmBuilder.Materialize | src/data/parameterDefinitions.ts:123-358 | fresh, separate objects holding the given parameters |
| AlgorithmBuilder.MaterializeAll | src/data/parameterDefinitions.ts:123-358 | one list of fresh objects per template, in template order, each holding its template's parameters with separate arrays |
| AlgorithmBuilder.TemplateStore.constructor | src/data/parameterDefinitions.ts:123-358 | the template objects hold the tables' values, with separate arrays |
| AlgorithmBuilder.TemplateStore.Lookup | src/components/AlgorithmBuilder.tsx:80-82 | a key has objects exactly when the table has a template for it |
| AlgorithmBuilder.Builder.constructor | src/components/AlgorithmBuilder.tsx:26-38 | the initial slots: no id, empty texts, one fresh blank parameter, `validate`, no template, default global values |
| AlgorithmBuilder.Builder.Clear | src/components/AlgorithmBuilder.tsx:87-97 | every slot is reset to its initial value |
| AlgorithmBuilder.Builder.Load | src/components/AlgorithmBuilder.tsx:41-57 | with an algorithm, its fields and its very objects become the state and the template is kept; without one, the builder is cleared |
| AlgorithmBuilder.Builder.AddParameter | src/components/AlgorithmBuilder.tsx:62-71 | the objects stay, one fresh blank one is appended, and no other slot changes |
| AlgorithmBuilder.Builder.RemoveParameter | src/components/AlgorithmBuilder.tsx:73-75 | only the object at the index goes, both as objects and as shown values; an out-of-range index changes nothing |
| AlgorithmBuilder.Builder.SelectTemplate | src/components/AlgorithmBuilder.tsx:77-85 | the choice is stored; a known key installs that template's own objects, and an empty or unknown key keeps the parameters |
| AlgorithmBuilder.Builder.EditName | src/components/AlgorithmBuilder.tsx:244-251 | a fresh object with the new name and the old array replaces the entry; the old object is untouched |
| AlgorithmBuilder.Builder.EditLabel | src/components/AlgorithmBuilder.tsx:263-270 | the same for the label |
| AlgorithmBuilder.Builder.SubSelect | src/components/AlgorithmBuilder.tsx:299-325 | the shared array's entry is overwritten in place by `SelectedSub`, computed from the values before the change; only that parameter's value changes |
| AlgorithmBuilder.Builder.SubConfigChange | src/components/AlgorithmBuilder.tsx:344-351 | the shared array's entry gets the new config in place; only that parameter's value changes |
| AlgorithmBuilder.Builder.SubRemove | src/components/AlgorithmBuilder.tsx:362-368 | the shared object gets a fresh array without the entry; the old array is untouched |
| AlgorithmBuilder.Builder.SubAdd | src/components/AlgorithmBuilder.tsx:379-386 | a blank sub-parameter is pushed onto the shared array |
| AlgorithmBuilder.Builder.EditGlobal | src/components/AlgorithmBuilder.tsx:218-221 | the panel's upsert replaces the global values, and the written value reads back |
| AlgorithmBuilder.Builder.Save | src/components/AlgorithmBuilder.tsx:99-125 | the record or refusal is `SaveRecord` of the shown state, with the pruned parameters |
| AlgorithmBuilder.PickTemplate | src/components/AlgorithmBuilder.tsx:192-195 | picking a known template on a new builder installs that template's own objects |
| AlgorithmBuilder.LoadAndPick | src/components/AlgorithmBuilder.tsx:77-85 | over freshly loaded templates, the picked builder shows the template's values through the template's own objects |
| AlgorithmBuilder.TemplateEditPersists | src/components/AlgorithmBuilder.tsx:379-386 | after adding a sub-parameter to a picked template, clearing and picking it again shows the added entry |
| AlgorithmBuilder.BloodEditPersists | src/components/AlgorithmBuilder.tsx:379-386 | the same for the blood template: its first parameter's list grows by the blank entry |
| WorkflowForm.NonEmpty | src/components/WorkflowForm.tsx:37 | exactly the picked selections are kept |
| WorkflowForm.ParseIds | src/components/WorkflowForm.tsx:38 | each selection is parsed, at the same index |
| WorkflowForm.AlgorithmOrder | src/components/WorkflowForm.tsx:36-38 | the submitted order: the picked selections parsed, in order; stated by `AlgorithmOrderAppend`, `AlgorithmOrderEmpty` and `PickedIdsRoundTrip` |
| WorkflowForm.NonEmptyAppend | src/components/WorkflowForm.tsx:37 | the filter works entry by entry |
| WorkflowForm.ParseIdsAppend | src/components/WorkflowForm.tsx:38 | the parse works entry by entry |
| WorkflowForm.AlgorithmOrderAppend | src/components/WorkflowForm.tsx:36-38 | the order is built selection by selection: an unpicked one adds nothing and a picked one adds its parse |
| WorkflowForm.AlgorithmOrderEmpty | src/components/WorkflowForm.tsx:36-40 | the order is empty exactly when nothing is picked |
| WorkflowForm.IdTexts | src/components/WorkflowForm.tsx:79 | the option values are the rendered ids, at the same index |
| WorkflowForm.PickedIdOrder | src/components/WorkflowForm.tsx:36-38 | a single picked id submits itself |
| WorkflowForm.PickedIdsRoundTrip | src/components/WorkflowForm.tsx:36-38 | picking algorithms with numeric ids submits exactly those ids, in order |
| WorkflowForm.SubmitWorkflow | src/components/WorkflowForm.tsx:29-46 | a blank name is refused first, then an empty order; otherwise the untrimmed name and a non-empty order are submitted |
| WorkflowForm.OfferedRemoveKeepsOne | src/components/WorkflowForm.tsx:85 | removing through the shown button never leaves the form without a selection |
| WorkflowForm.Form.constructor | src/components/WorkflowForm.tsx:12-13 | the form starts with an empty name and one unpicked selection |
| WorkflowForm.Form.AddSelect | src/components/WorkflowForm.tsx:15-17 | one unpicked selection is appended |
| WorkflowForm.Form.RemoveSelect | src/components/WorkflowForm.tsx:19-21 | only the selection at the index goes |
| WorkflowForm.Form.UpdateSelect | src/components/WorkflowForm.tsx:23-27 | only the selection at the index changes |
| WorkflowForm.Form.Submit | src/components/WorkflowForm.tsx:29-46 | the outcome is `SubmitWorkflow` of the form's state |
| WorkflowForm.FreshFormNeedsAlgorithm | src/components/WorkflowForm.tsx:40-43 | a fresh form with a name refuses to submit for want of an algorithm |
| WebScraper.ValidMappings | src/components/WebScraper.tsx:33 | exactly the mappings with a non-empty param and selector are kept |
| WebScraper.ValidMappingsAppend | src/components/WebScraper.tsx:33 | the filter works entry by entry, so list order is kept |
| WebScraper.ConcatMapAppend | src/components/WebScraper.tsx:43-50 | the blocks of two lists end to end are the two texts end to end |
| WebScraper.ConcatMapStep | src/components/WebScraper.tsx:43-50 | one more mapping appends its block |
| WebScraper.Blocks | src/components/WebScraper.tsx:43-50 | one `# Extract` block per mapping, in order; stated by `EmittedBlocks` and `AppendBlocks` |
| WebScraper.ScraperCode | src/components/WebScraper.tsx:35-56 | header, the valid mappings' blocks, footer; stated by `ScraperCodeShape`, `EmittedBlocks` and `BuildScraperCode` |
| WebScraper.ScraperCodeShape | src/components/WebScraper.tsx:35-56 | the script opens with the import and the `def` line embedding the URL, closes with the usage footer, and without valid mappings is header then footer |
| WebScraper.EmittedBlocks | src/components/WebScraper.tsx:33-50 | a further mapping adds its `# Extract` block when valid and nothing otherwise |
| WebScraper.BlockContents | src/components/WebScraper.tsx:44 | each block opens with the `# Extract` comment naming its parameter |
| WebScraper.AppendBlocks | src/components/WebScraper.tsx:43-50 | the loop appends the blocks of the mappings, in order |
| WebScraper.BuildScraperCode | src/components/WebScraper.tsx:33-56 | the text built step by step is header, the valid mappings' blocks, footer |
| WebScraper.SetField | src/components/WebScraper.tsx:23 | only the named field of the mapping changes |
| WebScraper.Scraper.constructor | src/components/WebScraper.tsx:7-9 | no URL, one empty mapping and the placeholder text |
| WebScraper.Scraper.AddMapping | src/components/WebScraper.tsx:13-15 | one empty mapping is appended |
| WebScraper.Scraper.RemoveMapping | src/components/WebScraper.tsx:17-19 | only the mapping at the index goes |
| WebScraper.Scraper.UpdateMapping | src/components/WebScraper.tsx:21-25 | only the field of the mapping at the index changes |
| WebScraper.Scraper.Generate | src/components/WebScraper.tsx:27-59 | a blank URL leaves the text as it was; any other URL replaces it with the script |
| AlgorithmLibrary.SubParameterCount | src/components/AlgorithmLibrary.tsx:155 | the count is at least each parameter's number of sub-parameters; the sum itself is stated by `SubParameterCountAppend` and `SubParameterCountCons` |
| AlgorithmLibrary.SubParameterCountAppend | src/components/AlgorithmLibrary.tsx:155 | the count of two lists end to end is the sum of their counts |
| AlgorithmLibrary.SubParameterCountCons | src/components/AlgorithmLibrary.tsx:155 | one parameter counts its own sub-parameters, and a longer list adds the counts of its parameters |
| AlgorithmLibrary.SubParameterCountZero | src/components/AlgorithmLibrary.tsx:155 | the count is 0 exactly when no parameter has a sub-parameter |
| AlgorithmLibrary.Duplicate | src/components/AlgorithmLibrary.tsx:99-105 | the copy has no id, the name followed by ` (Copy)` and both dates now; every other field is the original's |
| AlgorithmLibrary.DuplicateKeepsCount | src/components/AlgorithmLibrary.tsx:99-105 | a duplicate keeps the sub-parameter count |
| AlgorithmLibrary.NewAlgorithm | src/components/AlgorithmLibrary.tsx:28-37 | id 0, the submitted name and description, no parameters or global values, `validate`, both dates now |
| AlgorithmLibrary.NewAlgorithmIgnoresTemplate | src/components/AlgorithmLibrary.tsx:28-37 | the chosen template does not affect the record, whose count is 0 |
| AlgorithmLibrary.NewWorkflow | src/components/AlgorithmLibrary.tsx:50-55 | id 0, the submitted name and order, created now |
| AlgorithmLibrary.FindById | src/components/AlgorithmLibrary.tsx:181 | the first algorithm whose id is strictly equal, or none exactly when there is none |
| AlgorithmLibrary.Segment | src/components/AlgorithmLibrary.tsx:181-182 | the first match's name, or `(Deleted)` without one |
| AlgorithmLibrary.Segments | src/components/AlgorithmLibrary.tsx:179-183 | one segment per order entry, in order |
| AlgorithmLibrary.WorkflowChain | src/components/AlgorithmLibrary.tsx:179-184 | the card's chain joins the segments with the separator; stated by `WorkflowChainShape` |
| AlgorithmLibrary.WorkflowChainShape | src/components/AlgorithmLibrary.tsx:179-184 | the chain is empty, one segment, or the first segment, the separator literal and the rest |
| AlgorithmLibrary.SegmentMeaning | src/components/AlgorithmLibrary.tsx:181-182 | `(Deleted)` without a match; otherwise the name of an algorithm with that id |
| AlgorithmLibrary.UnmatchableIdsReadDeleted | src/components/AlgorithmLibrary.tsx:181 | a NaN entry, or any entry when no algorithm has a numeric id, reads `(Deleted)` |
| AlgorithmLibrary.SegmentAfterOtherDeleted | src/components/AlgorithmLibrary.tsx:181-182 | deleting an algorithm with another id leaves a segment unchanged |
| AlgorithmForm.SubmitAlgorithm | src/components/AlgorithmForm.tsx:14-21 | a blank name is refused; otherwise name (untrimmed), template and description are submitted unchanged |
| AlgorithmForm.TemplateChoicesListed | src/components/AlgorithmForm.tsx:48-53 | the choices are `blank` and then blood, urine, biochemistry, hematology |
| AlgorithmForm.TemplateChoicesNameTemplates | src/components/AlgorithmForm.tsx:48-53 | every choice but `blank` names a template, and `blank` names none |
| AlgorithmForm.Form.constructor | src/components/AlgorithmForm.tsx:10-12 | an empty name and description, and the `blank` template |
| AlgorithmForm.Form.Submit | src/components/AlgorithmForm.tsx:14-21 | the outcome is `SubmitAlgorithm` of the form's state |
| DuplicateAlgorithmModal.PrefillName | src/components/DuplicateAlgorithmModal.tsx:23 | the pre-filled name is the one the library's duplicate would get |
| DuplicateAlgorithmModal.SubmitEvents | src/components/DuplicateAlgorithmModal.tsx:27-35 | nothing for a blank name; otherwise `onDuplicate` with the trimmed name, then `onClose` |
| DuplicateAlgorithmModal.DuplicatedNameIsClean | src/components/DuplicateAlgorithmModal.tsx:32 | the name handed on is non-empty and its own trim |
| DuplicateAlgorithmModal.PrefillSubmits | src/components/DuplicateAlgorithmModal.tsx:21-32 | the pre-filled name is never blank, so submitting it right away duplicates |
| DuplicateAlgorithmModal.Modal.constructor | src/components/DuplicateAlgorithmModal.tsx:19 | the field starts empty |
| DuplicateAlgorithmModal.Modal.Open | src/components/DuplicateAlgorithmModal.tsx:21-25 | only an open dialog with an algorithm pre-fills the name |
| DuplicateAlgorithmModal.Modal.Submit | src/components/DuplicateAlgorithmModal.tsx:27-35 | a blank name emits nothing and keeps the field; otherwise the events are emitted and the field is emptied |
| DuplicateAlgorithmModal.Modal.Close | src/components/DuplicateAlgorithmModal.tsx:37-40 | `onClose` is emitted and the field is emptied |

## Left out

- `src/components/ExecutionPanel.tsx`: its outcomes come from `Math.random()`, it waits on `setTimeout`, and its progress is floating point. It has no logic to prove.
- `src/services/database.ts`, `src/services/mongoDatabase.ts` and `server.js`: REST clients and a server schema. The builder's save hands its record to them, and clearing after the server's reply is `Builder.Clear`. The services' PUT-or-POST choice (`database.ts:71`) accepts fewer ids than the builder's id rule (`AlgorithmBuilder.tsx:122`), which carries any non-empty string id. That choice is not part of this model.
- `src/App.tsx`, `Header.tsx` and `FloatingActions.tsx`, and the JSX of every component, including the workflow card after `AlgorithmLibrary.tsx:186`. `alert`, `confirm` and `console` are left out, and `new Date()` is a `now` parameter.
- The library's async handlers (`AlgorithmLibrary.tsx:39-46`, `:57-63`, `:66-115`) are left out. Only the records they build are modelled.
- The plain setters (`setName`, `setDescription`, `setAction`, `setTargetUrl`, `setTemplate`) are not written as methods. Each assigns one field and nothing else.
- ParameterConfigForm min and max inputs (`ParameterConfigForm.tsx:31`, `:43`): `parseFloat(...) || 0` and `|| 100` are floating point and are left out. Template bounds are `real` literals.
- GlobalParametersForm range branch (`GlobalParametersForm.tsx:88-130`): it applies to range entries other than the age, and the table has none.
- GlobalParametersForm.GetValue: the panel's values are `any`. The model's values are strings, integers and booleans, and numbers are integers. Non-integer numbers and JavaScript `-0` are not modelled.
- GlobalParametersForm: the panel is written as functions from the old list to the new one. The in-place `push` onto the freshly mapped copy is unobservable.
- Strings.ParseInt: it reads ASCII digits in radix 10, or radix 16 after `0x`. White space is the ECMAScript set listed in `Strings.IsSpace`, and there is no other Unicode handling.
- Strings.IntToString: it renders integers in decimal. JavaScript's exponent form for magnitudes of 1e21 and more is not modelled.
- AlgorithmLibrary.SubParameterCount: a missing `parameters` or `subParameters` array (the `?.` and `|| 0` guards) cannot occur in the model, because the types make both arrays present.
- AlgorithmLibrary.FindById: an id is a number, a string or absent. The numeric id of a selection parsed as NaN is None, and a string id never equals a number.
- The unused `paramDef` lookup at `AlgorithmBuilder.tsx:303` is not modelled, because its result is never read.
- `Object.keys` order and the prototype lookups behind `algorithmTemplates[key]`, such as a key like `toString`: templates are searched by their four own keys only.
- Index-based handlers bound to a rendered row (`Builder.EditName`, `Builder.EditLabel`, `Builder.SubSelect`, `Builder.SubConfigChange`, `Builder.SubRemove`, `Builder.SubAdd`, `WorkflowForm.Form.UpdateSelect`, `WebScraper.Scraper.UpdateMapping`) require the index to be in range. The page only calls them for rows it shows. JavaScript's holes for an index past the end are not modelled.
- AlgorithmBuilder.Builder.SelectTemplate and the sub-parameter handlers assume the template objects and the state's objects keep separate `subParameters` arrays, which every handler preserves. Two parameters that share one array, which the page cannot produce, are not modelled.
