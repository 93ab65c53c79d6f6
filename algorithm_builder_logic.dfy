/** The value-level rules of the algorithm builder: the blank parameter,
    save-time pruning, the saved record and its id, the default global
    values and the interparameter choice. */
module AlgorithmBuilderLogic {
  import opened Wrappers
  import opened Types
  import opened Strings
  import opened GlobalParametersData
  import opened ParameterDefinitionsData
  import opened GlobalParametersForm

  /** The sub-parameter every fresh parameter starts with. */
  const BlankSubParameter := SubParameter("", Some(ParameterConfig(Exact, None, None, None, None, Some(false), None)))

  /** The parameter added by "Add Analysis Parameter" and left by a reset. */
  const BlankParameter := Parameter("", "", [BlankSubParameter])

  // ---------------------------------------------------------------------
  // Defaults and loading

  /** `globalParameters.map(p => ({name: p.name, value: p.defaultValue}))`. */
  function DefaultGlobalValues(gs: seq<GlobalParameter>): (r: seq<GlobalParameterValue>)
    ensures |r| == |gs|
    ensures forall i :: 0 <= i < |gs| ==> r[i] == GlobalParameterValue(gs[i].name, gs[i].defaultValue)
  {
    if gs == [] then [] else [GlobalParameterValue(gs[0].name, gs[0].defaultValue)] + DefaultGlobalValues(gs[1..])
  }

  /** Seeding the panel with the defaults reads exactly like seeding it with
      nothing: every name reads the same through `getValue`. */
  lemma DefaultValuesReadLikeUnset(name: string)
    ensures GetValue(DefaultGlobalValues(GlobalParameters), name) == GetValue([], name)
  {
    var d := DefaultGlobalValues(GlobalParameters);
    GetValueFallback([], name);
    if name == "patient_age" {
      GetValueFirstMatch(d, name, 0);
    } else if name == "patient_gender" {
      GetValueFirstMatch(d, name, 1);
    } else if name == "questionnaire" {
      GetValueFirstMatch(d, name, 2);
    } else {
      GetValueFallback(d, name);
    }
  }

  /** `typeof editingAlgorithm.id === 'string' ? editingAlgorithm.id : null`. */
  function LoadedId(id: Option<AlgorithmId>): (r: Option<string>)
    ensures r.Some? <==> id.Some? && id.value.StrId?
    ensures r.Some? ==> id.value == StrId(r.value)
  {
    if id.Some? && id.value.StrId? then Some(id.value.s) else None
  }

  /** The parameters shown when an algorithm is loaded: its own, or one
      blank parameter when it has none. */
  function LoadedParameters(alg: Algorithm): (r: seq<Parameter>)
    ensures |r| >= 1
    ensures alg.parameters != [] ==> r == alg.parameters
  {
    if |alg.parameters| > 0 then alg.parameters else [BlankParameter]
  }

  /** The global values shown when an algorithm is loaded: its own, or the
      defaults when it has none. */
  function LoadedGlobals(alg: Algorithm): (r: seq<GlobalParameterValue>)
    ensures |r| >= 1
    ensures alg.globalParameters != [] ==> r == alg.globalParameters
  {
    if |alg.globalParameters| > 0 then alg.globalParameters else DefaultGlobalValues(GlobalParameters)
  }

  // ---------------------------------------------------------------------
  // Pruning on save

  /** `subs.filter(sp => sp.param.trim() !== '')`. */
  function PruneSubs(subs: seq<SubParameter>): (r: seq<SubParameter>)
    ensures |r| <= |subs|
    ensures forall x :: x in r <==> x in subs && !IsBlank(x.param)
  {
    if subs == [] then []
    else (if IsBlank(subs[0].param) then [] else [subs[0]]) + PruneSubs(subs[1..])
  }

  /** Pruning the sub-parameters works entry by entry: a single entry is
      kept exactly when its param is not blank, and the pruned lists of two
      lists end to end are the two pruned lists end to end, so the kept
      entries keep their order and their repetitions. */
  lemma {:induction false} PruneSubsAppend(a: seq<SubParameter>, b: seq<SubParameter>)
    ensures PruneSubs(a + b) == PruneSubs(a) + PruneSubs(b)
    ensures |a| == 1 ==> PruneSubs(a) == (if IsBlank(a[0].param) then [] else a)
  {
    if a == [] {
      assert a + b == b;
    } else {
      assert (a + b)[1..] == a[1..] + b;
      PruneSubsAppend(a[1..], b);
    }
  }

  /** `{...p, subParameters: PruneSubs(p.subParameters)}`. */
  function PruneParameter(p: Parameter): (r: Parameter)
    ensures r.name == p.name && r.labelText == p.labelText
    ensures forall x :: x in r.subParameters <==> x in p.subParameters && !IsBlank(x.param)
    ensures r.subParameters == PruneSubs(p.subParameters)
  {
    p.(subParameters := PruneSubs(p.subParameters))
  }

  /** `parameters.filter(p => p.name.trim() !== '').map(PruneParameter)`. */
  function Prune(ps: seq<Parameter>): (r: seq<Parameter>)
    ensures |r| <= |ps|
    ensures forall q :: q in r ==> !IsBlank(q.name) && forall s :: s in q.subParameters ==> !IsBlank(s.param)
  {
    if ps == [] then []
    else (if IsBlank(ps[0].name) then [] else [PruneParameter(ps[0])]) + Prune(ps[1..])
  }

  /** A saved parameter is a pruned copy of a non-blank edited one, and
      every non-blank edited parameter is saved. */
  lemma {:induction false} PruneMembership(ps: seq<Parameter>)
    ensures forall q :: q in Prune(ps) ==> exists i :: 0 <= i < |ps| && !IsBlank(ps[i].name) && q == PruneParameter(ps[i])
    ensures forall i :: 0 <= i < |ps| && !IsBlank(ps[i].name) ==> PruneParameter(ps[i]) in Prune(ps)
  {
    if ps != [] {
      PruneMembership(ps[1..]);
      forall q | q in Prune(ps)
        ensures exists i :: 0 <= i < |ps| && !IsBlank(ps[i].name) && q == PruneParameter(ps[i])
      {
        if !IsBlank(ps[0].name) && q == PruneParameter(ps[0]) {
        } else {
          assert q in Prune(ps[1..]);
          var i :| 0 <= i < |ps[1..]| && !IsBlank(ps[1..][i].name) && q == PruneParameter(ps[1..][i]);
          assert ps[i + 1] == ps[1..][i];
        }
      }
      forall i | 0 <= i < |ps| && !IsBlank(ps[i].name) ensures PruneParameter(ps[i]) in Prune(ps) {
        if i > 0 {
          assert ps[1..][i - 1] == ps[i];
        }
      }
    }
  }

  /** Pruning works entry by entry, so it keeps the order of the list. */
  lemma {:induction false} PruneAppend(a: seq<Parameter>, b: seq<Parameter>)
    ensures Prune(a + b) == Prune(a) + Prune(b)
  {
    if a == [] {
      assert a + b == b;
    } else {
      assert (a + b)[1..] == a[1..] + b;
      PruneAppend(a[1..], b);
    }
  }

  /** Sub-parameters that all have a param survive pruning as they are. */
  lemma {:induction false} PruneSubsOfClean(subs: seq<SubParameter>)
    requires forall i :: 0 <= i < |subs| ==> !IsBlank(subs[i].param)
    ensures PruneSubs(subs) == subs
  {
    if subs != [] {
      PruneSubsOfClean(subs[1..]);
    }
  }

  /** Parameters that all have a name, with sub-parameters that all have a
      param, survive pruning as they are. */
  lemma {:induction false} PruneOfClean(ps: seq<Parameter>)
    requires forall i :: 0 <= i < |ps| ==> !IsBlank(ps[i].name)
    requires forall i, j :: 0 <= i < |ps| && 0 <= j < |ps[i].subParameters| ==> !IsBlank(ps[i].subParameters[j].param)
    ensures Prune(ps) == ps
  {
    if ps != [] {
      PruneSubsOfClean(ps[0].subParameters);
      assert PruneParameter(ps[0]) == ps[0];
      PruneOfClean(ps[1..]);
    }
  }

  /** Saving an algorithm that was itself the result of a save prunes
      nothing more. */
  lemma PruneIdempotent(ps: seq<Parameter>)
    ensures Prune(Prune(ps)) == Prune(ps)
  {
    var r := Prune(ps);
    assert forall i :: 0 <= i < |r| ==> r[i] in r;
    assert forall i, j :: 0 <= i < |r| && 0 <= j < |r[i].subParameters| ==> r[i].subParameters[j] in r[i].subParameters;
    PruneOfClean(r);
  }

  /** The builder's initial parameter is pruned away, so an untouched builder
      saves no parameters. */
  lemma BlankParameterPruned()
    ensures Prune([BlankParameter]) == []
    ensures PruneSubs(BlankParameter.subParameters) == []
  {
  }

  // ---------------------------------------------------------------------
  // The saved record

  datatype SaveError = BlankName

  /** The id rule of `saveAlgorithm`: `currentAlgorithmId && ... && typeof
      currentAlgorithmId === 'string'` holds exactly for a non-empty string. */
  function CarriedId(currentId: Option<string>): (r: Option<AlgorithmId>)
    ensures r.Some? <==> currentId.Some? && currentId.value != ""
    ensures r.Some? ==> r.value == StrId(currentId.value)
  {
    if currentId.Some? && currentId.value != "" then Some(StrId(currentId.value)) else None
  }

  /** Loading then saving keeps a non-empty string id; a numeric id, an empty
      string id or no id at all makes the save create a new algorithm. */
  lemma LoadThenSaveId(id: Option<AlgorithmId>)
    ensures CarriedId(LoadedId(id)).Some? <==> id.Some? && id.value.StrId? && id.value.s != ""
    ensures CarriedId(LoadedId(id)).Some? ==> CarriedId(LoadedId(id)) == id
  {
  }

  /** `saveAlgorithm`'s guard and the record it sends: a blank name saves
      nothing; otherwise the pruned parameters, and the id and creation date
      of the edited algorithm when it is carried. */
  function SaveRecord(name: string, description: string, parameters: seq<Parameter>, action: Action,
                      globals: seq<GlobalParameterValue>, currentId: Option<string>,
                      editingCreated: Option<Timestamp>, now: Timestamp): (r: Result<Algorithm, SaveError>)
    ensures r.Err? <==> IsBlank(name)
    ensures r.Ok? ==> r.value.name == name && r.value.description == description
    ensures r.Ok? ==> r.value.parameters == Prune(parameters)
    ensures r.Ok? ==> r.value.action == action && r.value.globalParameters == globals
    ensures r.Ok? ==> r.value.id == CarriedId(currentId) && r.value.lastModified == now
    ensures r.Ok? ==> r.value.created == if CarriedId(currentId).Some? then editingCreated.GetOr(now) else now
  {
    if IsBlank(name) then Err(BlankName)
    else
      var id := CarriedId(currentId);
      var created := if id.Some? then editingCreated.GetOr(now) else now;
      Ok(Algorithm(id, name, description, Prune(parameters), action, globals, created, now))
  }

  /** Every saved parameter has a non-blank name and only non-blank
      sub-parameters, and saving the saved parameters again changes nothing. */
  lemma SavedParametersAreClean(name: string, description: string, parameters: seq<Parameter>, action: Action,
                                globals: seq<GlobalParameterValue>, currentId: Option<string>,
                                editingCreated: Option<Timestamp>, now: Timestamp)
    requires !IsBlank(name)
    ensures var r := SaveRecord(name, description, parameters, action, globals, currentId, editingCreated, now);
      && r.Ok?
      && (forall q :: q in r.value.parameters ==> !IsBlank(q.name))
      && Prune(r.value.parameters) == r.value.parameters
  {
    PruneIdempotent(parameters);
  }

  // ---------------------------------------------------------------------
  // The definition lists and the interparameter choice

  /** `parameterDefinitions.filter(p => p.isGlobal)`. */
  function GlobalDefinitions(ds: seq<ParameterDefinition>): (r: seq<ParameterDefinition>)
    ensures forall d :: d in r <==> d in ds && d.isGlobal
  {
    if ds == [] then []
    else (if ds[0].isGlobal then [ds[0]] else []) + GlobalDefinitions(ds[1..])
  }

  /** `parameterDefinitions.filter(p => !p.isGlobal)`: the entries the
      sub-parameter select offers. */
  function SpecificDefinitions(ds: seq<ParameterDefinition>): (r: seq<ParameterDefinition>)
    ensures forall d :: d in r <==> d in ds && !d.isGlobal
  {
    if ds == [] then []
    else (if ds[0].isGlobal then [] else [ds[0]]) + SpecificDefinitions(ds[1..])
  }

  /** The two filters split the list: together they hold every entry
      exactly as often as the list does. */
  lemma {:induction false} DefinitionsPartition(ds: seq<ParameterDefinition>)
    ensures multiset(GlobalDefinitions(ds)) + multiset(SpecificDefinitions(ds)) == multiset(ds)
    ensures |GlobalDefinitions(ds)| + |SpecificDefinitions(ds)| == |ds|
  {
    if ds != [] {
      DefinitionsPartition(ds[1..]);
      assert ds == [ds[0]] + ds[1..];
    }
  }

  /** When the global entries all come before the others, the two filters
      cut the list at that point. */
  lemma {:induction false} FiltersOfGlobalsFirst(ds: seq<ParameterDefinition>, k: nat)
    requires k <= |ds|
    requires forall i :: 0 <= i < k ==> ds[i].isGlobal
    requires forall i :: k <= i < |ds| ==> !ds[i].isGlobal
    ensures GlobalDefinitions(ds) == ds[..k]
    ensures SpecificDefinitions(ds) == ds[k..]
  {
    if ds != [] {
      FiltersOfGlobalsFirst(ds[1..], if k == 0 then 0 else k - 1);
      if k > 0 {
        assert ds[..k] == [ds[0]] + ds[1..][..k - 1];
      }
    }
  }

  /** In the table, the global list is the two patient fields and the
      select offers the seven others, `interparameter` among them. */
  lemma DefinitionTableSplit()
    ensures GlobalDefinitions(ParameterDefinitions) == ParameterDefinitions[..2]
    ensures SpecificDefinitions(ParameterDefinitions) == ParameterDefinitions[2..]
    ensures |ParameterDefinitions| == 9
    ensures ParameterDefinitions[7].name == "interparameter" && !ParameterDefinitions[7].isGlobal
  {
    FiltersOfGlobalsFirst(ParameterDefinitions, 2);
  }

  /** `parameters.filter(p => p.name && p.name !== current).map(p => p.name)`:
      the names the interparameter choice can link to. */
  function OtherNames(ps: seq<Parameter>, current: string): (r: seq<string>)
    ensures forall x :: x in r ==> x != "" && x != current
    ensures forall i :: 0 <= i < |ps| && ps[i].name != "" && ps[i].name != current ==> ps[i].name in r
  {
    if ps == [] then []
    else (if ps[0].name != "" && ps[0].name != current then [ps[0].name] else []) + OtherNames(ps[1..], current)
  }

  /** Every offered name is the name of some parameter. */
  lemma {:induction false} OtherNamesAreNames(ps: seq<Parameter>, current: string)
    ensures forall x :: x in OtherNames(ps, current) ==> exists i :: 0 <= i < |ps| && ps[i].name == x
  {
    if ps != [] {
      OtherNamesAreNames(ps[1..], current);
      forall x | x in OtherNames(ps, current)
        ensures exists i :: 0 <= i < |ps| && ps[i].name == x
      {
        if x != ps[0].name {
          assert x in OtherNames(ps[1..], current);
          var j :| 0 <= j < |ps[1..]| && ps[1..][j].name == x;
          assert ps[j + 1].name == x;
        }
      }
    }
  }

  /** The offered names follow the parameter list: one parameter offers its
      name exactly when it is neither empty nor the current one, and two
      lists end to end offer their names end to end. */
  lemma {:induction false} OtherNamesAppend(a: seq<Parameter>, b: seq<Parameter>, current: string)
    ensures OtherNames(a + b, current) == OtherNames(a, current) + OtherNames(b, current)
    ensures |a| == 1 ==> OtherNames(a, current) == (if a[0].name != "" && a[0].name != current then [a[0].name] else [])
  {
    if a == [] {
      assert a + b == b;
    } else {
      assert (a + b)[1..] == a[1..] + b;
      OtherNamesAppend(a[1..], b, current);
    }
  }

  /** `availableParams[0] || ''`. */
  function FirstOtherName(ps: seq<Parameter>, current: string): string {
    var others := OtherNames(ps, current);
    if others == [] then "" else others[0]
  }

  /** The linked name is `''` exactly when every parameter name is empty or
      the current one. */
  lemma {:induction false} FirstOtherNameEmpty(ps: seq<Parameter>, current: string)
    ensures FirstOtherName(ps, current) == "" <==> forall i :: 0 <= i < |ps| ==> ps[i].name == "" || ps[i].name == current
  {
    var others := OtherNames(ps, current);
    if others != [] {
      assert others[0] in others;
      var i := FirstOtherNameIndex(ps, current);
      assert ps[i].name != "" && ps[i].name != current;
    }
  }

  /** Otherwise it is the name at the first index whose name is neither
      empty nor the current one. */
  lemma {:induction false} FirstOtherNameIndex(ps: seq<Parameter>, current: string) returns (i: nat)
    requires FirstOtherName(ps, current) != ""
    ensures i < |ps| && ps[i].name == FirstOtherName(ps, current)
    ensures ps[i].name != current
    ensures forall j :: 0 <= j < i ==> ps[j].name == "" || ps[j].name == current
  {
    if ps[0].name != "" && ps[0].name != current {
      i := 0;
    } else {
      assert OtherNames(ps, current) == OtherNames(ps[1..], current);
      var k := FirstOtherNameIndex(ps[1..], current);
      i := k + 1;
      assert forall j :: 1 <= j < i ==> ps[j] == ps[1..][j - 1];
    }
  }

  /** The config stored by choosing `interparameter`. */
  function InterparameterConfig(linked: string): ParameterConfig {
    ParameterConfig(Exact, None, None, Some(VStr(linked)), None, Some(false), None)
  }

  /** The sub-parameter after choosing `value` in its select: the param is the
      choice; `interparameter` replaces the config with an exact, optional
      link to the first other parameter, any other choice keeps the config. */
  function SelectedSub(ps: seq<Parameter>, current: string, sub: SubParameter, value: string): (r: SubParameter)
    ensures r.param == value
    ensures value != "interparameter" ==> r.config == sub.config
    ensures value == "interparameter" ==>
      && r.config.Some? && r.config.value.kind == Exact && r.config.value.required == Some(false)
      && r.config.value.value == Some(VStr(FirstOtherName(ps, current)))
      && r.config.value.min.None? && r.config.value.max.None? && r.config.value.options.None? && r.config.value.unit.None?
  {
    var config := if value == "interparameter" then Some(InterparameterConfig(FirstOtherName(ps, current))) else sub.config;
    sub.(param := value, config := config)
  }
}
