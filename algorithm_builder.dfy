/** The algorithm builder's state and handlers over the JavaScript object
    graph. A `Parameter` object is a `ParamNode`, and its `subParameters`
    array is a `SubList`. The state holds references to them, so the
    handlers that write into `updated[index].subParameters` after only
    copying the outer array also change the object that the previous state,
    a loaded algorithm or a template holds. */
module AlgorithmBuilder {
  import opened Wrappers
  import opened Types
  import opened Strings
  import opened Lists
  import opened GlobalParametersData
  import opened ParameterDefinitionsData
  import opened GlobalParametersForm
  import opened AlgorithmBuilderLogic

  /** A `subParameters` array. */
  class SubList {
    var items: seq<SubParameter>

    constructor(items: seq<SubParameter>)
      ensures this.items == items
    {
      this.items := items;
    }
  }

  /** A `Parameter` object. */
  class ParamNode {
    var name: string
    var labelText: string
    var subs: SubList

    constructor(name: string, labelText: string, subs: SubList)
      ensures this.name == name && this.labelText == labelText && this.subs == subs
    {
      this.name := name;
      this.labelText := labelText;
      this.subs := subs;
    }
  }

  /** The parameter objects of a list. */
  function Nodes(ns: seq<ParamNode>): set<ParamNode> {
    set i | 0 <= i < |ns| :: ns[i]
  }

  /** Their `subParameters` arrays. */
  function SubLists(ns: seq<ParamNode>): set<SubList>
    reads Nodes(ns)
  {
    set i | 0 <= i < |ns| :: ns[i].subs
  }

  /** The value a parameter object currently holds. */
  function ParameterOf(n: ParamNode): Parameter
    reads n, n.subs
  {
    Parameter(n.name, n.labelText, n.subs.items)
  }

  /** The values a list of parameter objects currently holds. */
  function Snapshot(ns: seq<ParamNode>): (r: seq<Parameter>)
    reads Nodes(ns), SubLists(ns)
    ensures |r| == |ns|
    ensures forall i :: 0 <= i < |ns| ==> r[i] == ParameterOf(ns[i])
  {
    if ns == [] then []
    else
      assert Nodes(ns[1..]) <= Nodes(ns) by {
        forall n | n in Nodes(ns[1..]) ensures n in Nodes(ns) {
          var i :| 0 <= i < |ns[1..]| && ns[1..][i] == n;
          assert ns[i + 1] == n;
        }
      }
      assert SubLists(ns[1..]) <= SubLists(ns) by {
        forall l | l in SubLists(ns[1..]) ensures l in SubLists(ns) {
          var i :| 0 <= i < |ns[1..]| && ns[1..][i].subs == l;
          assert ns[i + 1].subs == l;
        }
      }
      [ParameterOf(ns[0])] + Snapshot(ns[1..])
  }

  /** Dropping an entry and then reading the values is reading the values
      and then dropping the entry. */
  lemma SnapshotWithout(ns: seq<ParamNode>, k: int)
    ensures Snapshot(Without(ns, k)) == Without(Snapshot(ns), k)
  {
    if 0 <= k < |ns| {
      var r := Without(ns, k);
      var a := Snapshot(r);
      var b := Without(Snapshot(ns), k);
      WithoutShifts(ns, k);
      WithoutShifts(Snapshot(ns), k);
      forall j | 0 <= j < |a| ensures a[j] == b[j] {
        if j < k {
          assert r[j] == ns[j];
        } else {
          assert r[j] == ns[j + 1];
        }
      }
    }
  }

  /** Dropping an entry keeps the arrays of the others apart. */
  lemma SeparateWithout(ns: seq<ParamNode>, k: int)
    requires SeparateLists(ns)
    ensures SeparateLists(Without(ns, k))
  {
    if 0 <= k < |ns| {
      var r := Without(ns, k);
      WithoutShifts(ns, k);
      forall i, j | 0 <= i < j < |r| ensures r[i].subs != r[j].subs {
        var i' := if i < k then i else i + 1;
        var j' := if j < k then j else j + 1;
        assert r[i] == ns[i'] && r[j] == ns[j'];
      }
    }
  }

  /** No two entries share a `subParameters` array (and so no two entries
      are the same object). */
  predicate SeparateLists(ns: seq<ParamNode>)
    reads Nodes(ns)
  {
    forall i, j :: 0 <= i < j < |ns| ==> ns[i].subs != ns[j].subs
  }

  /** A fresh blank parameter object. */
  method NewBlankNode() returns (n: ParamNode)
    ensures fresh(n) && fresh(n.subs)
    ensures ParameterOf(n) == BlankParameter
  {
    var subs := new SubList([BlankSubParameter]);
    n := new ParamNode("", "", subs);
  }

  /** Fresh objects holding the given parameters. */
  method Materialize(ps: seq<Parameter>) returns (ns: seq<ParamNode>)
    ensures Snapshot(ns) == ps
    ensures forall i :: 0 <= i < |ns| ==> fresh(ns[i]) && fresh(ns[i].subs)
    ensures SeparateLists(ns)
  {
    ns := [];
    var i := 0;
    while i < |ps|
      invariant 0 <= i <= |ps| && |ns| == i
      invariant forall j :: 0 <= j < i ==> fresh(ns[j]) && fresh(ns[j].subs)
      invariant forall j :: 0 <= j < i ==> ParameterOf(ns[j]) == ps[j]
      invariant SeparateLists(ns)
    {
      var subs := new SubList(ps[i].subParameters);
      var n := new ParamNode(ps[i].name, ps[i].labelText, subs);
      ns := ns + [n];
      i := i + 1;
    }
  }

  /** Fresh objects for each template's parameters, in template order. */
  method MaterializeAll(ts: seq<Template>) returns (os: seq<seq<ParamNode>>)
    ensures |os| == |ts|
    ensures forall k :: 0 <= k < |ts| ==> Snapshot(os[k]) == ts[k].defaultParameters && SeparateLists(os[k])
    ensures forall k, i :: 0 <= k < |os| && 0 <= i < |os[k]| ==> fresh(os[k][i]) && fresh(os[k][i].subs)
  {
    os := [];
    var k := 0;
    while k < |ts|
      invariant k <= |ts| && |os| == k
      invariant forall j :: 0 <= j < k ==> Snapshot(os[j]) == ts[j].defaultParameters && SeparateLists(os[j])
      invariant forall j, i :: 0 <= j < k && 0 <= i < |os[j]| ==> fresh(os[j][i]) && fresh(os[j][i].subs)
    {
      var ns := Materialize(ts[k].defaultParameters);
      os := os + [ns];
      k := k + 1;
    }
  }

  /** The objects of `algorithmTemplates`: for each template, the objects
      of its `defaultParameters`. */
  class TemplateStore {
    const templates: seq<Template>
    const objects: seq<seq<ParamNode>>

    /** `algorithmTemplates[key].defaultParameters`: the objects of the
        first template with that key, and none for an unknown key. */
    function Lookup(key: string): (r: Option<seq<ParamNode>>)
      requires |objects| == |templates|
      reads this
      ensures r.None? <==> FindTemplate(templates, key).None?
      ensures r.Some? ==> r.value == objects[TemplateIndex(templates, key).value]
    {
      match TemplateIndex(templates, key)
      case Some(k) => Some(objects[k])
      case None => None
    }

    function Objects(): set<ParamNode>
      reads this
    {
      set k, i | 0 <= k < |objects| && 0 <= i < |objects[k]| :: objects[k][i]
    }

    /** One list of objects per template, none sharing an array with
        another of its own template. */
    predicate Valid()
      reads this, Objects()
    {
      && |objects| == |templates|
      && forall k :: 0 <= k < |objects| ==> SeparateLists(objects[k])
    }

    /** The templates, as freshly loaded. */
    constructor(ts: seq<Template>)
      ensures templates == ts && Valid()
      ensures forall k :: 0 <= k < |ts| ==> Snapshot(objects[k]) == ts[k].defaultParameters
      ensures forall k, i :: 0 <= k < |objects| && 0 <= i < |objects[k]| ==> fresh(objects[k][i]) && fresh(objects[k][i].subs)
    {
      var os := MaterializeAll(ts);
      templates := ts;
      objects := os;
    }
  }

  /** The builder's `useState` slots. */
  class Builder {
    var currentAlgorithmId: Option<string>
    var name: string
    var description: string
    var parameters: seq<ParamNode>
    var action: Action
    var selectedTemplate: string
    var globalParameterValues: seq<GlobalParameterValue>
    const store: TemplateStore

    predicate Valid()
      reads this, Nodes(parameters)
    {
      SeparateLists(parameters)
    }

    /** The parameter values the builder shows. */
    function Parameters(): seq<Parameter>
      reads this, Nodes(parameters), SubLists(parameters)
    {
      Snapshot(parameters)
    }

    /** The initial state. */
    constructor(store: TemplateStore)
      ensures Valid() && this.store == store
      ensures currentAlgorithmId.None? && name == "" && description == ""
      ensures Parameters() == [BlankParameter] && fresh(parameters[0]) && fresh(parameters[0].subs)
      ensures action == Validate && selectedTemplate == ""
      ensures globalParameterValues == DefaultGlobalValues(GlobalParameters)
    {
      var n := NewBlankNode();
      this.parameters := [n];
      this.store := store;
      this.currentAlgorithmId := None;
      this.name := "";
      this.description := "";
      this.action := Validate;
      this.selectedTemplate := "";
      this.globalParameterValues := DefaultGlobalValues(GlobalParameters);
    }

    /** `clearBuilder`. */
    method Clear()
      modifies this
      ensures Valid()
      ensures currentAlgorithmId.None? && name == "" && description == ""
      ensures Parameters() == [BlankParameter] && fresh(parameters[0]) && fresh(parameters[0].subs)
      ensures action == Validate && selectedTemplate == ""
      ensures globalParameterValues == DefaultGlobalValues(GlobalParameters)
    {
      var n := NewBlankNode();
      currentAlgorithmId := None;
      name := "";
      description := "";
      parameters := [n];
      action := Validate;
      selectedTemplate := "";
      globalParameterValues := DefaultGlobalValues(GlobalParameters);
    }

    /** The load effect: with an algorithm, its fields and its very parameter
        objects (`editingNodes`) become the state; without one, the builder
        is cleared. The template picker keeps its selection. */
    method Load(editing: Option<Algorithm>, editingNodes: seq<ParamNode>)
      requires editing.Some? ==> Snapshot(editingNodes) == editing.value.parameters && SeparateLists(editingNodes)
      modifies this
      ensures Valid()
      ensures editing.None? ==>
        && currentAlgorithmId.None? && name == "" && description == ""
        && Parameters() == [BlankParameter] && action == Validate && selectedTemplate == ""
        && globalParameterValues == DefaultGlobalValues(GlobalParameters)
      ensures editing.Some? ==>
        && currentAlgorithmId == LoadedId(editing.value.id)
        && name == editing.value.name && description == editing.value.description
        && action == editing.value.action
        && (editingNodes != [] ==> parameters == editingNodes)
        && Parameters() == LoadedParameters(editing.value)
        && globalParameterValues == LoadedGlobals(editing.value)
        && selectedTemplate == old(selectedTemplate)
    {
      if editing.None? {
        Clear();
      } else {
        var alg := editing.value;
        currentAlgorithmId := LoadedId(alg.id);
        name := alg.name;
        description := alg.description;
        if |editingNodes| > 0 {
          parameters := editingNodes;
        } else {
          var n := NewBlankNode();
          parameters := [n];
        }
        action := alg.action;
        globalParameterValues := LoadedGlobals(alg);
      }
    }

    /** `addParameter`: the objects already there stay, one fresh blank
        parameter object is appended. */
    method AddParameter()
      requires Valid()
      modifies this
      ensures Valid()
      ensures |parameters| == |old(parameters)| + 1 && parameters[..|old(parameters)|] == old(parameters)
      ensures fresh(parameters[|parameters| - 1])
      ensures Parameters() == old(Parameters()) + [BlankParameter]
      ensures unchanged(this`name, this`description, this`action, this`globalParameterValues)
      ensures unchanged(this`currentAlgorithmId, this`selectedTemplate)
    {
      var n := NewBlankNode();
      parameters := parameters + [n];
    }

    /** `removeParameter(index)`: only the entry at index goes, an index
        outside the list changes nothing. */
    method RemoveParameter(index: int)
      requires Valid()
      modifies this
      ensures Valid()
      ensures parameters == Without(old(parameters), index)
      ensures Parameters() == Without(old(Parameters()), index)
      ensures unchanged(this`name, this`description, this`action, this`globalParameterValues)
      ensures unchanged(this`currentAlgorithmId, this`selectedTemplate)
    {
      SnapshotWithout(parameters, index);
      SeparateWithout(parameters, index);
      parameters := Without(parameters, index);
    }

    /** The template picker: the selection is stored, then `applyTemplate`
        installs a new array holding the template's own parameter objects;
        an empty or unknown key leaves the parameters alone. */
    method SelectTemplate(key: string)
      requires Valid() && store.Valid()
      modifies this
      ensures Valid()
      ensures selectedTemplate == key
      ensures key != "" && store.Lookup(key).Some? ==> parameters == store.Lookup(key).value
      ensures key == "" || store.Lookup(key).None? ==> parameters == old(parameters)
      ensures unchanged(this`name, this`description, this`action, this`globalParameterValues)
      ensures unchanged(this`currentAlgorithmId)
    {
      selectedTemplate := key;
      if key != "" {
        var template := store.Lookup(key);
        if template.Some? {
          parameters := template.value;
        }
      }
    }

    /** The name input of row index: a new object that spreads the old one
        (sharing its `subParameters` array) replaces it in a copy of the
        array; the old object is left as it was. */
    method EditName(index: int, text: string)
      requires Valid() && 0 <= index < |parameters|
      modifies this
      ensures Valid()
      ensures |parameters| == |old(parameters)| && fresh(parameters[index])
      ensures parameters == old(parameters)[index := parameters[index]]
      ensures parameters[index].subs == old(parameters[index].subs)
      ensures Parameters() == old(Parameters())[index := old(Parameters()[index]).(name := text)]
      ensures unchanged(old(parameters[index]))
      ensures unchanged(this`name, this`description, this`action, this`globalParameterValues)
      ensures unchanged(this`currentAlgorithmId, this`selectedTemplate)
    {
      var n := new ParamNode(text, parameters[index].labelText, parameters[index].subs);
      parameters := parameters[index := n];
    }

    /** The label input of row index, built like the name input. */
    method EditLabel(index: int, text: string)
      requires Valid() && 0 <= index < |parameters|
      modifies this
      ensures Valid()
      ensures |parameters| == |old(parameters)| && fresh(parameters[index])
      ensures parameters == old(parameters)[index := parameters[index]]
      ensures parameters[index].subs == old(parameters[index].subs)
      ensures Parameters() == old(Parameters())[index := old(Parameters()[index]).(labelText := text)]
      ensures unchanged(old(parameters[index]))
      ensures unchanged(this`name, this`description, this`action, this`globalParameterValues)
      ensures unchanged(this`currentAlgorithmId, this`selectedTemplate)
    {
      var n := new ParamNode(parameters[index].name, text, parameters[index].subs);
      parameters := parameters[index := n];
    }

    /** The sub-parameter select: the entry of the shared array is
        overwritten in place with the chosen name and the config that
        `SelectedSub` computes from the values shown before the change. */
    method SubSelect(index: int, subIndex: int, value: string)
      requires Valid() && 0 <= index < |parameters|
      requires 0 <= subIndex < |parameters[index].subs.items|
      modifies parameters[index].subs
      ensures Valid()
      ensures parameters[index].subs.items ==
        old(parameters[index].subs.items)[subIndex := SelectedSub(old(Parameters()), old(parameters[index].name), old(parameters[index].subs.items[subIndex]), value)]
      ensures Parameters() ==
        old(Parameters())[index := old(Parameters()[index]).(subParameters := parameters[index].subs.items)]
    {
      var l := parameters[index].subs;
      var sub := SelectedSub(Parameters(), parameters[index].name, l.items[subIndex], value);
      l.items := l.items[subIndex := sub];
    }

    /** The config editor of a sub-parameter: its config is overwritten in
        place in the shared array. */
    method SubConfigChange(index: int, subIndex: int, config: ParameterConfig)
      requires Valid() && 0 <= index < |parameters|
      requires 0 <= subIndex < |parameters[index].subs.items|
      modifies parameters[index].subs
      ensures Valid()
      ensures parameters[index].subs.items ==
        old(parameters[index].subs.items)[subIndex := old(parameters[index].subs.items[subIndex]).(config := Some(config))]
      ensures Parameters() ==
        old(Parameters())[index := old(Parameters()[index]).(subParameters := parameters[index].subs.items)]
    {
      var l := parameters[index].subs;
      l.items := l.items[subIndex := l.items[subIndex].(config := Some(config))];
    }

    /** The delete button of a sub-parameter: the shared parameter object
        gets a new `subParameters` array without that entry. */
    method SubRemove(index: int, subIndex: int)
      requires Valid() && 0 <= index < |parameters|
      modifies parameters[index]
      ensures Valid()
      ensures fresh(parameters[index].subs)
      ensures parameters[index].subs.items == Without(old(parameters[index].subs.items), subIndex)
      ensures Parameters() ==
        old(Parameters())[index := old(Parameters()[index]).(subParameters := Without(old(Parameters()[index].subParameters), subIndex))]
      ensures unchanged(old(parameters[index].subs))
    {
      var n := parameters[index];
      var l := new SubList(Without(n.subs.items, subIndex));
      n.subs := l;
    }

    /** `Add Sub-Parameter`: a blank entry is pushed onto the shared array. */
    method SubAdd(index: int)
      requires Valid() && 0 <= index < |parameters|
      modifies parameters[index].subs
      ensures Valid()
      ensures parameters[index].subs.items == old(parameters[index].subs.items) + [BlankSubParameter]
      ensures Parameters() ==
        old(Parameters())[index := old(Parameters()[index]).(subParameters := old(Parameters()[index].subParameters) + [BlankSubParameter])]
    {
      var l := parameters[index].subs;
      l.items := l.items + [BlankSubParameter];
    }

    /** A change in the global-parameter panel: the upsert of one value. */
    method EditGlobal(key: string, value: Value)
      modifies this`globalParameterValues
      ensures globalParameterValues == UpdateValue(old(globalParameterValues), key, value)
      ensures GetValue(globalParameterValues, key) == value
    {
      GetAfterUpdate(globalParameterValues, key, value);
      globalParameterValues := UpdateValue(globalParameterValues, key, value);
    }

    /** `saveAlgorithm`: the record handed to the server, or the blank-name
        refusal. */
    method Save(editingCreated: Option<Timestamp>, now: Timestamp) returns (r: Result<Algorithm, SaveError>)
      ensures r == SaveRecord(name, description, Parameters(), action, globalParameterValues, currentAlgorithmId, editingCreated, now)
      ensures r.Ok? ==> r.value.parameters == Prune(Parameters())
    {
      r := SaveRecord(name, description, Parameters(), action, globalParameterValues, currentAlgorithmId, editingCreated, now);
    }
  }

  /** A new builder over the store with the template under `key` picked
      holds that template's own objects. */
  method PickTemplate(store: TemplateStore, key: string) returns (b: Builder)
    requires store.Valid() && key != "" && store.Lookup(key).Some?
    ensures fresh(b) && b.Valid() && b.store == store
    ensures b.selectedTemplate == key && b.parameters == store.Lookup(key).value
  {
    b := new Builder(store);
    b.SelectTemplate(key);
  }

  /** Freshly loaded templates with the one under `key` picked: the
      builder holds that template's own objects. */
  method LoadAndPick(ts: seq<Template>, key: string) returns (b: Builder)
    requires key != "" && FindTemplate(ts, key).Some? && FindTemplate(ts, key).value.defaultParameters != []
    ensures fresh(b) && b.Valid() && b.store.Valid() && b.store.templates == ts && b.selectedTemplate == key
    ensures b.parameters == b.store.Lookup(key).value
    ensures b.Parameters() == FindTemplate(ts, key).value.defaultParameters
    ensures fresh(b.parameters[0].subs)
  {
    var store := new TemplateStore(ts);
    ghost var k := TemplateIndex(ts, key).value;
    ghost var picked := store.objects[k];
    assert Snapshot(picked) == FindTemplate(ts, key).value.defaultParameters;
    assert fresh(picked[0].subs);
    b := PickTemplate(store, key);
  }

  /** Editing a template's parameters in the builder edits the template:
      after adding a sub-parameter to the first parameter of a picked
      template, clearing and picking the same template again shows the
      added entry. */
  method TemplateEditPersists(ts: seq<Template>, key: string) returns (first: seq<SubParameter>, second: seq<SubParameter>)
    requires key != "" && FindTemplate(ts, key).Some? && FindTemplate(ts, key).value.defaultParameters != []
    ensures first == FindTemplate(ts, key).value.defaultParameters[0].subParameters
    ensures second == first + [BlankSubParameter]
  {
    var b := LoadAndPick(ts, key);
    first := b.Parameters()[0].subParameters;
    b.SubAdd(0);
    b.Clear();
    b.SelectTemplate(key);
    second := b.Parameters()[0].subParameters;
  }

  /** The same for the blood template of `algorithmTemplates`. */
  method BloodEditPersists() returns (first: seq<SubParameter>, second: seq<SubParameter>)
    ensures first == BloodTemplate.defaultParameters[0].subParameters
    ensures second == first + [BlankSubParameter]
  {
    BloodTemplateFirst();
    FindTemplateByKey("blood");
    first, second := TemplateEditPersists(AlgorithmTemplates, "blood");
  }
}
