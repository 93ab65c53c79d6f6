/** The library page: the records it builds for new and duplicated
    algorithms and new workflows, the sub-parameter count of an algorithm
    card, and the chain of names shown on a workflow card. */
module AlgorithmLibrary {
  import opened Wrappers
  import opened Types
  import opened Strings

  // ---------------------------------------------------------------------
  // The sub-parameter count

  /** `parameters.reduce((total, p) => total + p.subParameters.length, 0)`,
      folded from the left. */
  function SubParameterCount(ps: seq<Parameter>): (r: nat)
    ensures forall i :: 0 <= i < |ps| ==> |ps[i].subParameters| <= r
  {
    if ps == [] then 0
    else SubParameterCount(ps[..|ps| - 1]) + |ps[|ps| - 1].subParameters|
  }

  /** The count of two lists placed end to end is the sum of their counts. */
  lemma {:induction false} SubParameterCountAppend(a: seq<Parameter>, b: seq<Parameter>)
    ensures SubParameterCount(a + b) == SubParameterCount(a) + SubParameterCount(b)
    decreases |b|
  {
    if b != [] {
      assert (a + b)[..|a + b| - 1] == a + b[..|b| - 1];
      SubParameterCountAppend(a, b[..|b| - 1]);
    } else {
      assert a + b == a;
    }
  }

  /** One parameter counts its own sub-parameters, so a list counts the
      sub-parameters of each of its parameters once. */
  lemma SubParameterCountCons(p: Parameter, ps: seq<Parameter>)
    ensures SubParameterCount([p]) == |p.subParameters|
    ensures SubParameterCount([p] + ps) == |p.subParameters| + SubParameterCount(ps)
  {
    assert [p][..0] == [];
    SubParameterCountAppend([p], ps);
  }

  /** The count is 0 exactly when no parameter has a sub-parameter. */
  lemma {:induction false} SubParameterCountZero(ps: seq<Parameter>)
    ensures SubParameterCount(ps) == 0 <==> forall i :: 0 <= i < |ps| ==> ps[i].subParameters == []
  {
    if ps != [] {
      SubParameterCountZero(ps[..|ps| - 1]);
      assert forall i :: 0 <= i < |ps| - 1 ==> ps[..|ps| - 1][i] == ps[i];
    }
  }

  // ---------------------------------------------------------------------
  // Records built by the library

  /** `handleDuplicateAlgorithm`: the spread copy with the id removed, the
      name suffixed and both dates set to now. */
  function Duplicate(alg: Algorithm, now: Timestamp): (r: Algorithm)
    ensures r.id.None? && r.name == alg.name + " (Copy)"
    ensures r.created == now && r.lastModified == now
    ensures r.(id := alg.id, name := alg.name, created := alg.created, lastModified := alg.lastModified) == alg
  {
    alg.(id := None, name := alg.name + " (Copy)", created := now, lastModified := now)
  }

  /** A duplicate keeps the sub-parameter count of its original. */
  lemma DuplicateKeepsCount(alg: Algorithm, now: Timestamp)
    ensures SubParameterCount(Duplicate(alg, now).parameters) == SubParameterCount(alg.parameters)
  {
  }

  /** `handleCreateAlgorithm`: the record sent to the server. */
  function NewAlgorithm(data: AlgorithmSubmission, now: Timestamp): (r: Algorithm)
    ensures r.id == Some(NumId(0))
    ensures r.name == data.name && r.description == data.description
    ensures r.parameters == [] && r.globalParameters == [] && r.action == Validate
    ensures r.created == now && r.lastModified == now
  {
    Algorithm(Some(NumId(0)), data.name, data.description, [], Validate, [], now, now)
  }

  /** The template chosen in the form has no effect on the new record. */
  lemma NewAlgorithmIgnoresTemplate(data: AlgorithmSubmission, template: string, now: Timestamp)
    ensures NewAlgorithm(data.(template := template), now) == NewAlgorithm(data, now)
    ensures SubParameterCount(NewAlgorithm(data, now).parameters) == 0
  {
  }

  /** `handleCreateWorkflow`: the record sent to the server. */
  function NewWorkflow(data: WorkflowSubmission, now: Timestamp): (r: Workflow)
    ensures r.id == 0 && r.created == now
    ensures r.name == data.name && r.algorithmOrder == data.algorithmOrder
  {
    Workflow(0, data.name, data.algorithmOrder, now)
  }

  // ---------------------------------------------------------------------
  // The chain of a workflow card

  /** `a.id === id`: strict equality matches only a numeric id with the same
      number; a string id never matches and NaN matches nothing. */
  predicate IdMatches(a: Algorithm, id: Option<int>) {
    id.Some? && a.id == Some(NumId(id.value))
  }

  /** `algorithms.find(a => a.id === id)`. */
  function FindById(algs: seq<Algorithm>, id: Option<int>): (r: Option<nat>)
    ensures r.Some? ==> r.value < |algs| && IdMatches(algs[r.value], id)
    ensures r.Some? ==> forall j :: 0 <= j < r.value ==> !IdMatches(algs[j], id)
    ensures r.None? <==> forall j :: 0 <= j < |algs| ==> !IdMatches(algs[j], id)
  {
    if algs == [] then None
    else if IdMatches(algs[0], id) then Some(0)
    else
      match FindById(algs[1..], id)
      case None => None
      case Some(k) => Some(k + 1)
  }

  const DeletedName := "(Deleted)"

  /** The mis-decoded arrow the source joins with: U+00E2, U+2020, U+2019
      between two spaces. */
  const ChainSeparator := " \U{E2}\U{2020}\U{2019} "

  /** One entry of the chain: the first matching algorithm's name, or
      `(Deleted)`. */
  function Segment(algs: seq<Algorithm>, id: Option<int>): (r: string)
    ensures FindById(algs, id).None? ==> r == DeletedName
    ensures FindById(algs, id).Some? ==> r == algs[FindById(algs, id).value].name
  {
    match FindById(algs, id)
    case None => DeletedName
    case Some(i) => algs[i].name
  }

  /** `algorithmOrder.map(...)`: one segment per entry, in order. */
  function Segments(algs: seq<Algorithm>, order: seq<Option<int>>): (r: seq<string>)
    ensures |r| == |order|
    ensures forall i :: 0 <= i < |order| ==> r[i] == Segment(algs, order[i])
  {
    if order == [] then [] else [Segment(algs, order[0])] + Segments(algs, order[1..])
  }

  /** The text of a workflow card's chain. */
  function WorkflowChain(algs: seq<Algorithm>, wf: Workflow): string {
    Join(Segments(algs, wf.algorithmOrder), ChainSeparator)
  }

  /** The chain's shape: empty for an empty order, one segment for one
      entry, and the first segment, the separator and the rest otherwise. */
  lemma WorkflowChainShape(algs: seq<Algorithm>, wf: Workflow)
    ensures wf.algorithmOrder == [] ==> WorkflowChain(algs, wf) == ""
    ensures |wf.algorithmOrder| == 1 ==> WorkflowChain(algs, wf) == Segment(algs, wf.algorithmOrder[0])
    ensures |wf.algorithmOrder| >= 2 ==>
      WorkflowChain(algs, wf) == Segment(algs, wf.algorithmOrder[0]) + ChainSeparator
                                 + WorkflowChain(algs, wf.(algorithmOrder := wf.algorithmOrder[1..]))
  {
    var order := wf.algorithmOrder;
    if |order| >= 2 {
      var segs := Segments(algs, order);
      assert segs[1..] == Segments(algs, order[1..]);
    }
  }

  /** A segment names an algorithm carrying that id, or reads `(Deleted)`
      exactly when no algorithm has it. */
  lemma SegmentMeaning(algs: seq<Algorithm>, id: Option<int>)
    ensures (forall j :: 0 <= j < |algs| ==> !IdMatches(algs[j], id)) ==> Segment(algs, id) == DeletedName
    ensures (exists j :: 0 <= j < |algs| && IdMatches(algs[j], id)) ==>
      exists j :: 0 <= j < |algs| && IdMatches(algs[j], id) && Segment(algs, id) == algs[j].name
  {
  }

  /** A NaN entry reads `(Deleted)` whatever the algorithms are, and so
      does every entry when no algorithm has a numeric id (server-side
      string ids). */
  lemma UnmatchableIdsReadDeleted(algs: seq<Algorithm>)
    ensures Segment(algs, None) == DeletedName
    ensures (forall j :: 0 <= j < |algs| ==> algs[j].id.None? || algs[j].id.value.StrId?) ==>
      forall id :: Segment(algs, id) == DeletedName
  {
  }

  /** Deleting an algorithm with a different id leaves a segment as it was. */
  lemma SegmentAfterOtherDeleted(before: seq<Algorithm>, k: nat, id: Option<int>)
    requires k < |before| && !IdMatches(before[k], id)
    ensures Segment(before[..k] + before[k + 1..], id) == Segment(before, id)
  {
    var after := before[..k] + before[k + 1..];
    var f := FindById(before, id);
    var g := FindById(after, id);
    if f.Some? {
      var i := f.value;
      var i' := if i < k then i else i - 1;
      assert after[i'] == before[i];
      assert g.Some?;
      assert forall j :: 0 <= j < i' ==> after[j] == before[if j < k then j else j + 1];
      assert g.value == i';
    } else {
      assert forall j :: 0 <= j < |after| ==> after[j] == before[if j < k then j else j + 1];
    }
  }
}
