/** The workflow form: a name and an ordered list of algorithm selections,
    each the text of a select (`''` while nothing is picked), turned into
    the submitted `algorithmOrder` on submit. */
module WorkflowForm {
  import opened Wrappers
  import opened Types
  import opened Strings
  import opened Lists

  // ---------------------------------------------------------------------
  // The order extraction

  /** `selected.filter(id => id !== '')`. */
  function NonEmpty(selected: seq<string>): (r: seq<string>)
    ensures |r| <= |selected|
    ensures forall x :: x in r <==> x in selected && x != ""
  {
    if selected == [] then []
    else (if selected[0] == "" then [] else [selected[0]]) + NonEmpty(selected[1..])
  }

  /** `ids.map(id => parseInt(id))`. */
  function ParseIds(ids: seq<string>): (r: seq<Option<int>>)
    ensures |r| == |ids|
    ensures forall i :: 0 <= i < |ids| ==> r[i] == ParseInt(ids[i])
  {
    if ids == [] then [] else [ParseInt(ids[0])] + ParseIds(ids[1..])
  }

  /** The submitted order: the picked selections, in order, each parsed. */
  function AlgorithmOrder(selected: seq<string>): seq<Option<int>> {
    ParseIds(NonEmpty(selected))
  }

  lemma {:induction false} NonEmptyAppend(a: seq<string>, b: seq<string>)
    ensures NonEmpty(a + b) == NonEmpty(a) + NonEmpty(b)
  {
    if a == [] {
      assert a + b == b;
    } else {
      assert (a + b)[1..] == a[1..] + b;
      NonEmptyAppend(a[1..], b);
    }
  }

  lemma {:induction false} ParseIdsAppend(a: seq<string>, b: seq<string>)
    ensures ParseIds(a + b) == ParseIds(a) + ParseIds(b)
  {
    if a == [] {
      assert a + b == b;
    } else {
      assert (a + b)[1..] == a[1..] + b;
      ParseIdsAppend(a[1..], b);
    }
  }

  /** The order is built selection by selection: the order of two lists
      end to end is the two orders end to end, an unpicked selection
      contributes nothing and a picked one contributes its parsed value. */
  lemma AlgorithmOrderAppend(a: seq<string>, b: seq<string>)
    ensures AlgorithmOrder(a + b) == AlgorithmOrder(a) + AlgorithmOrder(b)
    ensures AlgorithmOrder([]) == [] && AlgorithmOrder([""]) == []
    ensures forall x :: x != "" ==> AlgorithmOrder([x]) == [ParseInt(x)]
  {
    NonEmptyAppend(a, b);
    ParseIdsAppend(NonEmpty(a), NonEmpty(b));
  }

  /** The order is empty exactly when no selection is picked. */
  lemma {:induction false} AlgorithmOrderEmpty(selected: seq<string>)
    ensures AlgorithmOrder(selected) == [] <==> forall i :: 0 <= i < |selected| ==> selected[i] == ""
  {
    if selected != [] {
      AlgorithmOrderEmpty(selected[1..]);
      assert selected == [selected[0]] + selected[1..];
      AlgorithmOrderAppend([selected[0]], selected[1..]);
      assert forall i :: 1 <= i < |selected| ==> selected[i] == selected[1..][i - 1];
    }
  }

  /** The option values of the selects: `algorithm.id` rendered as text. */
  function IdTexts(ids: seq<int>): (r: seq<string>)
    ensures |r| == |ids|
    ensures forall i :: 0 <= i < |ids| ==> r[i] == IntToString(ids[i])
  {
    if ids == [] then [] else [IntToString(ids[0])] + IdTexts(ids[1..])
  }

  /** A single picked id submits itself. */
  lemma PickedIdOrder(n: int)
    ensures AlgorithmOrder([IntToString(n)]) == [Some(n)]
  {
    AlgorithmOrderAppend([], []);
    ParseIntOfIntToString(n);
  }

  /** Picking algorithms with numeric ids submits exactly those ids, in the
      order picked. */
  lemma {:induction false} PickedIdsRoundTrip(ids: seq<int>)
    ensures |AlgorithmOrder(IdTexts(ids))| == |ids|
    ensures forall i :: 0 <= i < |ids| ==> AlgorithmOrder(IdTexts(ids))[i] == Some(ids[i])
  {
    if ids != [] {
      PickedIdsRoundTrip(ids[1..]);
      assert IdTexts(ids) == [IntToString(ids[0])] + IdTexts(ids[1..]);
      AlgorithmOrderAppend([IntToString(ids[0])], IdTexts(ids[1..]));
      PickedIdOrder(ids[0]);
      var rest := AlgorithmOrder(IdTexts(ids[1..]));
      assert AlgorithmOrder(IdTexts(ids)) == [Some(ids[0])] + rest;
      forall i | 1 <= i < |ids|
        ensures AlgorithmOrder(IdTexts(ids))[i] == Some(ids[i])
      {
        assert ids[1..][i - 1] == ids[i];
      }
    }
  }

  // ---------------------------------------------------------------------
  // The submit guard

  datatype WorkflowError = BlankWorkflowName | NoAlgorithmSelected

  /** `handleSubmit`: a blank name is refused first, then an empty order;
      otherwise the untrimmed name and the order are submitted. */
  function SubmitWorkflow(name: string, selected: seq<string>): (r: Result<WorkflowSubmission, WorkflowError>)
    ensures r == Err(BlankWorkflowName) <==> IsBlank(name)
    ensures r == Err(NoAlgorithmSelected) <==>
      !IsBlank(name) && forall i :: 0 <= i < |selected| ==> selected[i] == ""
    ensures r.Ok? ==> r.value.name == name && r.value.algorithmOrder == AlgorithmOrder(selected)
    ensures r.Ok? ==> r.value.algorithmOrder != []
  {
    AlgorithmOrderEmpty(selected);
    if IsBlank(name) then Err(BlankWorkflowName)
    else if AlgorithmOrder(selected) == [] then Err(NoAlgorithmSelected)
    else Ok(WorkflowSubmission(name, AlgorithmOrder(selected)))
  }

  /** The trash button of a selection is shown only when there are two or
      more selections. */
  predicate ShowRemove(selected: seq<string>) {
    |selected| > 1
  }

  /** Removing through the shown button never leaves the form without a
      selection. */
  lemma OfferedRemoveKeepsOne(selected: seq<string>, index: int)
    requires ShowRemove(selected)
    ensures |Without(selected, index)| >= 1
  {
  }

  // ---------------------------------------------------------------------
  // The form state

  /** The form's `useState` slots. */
  class Form {
    var name: string
    var selected: seq<string>

    /** The form opens with an empty name and one unpicked selection. */
    constructor()
      ensures name == "" && selected == [""]
    {
      name := "";
      selected := [""];
    }

    /** `addAlgorithmSelect`: one unpicked selection is appended. */
    method AddSelect()
      modifies this
      ensures selected == old(selected) + [""] && name == old(name)
    {
      selected := selected + [""];
    }

    /** `removeAlgorithmSelect(index)`: only that selection goes. */
    method RemoveSelect(index: int)
      modifies this
      ensures selected == Without(old(selected), index) && name == old(name)
    {
      selected := Without(selected, index);
    }

    /** `updateAlgorithmSelect(index, value)` on a shown row: only that
        selection changes. */
    method UpdateSelect(index: int, value: string)
      requires 0 <= index < |selected|
      modifies this
      ensures selected == old(selected)[index := value] && name == old(name)
    {
      selected := selected[index := value];
    }

    /** The submit handler, which leaves the form as it is. */
    method Submit() returns (r: Result<WorkflowSubmission, WorkflowError>)
      ensures r == SubmitWorkflow(name, selected)
    {
      r := SubmitWorkflow(name, selected);
    }
  }

  /** A fresh form refuses to submit until something is picked. */
  method FreshFormNeedsAlgorithm(name: string) returns (r: Result<WorkflowSubmission, WorkflowError>)
    requires !IsBlank(name)
    ensures r == Err(NoAlgorithmSelected)
  {
    var f := new Form();
    f.name := name;
    r := f.Submit();
  }
}
