/** The duplicate dialog: a name field pre-filled from the algorithm, a
    submit that hands the trimmed name on and closes, and a close that
    resets the field. */
module DuplicateAlgorithmModal {
  import opened Wrappers
  import opened Types
  import opened Strings
  import opened AlgorithmLibrary

  /** The callbacks the dialog calls, in the order it calls them. */
  datatype Event = Duplicated(name: string) | Closed

  /** The pre-filled name: the algorithm's name followed by ` (Copy)`. */
  function PrefillName(alg: Algorithm): (r: string)
    ensures r == Duplicate(alg, 0).name
  {
    alg.name + " (Copy)"
  }

  /** `handleSubmit`: nothing for a blank name; otherwise `onDuplicate`
      with the trimmed name, then `onClose`. */
  function SubmitEvents(name: string): (r: seq<Event>)
    ensures r == [] <==> IsBlank(name)
    ensures r != [] ==> r == [Duplicated(Trim(name)), Closed]
  {
    BlankIffTrimEmpty(name);
    if IsBlank(name) then [] else [Duplicated(Trim(name)), Closed]
  }

  /** The name handed on is never empty and has no white space at either
      end. */
  lemma DuplicatedNameIsClean(name: string)
    requires !IsBlank(name)
    ensures SubmitEvents(name)[0].name != ""
    ensures Trim(SubmitEvents(name)[0].name) == SubmitEvents(name)[0].name
  {
    BlankIffTrimEmpty(name);
    TrimIdempotent(name);
  }

  /** The pre-filled name is never blank, so submitting it right away
      duplicates. */
  lemma PrefillSubmits(alg: Algorithm)
    ensures SubmitEvents(PrefillName(alg)) != []
  {
    var n := PrefillName(alg);
    assert n[|n| - 1] == ')';
    assert !IsSpace(n[|n| - 1]);
  }

  /** The dialog's one `useState` slot. */
  class Modal {
    var name: string

    constructor()
      ensures name == ""
    {
      name := "";
    }

    /** The effect on `[algorithm, isOpen]`: only an open dialog with an
        algorithm pre-fills the name. */
    method Open(algorithm: Option<Algorithm>, isOpen: bool)
      modifies this
      ensures algorithm.Some? && isOpen ==> name == PrefillName(algorithm.value)
      ensures !(algorithm.Some? && isOpen) ==> name == old(name)
    {
      if algorithm.Some? && isOpen {
        name := PrefillName(algorithm.value);
      }
    }

    /** The submit handler: a blank name changes nothing; otherwise the
        events are emitted and the field is emptied. */
    method Submit() returns (events: seq<Event>)
      modifies this
      ensures events == SubmitEvents(old(name))
      ensures IsBlank(old(name)) ==> name == old(name)
      ensures !IsBlank(old(name)) ==> name == ""
    {
      events := SubmitEvents(name);
      if !IsBlank(name) {
        name := "";
      }
    }

    /** `handleClose`: `onClose`, and the field is emptied. */
    method Close() returns (events: seq<Event>)
      modifies this
      ensures events == [Closed] && name == ""
    {
      events := [Closed];
      name := "";
    }
  }
}
