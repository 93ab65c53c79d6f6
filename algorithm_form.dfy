/** The new-algorithm form of the library: a name, a template choice and a
    description, submitted when the name is not blank. */
module AlgorithmForm {
  import opened Wrappers
  import opened Types
  import opened Strings
  import opened ParameterDefinitionsData

  datatype FormError = BlankAlgorithmName

  /** `handleSubmit`: a blank name is refused; otherwise the three fields
      are submitted as typed, the name untrimmed. */
  function SubmitAlgorithm(name: string, template: string, description: string): (r: Result<AlgorithmSubmission, FormError>)
    ensures r.Err? <==> IsBlank(name)
    ensures r.Ok? ==> r.value.name == name && r.value.template == template && r.value.description == description
  {
    if IsBlank(name) then Err(BlankAlgorithmName) else Ok(AlgorithmSubmission(name, template, description))
  }

  /** The template select: `blank` first, then the template keys. */
  const TemplateChoices: seq<string> := ["blank"] + TemplateKeys(AlgorithmTemplates)

  /** The choices are `blank` and the four template keys in declaration
      order. */
  lemma TemplateChoicesListed()
    ensures TemplateChoices == ["blank", "blood", "urine", "biochemistry", "hematology"]
  {
    TemplateKeysInOrder();
  }

  /** Every choice but `blank` names a template, and `blank` names none. */
  lemma TemplateChoicesNameTemplates()
    ensures forall k :: k in TemplateChoices && k != "blank" ==> FindTemplate(AlgorithmTemplates, k).Some?
    ensures FindTemplate(AlgorithmTemplates, "blank").None?
  {
    TemplateChoicesListed();
    forall k | k in TemplateChoices && k != "blank"
      ensures FindTemplate(AlgorithmTemplates, k).Some?
    {
      FindTemplateByKey(k);
    }
    FindTemplateByKey("blank");
  }

  /** The form's `useState` slots. */
  class Form {
    var name: string
    var template: string
    var description: string

    /** The form opens with an empty name and description and the `blank`
        template. */
    constructor()
      ensures name == "" && template == "blank" && description == ""
    {
      name := "";
      template := "blank";
      description := "";
    }

    /** The submit handler, which leaves the form as it is. */
    method Submit() returns (r: Result<AlgorithmSubmission, FormError>)
      ensures r == SubmitAlgorithm(name, template, description)
    {
      r := SubmitAlgorithm(name, template, description);
    }
  }
}
