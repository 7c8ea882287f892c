/** The questionnaire page without confetti: the submit handler accepts the
    form only when every input holds something besides white space, and then
    swaps the form for the success block. */
module SimpleForm {
  import opened FormInputs

  /** The handler's test, as it reads: no input whose trimmed value is the
      empty string. */
  predicate EveryInputFilled(inputs: seq<Input>)
  {
    forall k | 0 <= k < |inputs| :: Trim(inputs[k].value) != []
  }

  /** The forEach over the inputs that clears the allFilled flag: the flag
      stays set exactly when every input holds a non-space character. */
  method AllFilled(inputs: seq<Input>) returns (allFilled: bool)
    ensures allFilled <==> forall k | 0 <= k < |inputs| :: Filled(inputs[k].value)
    ensures allFilled == EveryInputFilled(inputs)
  {
    allFilled := true;
    for i := 0 to |inputs|
      invariant allFilled <==> forall k | 0 <= k < i :: Filled(inputs[k].value)
    {
      var blank := Blank(inputs[i].value);
      if blank {
        allFilled := false;
      }
    }
    EveryInputFilledMeansFilled(inputs);
  }

  /** The test of one input: its trimmed value is the empty string exactly
      when it holds nothing but white space. */
  method Blank(value: string) returns (blank: bool)
    ensures blank <==> !Filled(value)
  {
    blank := Trim(value) == [];
  }

  /** The handler's test and the intended one agree on every form. */
  lemma EveryInputFilledMeansFilled(inputs: seq<Input>)
    ensures EveryInputFilled(inputs) <==> forall k | 0 <= k < |inputs| :: Filled(inputs[k].value)
  {
  }

  /** A form with no inputs is accepted, since the flag starts set. */
  lemma NoInputsAccepted(inputs: seq<Input>)
    requires inputs == []
    ensures EveryInputFilled(inputs)
  {
  }

  /** One input holding only white space, a number input as much as any
      other, makes the whole form rejected. */
  lemma BlankRejects(inputs: seq<Input>, k: nat)
    requires k < |inputs|
    requires forall j | 0 <= j < |inputs[k].value| :: IsSpace(inputs[k].value[j])
    ensures !EveryInputFilled(inputs)
  {
    assert !Filled(inputs[k].value);
  }

  class Page {
    /** style.display of the form and of the success block. */
    var formDisplay: string
    var successDisplay: string

    constructor (formDisplay0: string, successDisplay0: string)
      ensures formDisplay == formDisplay0 && successDisplay == successDisplay0
    {
      formDisplay := formDisplay0;
      successDisplay := successDisplay0;
    }

    /** The submit listener. A rejected form is left as it is (the alert is
        not modelled); an accepted one is hidden and the success block shown. */
    method Submit(inputs: seq<Input>) returns (accepted: bool)
      modifies this
      ensures accepted == EveryInputFilled(inputs)
      ensures accepted ==> formDisplay == "none" && successDisplay == "block"
      ensures !accepted ==> formDisplay == old(formDisplay) && successDisplay == old(successDisplay)
    {
      accepted := AllFilled(inputs);
      if !accepted {
        return;
      }
      formDisplay := "none";
      successDisplay := "block";
    }
  }
}
