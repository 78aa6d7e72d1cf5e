/** The initial-data screen: weight and height in, BMI shown, and a submit
    guard before moving on to the evaluation. */
module InputData {
  import opened Wrappers
  import opened Bmi

  /** What the two text boxes hold: the raw text and the number
      `parseFloat` reads from it (None for `NaN`). */
  datatype Entry = Entry(text: string, number: Option<real>)

  /** `parseFloat` of the empty text is `NaN`. */
  predicate Parsed(e: Entry)
  {
    e.text == "" ==> e.number.None?
  }

  /** The BMI text kept in state, recomputed whenever an entry changes. */
  function ShownImc(peso: Entry, estatura: Entry): (r: Option<real>)
    ensures r.Some? <==> peso.number.Some? && estatura.number.Some? && peso.number.value > 0.0 && estatura.number.value > 0.0
    ensures r.Some? ==> r == Compute(peso.number, estatura.number)
  {
    Compute(peso.number, estatura.number)
  }

  /** `handleSubmit`: refused while the weight, the height or the BMI text is
      empty; otherwise the screen moves on with the BMI. */
  function HandleSubmit(peso: Entry, estatura: Entry): (next: Option<real>)
    ensures next.Some? ==> peso.text != "" && estatura.text != ""
    ensures next.Some? ==> next == ShownImc(peso, estatura)
    ensures peso.text != "" && estatura.text != "" && ShownImc(peso, estatura).Some? ==> next.Some?
  {
    if peso.text == "" || estatura.text == "" || ShownImc(peso, estatura).None? then None
    else ShownImc(peso, estatura)
  }

  /** The two emptiness checks are implied by the third: submitting succeeds
      exactly when both parsed values are positive. */
  lemma SubmitIffPositive(peso: Entry, estatura: Entry)
    requires Parsed(peso) && Parsed(estatura)
    ensures HandleSubmit(peso, estatura).Some? <==>
      peso.number.Some? && estatura.number.Some? && peso.number.value > 0.0 && estatura.number.value > 0.0
  {
  }

  /** Text that is not a number blocks submission even though it is not
      empty. */
  lemma NonNumericBlocks()
    ensures HandleSubmit(Entry("setenta", None), Entry("175", Some(175.0))).None?
  {
  }
}
