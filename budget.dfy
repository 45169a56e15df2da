/** The stand-alone budget page: a budget and the text field that adds to it. */
module Budget {
  import opened Wrappers

  class BudgetPage {
    var budget: real
    var input: string

    /** The initial `useState` values. */
    constructor ()
      ensures budget == 0.0 && input == ""
    {
      budget, input := 0.0, "";
    }

    /** Typing into the amount field. */
    method EditInput(text: string)
      modifies this`input
      ensures input == text
    {
      input := text;
    }

    /**
     * `handleSetBudget`: any number, zero and negatives included, is added to
     * the budget and the field is cleared; text that parses to NaN changes
     * nothing.
     */
    method SetBudget(parse: string -> Option<real>)
      modifies this
      ensures parse(old(input)).None? ==> budget == old(budget) && input == old(input)
      ensures parse(old(input)).Some? ==> budget == old(budget) + parse(old(input)).value && input == ""
    {
      var value := parse(input);
      if value.Some? {
        budget := budget + value.value;
        input := "";
      }
    }
  }

  /** Zero and negative amounts are accepted: the budget can go below zero. */
  method ExampleNegativeDeposit() {
    var parse: string -> Option<real> := s => if s == "-500" then Some(-500.0) else if s == "0" then Some(0.0) else None;
    var page := new BudgetPage();
    page.EditInput("0");
    page.SetBudget(parse);
    assert page.budget == 0.0 && page.input == "";
    page.EditInput("-500");
    page.SetBudget(parse);
    assert page.budget == -500.0 && page.input == "";
    page.EditInput("abc");
    page.SetBudget(parse);
    assert page.budget == -500.0 && page.input == "abc";
  }
}
