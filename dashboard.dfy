/**
 * The state of the dashboard page and its event handlers, each taken as one
 * atomic transition. `parseFloat` is a parameter: it maps the text of an input
 * field to a number, or to None where JavaScript would produce NaN.
 */
module Dashboard {
  import opened Wrappers
  import opened Symbols
  import opened Positions

  class DashboardPage {
    var budget: real
    var input: string
    var tokens: seq<Token>
    var newToken: string
    var investmentInputs: map<string, string>

    ghost predicate Valid()
      reads this
    {
      WellFormed(tokens)
    }

    /** The initial `useState` values. */
    constructor ()
      ensures Valid()
      ensures budget == 0.0 && input == "" && tokens == [] && newToken == "" && investmentInputs == map[]
    {
      budget, input, tokens, newToken, investmentInputs := 0.0, "", [], "", map[];
    }

    /** Typing into the budget field. */
    method EditInput(text: string)
      requires Valid()
      modifies this`input
      ensures Valid()
      ensures input == text
    {
      input := text;
    }

    /** Typing into the new-token field. */
    method EditNewToken(text: string)
      requires Valid()
      modifies this`newToken
      ensures Valid()
      ensures newToken == text
    {
      newToken := text;
    }

    /** Typing into the amount field of one token's row. */
    method EditInvestmentInput(name: string, text: string)
      requires Valid()
      modifies this`investmentInputs
      ensures Valid()
      ensures investmentInputs == old(investmentInputs)[name := text]
    {
      investmentInputs := investmentInputs[name := text];
    }

    /**
     * `handleAddBudget`: a number is added to the budget, whatever its sign,
     * and the field is cleared; text that parses to NaN changes nothing.
     */
    method AddBudget(parse: string -> Option<real>)
      requires Valid()
      modifies this`budget, this`input
      ensures Valid()
      ensures parse(old(input)).None? ==> budget == old(budget) && input == old(input)
      ensures parse(old(input)).Some? ==> budget == old(budget) + parse(old(input)).value && input == ""
    {
      var value := parse(input);
      if value.Some? {
        budget := budget + value.value;
        input := "";
      }
    }

    /**
     * `handleAddToken`: the typed text is trimmed and upper-cased; a known
     * ticker not yet tracked is appended as a fresh entry and the field is
     * cleared, and that entry is returned as the one whose price fetch starts.
     * Anything else changes nothing and starts no fetch.
     */
    method AddToken() returns (fetching: Option<Token>)
      requires Valid()
      modifies this`tokens, this`newToken
      ensures Valid()
      ensures tokens == Added(old(tokens), old(newToken))
      ensures var name := Normalise(old(newToken));
        if LookupId(name).Some? && !Tracked(old(tokens), name) then
          && fetching == Some(Token(name, SymbolToId[name], 0.0, None))
          && tokens == old(tokens) + [fetching.value]
          && newToken == ""
        else
          fetching == None && tokens == old(tokens) && newToken == old(newToken)
    {
      var name := Normalise(newToken);
      var id := LookupId(name);
      AddedKeeps(tokens, newToken);
      if id.None? || Tracked(tokens, name) {
        return None;
      }
      var entry := NewEntry(name, id.value);
      tokens := tokens + [entry];
      newToken := "";
      fetching := Some(entry);
    }

    /**
     * `handleInvest(name)`: an amount that is NaN, not positive or above the
     * budget is ignored; otherwise it moves from the budget into the named
     * token and that token's field is cleared. For a tracked name the funds
     * are conserved, and a non-negative budget stays non-negative.
     */
    method Invest(name: string, parse: string -> Option<real>)
      requires Valid()
      modifies this`budget, this`tokens, this`investmentInputs
      ensures Valid()
      ensures var v := if name in old(investmentInputs) then parse(old(investmentInputs)[name]) else None;
        if v.None? || v.value <= 0.0 || v.value > old(budget) then
          budget == old(budget) && tokens == old(tokens) && investmentInputs == old(investmentInputs)
        else
          && budget == old(budget) - v.value
          && tokens == Credited(old(tokens), name, v.value)
          && investmentInputs == old(investmentInputs)[name := ""]
      ensures Tracked(old(tokens), name) ==> budget + TotalInvested(tokens) == old(budget) + TotalInvested(old(tokens))
      ensures old(budget) >= 0.0 ==> budget >= 0.0
    {
      // A name with no entry reads as `undefined`, which parses to NaN.
      var value := if name in investmentInputs then parse(investmentInputs[name]) else None;
      if value.None? || value.value <= 0.0 || value.value > budget {
        return;
      }
      CreditedWellFormed(tokens, name, value.value);
      if Tracked(tokens, name) {
        InvestConserves(budget, tokens, name, value.value);
      }
      tokens := Credited(tokens, name, value.value);
      budget := budget - value.value;
      investmentInputs := investmentInputs[name := ""];
    }

    /**
     * The update made by `fetchTokenPriceAndSet(token)` once its fetch
     * settles: the price (None for a `null` result) replaces whatever the
     * entry with that name held; nothing else changes.
     */
    method ReceivePrice(token: Token, price: Option<real>)
      requires Valid()
      modifies this`tokens
      ensures Valid()
      ensures tokens == Repriced(old(tokens), token.name, price)
      ensures TotalInvested(tokens) == TotalInvested(old(tokens))
    {
      RepricedWellFormed(tokens, token.name, price);
      RepricedTotal(tokens, token.name, price);
      tokens := Repriced(tokens, token.name, price);
    }
  }

  /** A fresh page on which a text that normalises to ETH (" eth ", by `LowerCasePaddedEth`) is added. */
  method ExampleAddToken(text: string) returns (page: DashboardPage)
    requires Normalise(text) == "ETH"
    ensures fresh(page) && page.Valid()
    ensures page.budget == 0.0 && page.tokens == [Token("ETH", "eth-ethereum", 0.0, None)]
  {
    page := new DashboardPage();
    assert LookupId("ETH") == Some("eth-ethereum");
    assert !Tracked(page.tokens, "ETH");
    page.EditNewToken(text);
    var fetching := page.AddToken();
  }

  /** The start of a session: add such a text, then add 100 to the budget. */
  method ExampleFunding(text: string) returns (page: DashboardPage)
    requires Normalise(text) == "ETH"
    ensures fresh(page) && page.Valid()
    ensures page.budget == 100.0 && page.tokens == [Token("ETH", "eth-ethereum", 0.0, None)]
  {
    page := ExampleAddToken(text);
    page.EditInput("100");
    page.AddBudget(s => if s == "100" then Some(100.0) else None);
  }

  /** The session continued: invest 40 of the 100 in ETH. */
  method ExampleInvest(text: string)
    requires Normalise(text) == "ETH"
  {
    var page := ExampleFunding(text);
    page.EditInvestmentInput("ETH", "40");
    page.Invest("ETH", s => if s == "40" then Some(40.0) else None);
    assert page.budget == 60.0 && page.tokens[0].invested == 40.0;
    assert page.investmentInputs["ETH"] == "";
  }

  /**
   * Adding ETH a second time, under any spelling, changes nothing; when the
   * fetch started by the first add fails, the entry stays without a price.
   */
  method ExampleDuplicateAdd(text: string, other: string)
    requires Normalise(text) == "ETH" && Normalise(other) == "ETH"
  {
    var page := ExampleFunding(text);
    var entry := page.tokens[0];
    assert Tracked(page.tokens, "ETH");
    page.EditNewToken(other);
    var again := page.AddToken();
    assert again == None && page.tokens == [entry] && page.newToken == other;

    page.ReceivePrice(entry, None);
    assert page.tokens == [Token("ETH", "eth-ethereum", 0.0, None)];
  }
}
