/**
 * The token list of the dashboard page and the pure updaters its handlers pass
 * to `setTokens`: appending a new entry, crediting an investment, and storing
 * a fetched price.
 */
module Positions {
  import opened Wrappers
  import opened Symbols

  /** One tracked token; `price` is absent until a fetch has delivered one. */
  datatype Token = Token(name: string, id: string, invested: real, price: Option<real>)

  /** `tokens.some((t) => t.name === name)`: some entry carries the name, exactly when it occurs at all. */
  predicate Tracked(ts: seq<Token>, name: string)
    ensures Tracked(ts, name) <==> Occurrences(ts, name) > 0
  {
    OccursSomewhere(ts, name);
    exists i :: 0 <= i < |ts| && ts[i].name == name
  }

  lemma {:induction false} OccursSomewhere(ts: seq<Token>, name: string)
    ensures Occurrences(ts, name) > 0 <==> exists i :: 0 <= i < |ts| && ts[i].name == name
  {
    if ts != [] {
      OccursSomewhere(ts[1..], name);
      if exists i :: 0 <= i < |ts| && ts[i].name == name {
        var i :| 0 <= i < |ts| && ts[i].name == name;
        if i > 0 {
          assert ts[1..][i - 1].name == name;
        }
      }
      if exists i :: 0 <= i < |ts[1..]| && ts[1..][i].name == name {
        var i :| 0 <= i < |ts[1..]| && ts[1..][i].name == name;
        assert ts[i + 1].name == name;
      }
    }
  }

  predicate NamesDistinct(ts: seq<Token>) {
    forall i, j :: 0 <= i < j < |ts| ==> ts[i].name != ts[j].name
  }

  /**
   * What every reachable token list satisfies: names are pairwise distinct,
   * each name is a known ticker carrying that ticker's id, and no amount
   * invested is negative.
   */
  predicate WellFormed(ts: seq<Token>) {
    && NamesDistinct(ts)
    && forall i :: 0 <= i < |ts| ==>
         ts[i].name in SymbolToId && ts[i].id == SymbolToId[ts[i].name] && ts[i].invested >= 0.0
  }

  /** How many entries carry the given name. */
  function Occurrences(ts: seq<Token>, name: string): nat {
    if ts == [] then 0
    else (if ts[0].name == name then 1 else 0) + Occurrences(ts[1..], name)
  }

  /** The names in the list, as a set. */
  function Names(ts: seq<Token>): set<string> {
    if ts == [] then {} else {ts[0].name} + Names(ts[1..])
  }

  /** The sum of `invested` over all entries. */
  function TotalInvested(ts: seq<Token>): real {
    if ts == [] then 0.0 else ts[0].invested + TotalInvested(ts[1..])
  }

  /**
   * The new entry `{ name, id, invested: 0 }` built by `handleAddToken`:
   * nothing invested, no price yet, and on its own a well-formed list when
   * the id is the one the name resolves to.
   */
  function NewEntry(name: string, id: string): (r: Token)
    ensures r.name == name && r.id == id && r.invested == 0.0 && r.price.None?
    ensures LookupId(name) == Some(id) ==> WellFormed([r])
  {
    Token(name, id, 0.0, None)
  }

  /**
   * The effect of `handleAddToken` on the list for the typed text: the
   * normalised ticker is appended when it resolves and is not yet tracked;
   * otherwise the list is returned as it was. Either way the earlier entries
   * stay as they were, and at most one entry is added, at the end.
   */
  function Added(ts: seq<Token>, text: string): (r: seq<Token>)
    ensures |ts| <= |r| <= |ts| + 1 && r[..|ts|] == ts
    ensures |r| == |ts| + 1 <==> LookupId(Normalise(text)).Some? && !Tracked(ts, Normalise(text))
    ensures |r| == |ts| + 1 ==> r[|ts|] == NewEntry(Normalise(text), SymbolToId[Normalise(text)])
  {
    var name := Normalise(text);
    var id := LookupId(name);
    if id.None? || Tracked(ts, name) then
      assert ts[..|ts|] == ts;
      ts
    else
      var r := ts + [NewEntry(name, id.value)];
      assert r[..|ts|] == ts;
      r
  }

  /**
   * The `handleInvest` updater: `prev.map(...)` adding `v` to the `invested`
   * of every entry named `name`. Entries with another name are returned
   * untouched, and the named ones change in `invested` alone.
   */
  function Credited(ts: seq<Token>, name: string, v: real): (r: seq<Token>)
    ensures |r| == |ts|
    ensures forall i :: 0 <= i < |ts| && ts[i].name != name ==> r[i] == ts[i]
    ensures forall i :: 0 <= i < |ts| && ts[i].name == name ==>
              r[i].name == name && r[i].id == ts[i].id && r[i].price == ts[i].price
              && r[i].invested == ts[i].invested + v
  {
    if ts == [] then []
    else
      var t := ts[0];
      [if t.name == name then t.(invested := t.invested + v) else t] + Credited(ts[1..], name, v)
  }

  /**
   * The updater inside `fetchTokenPriceAndSet`: `prev.map(...)` storing the
   * fetched price (or its absence, for a `null` result) in every entry named
   * `name`. Entries with another name are untouched, and the named ones change
   * in `price` alone, whatever price they held before.
   */
  function Repriced(ts: seq<Token>, name: string, price: Option<real>): (r: seq<Token>)
    ensures |r| == |ts|
    ensures forall i :: 0 <= i < |ts| && ts[i].name != name ==> r[i] == ts[i]
    ensures forall i :: 0 <= i < |ts| && ts[i].name == name ==>
              r[i].name == name && r[i].id == ts[i].id && r[i].invested == ts[i].invested
              && r[i].price == price
  {
    if ts == [] then []
    else
      var t := ts[0];
      [if t.name == name then t.(price := price) else t] + Repriced(ts[1..], name, price)
  }

  /** In a list with distinct names, a name occurs once if tracked and never otherwise. */
  lemma {:induction false} DistinctOccurrences(ts: seq<Token>, name: string)
    requires NamesDistinct(ts)
    ensures Occurrences(ts, name) == if Tracked(ts, name) then 1 else 0
  {
    if ts != [] {
      DistinctOccurrences(ts[1..], name);
      if ts[0].name == name {
        assert !Tracked(ts[1..], name);
      }
      assert Tracked(ts, name) <==> ts[0].name == name || Tracked(ts[1..], name) by {
        if Tracked(ts[1..], name) {
          var i :| 0 <= i < |ts[1..]| && ts[1..][i].name == name;
          assert ts[i + 1].name == name;
        }
      }
    }
  }

  /** A list with distinct names has as many names as entries. */
  lemma {:induction false} DistinctNamesCount(ts: seq<Token>)
    requires NamesDistinct(ts)
    ensures |Names(ts)| == |ts|
    ensures forall n :: n in Names(ts) <==> Tracked(ts, n)
  {
    if ts != [] {
      DistinctNamesCount(ts[1..]);
      assert ts[0].name !in Names(ts[1..]);
      forall n ensures n in Names(ts) <==> Tracked(ts, n) {
        if Tracked(ts, n) && ts[0].name != n {
          var i :| 0 <= i < |ts| && ts[i].name == n;
          assert ts[1..][i - 1].name == n;
        }
      }
    }
  }

  /** The ticker table has five distinct keys. */
  lemma FiveTickers()
    ensures |SymbolToId.Keys| == 5
  {
  }

  /** Since names are distinct known tickers, at most five tokens are ever tracked. */
  lemma AtMostFiveTokens(ts: seq<Token>)
    requires WellFormed(ts)
    ensures |ts| <= 5
  {
    DistinctNamesCount(ts);
    var names, keys := Names(ts), SymbolToId.Keys;
    assert names <= keys;
    assert keys == names + (keys - names) && names * (keys - names) == {};
    FiveTickers();
  }

  lemma {:induction false} TotalInvestedAppend(ts: seq<Token>, t: Token)
    ensures TotalInvested(ts + [t]) == TotalInvested(ts) + t.invested
  {
    if ts != [] {
      assert (ts + [t])[1..] == ts[1..] + [t];
      TotalInvestedAppend(ts[1..], t);
    }
  }

  /** Crediting `v` to a name adds `v` to the total once per entry with that name. */
  lemma {:induction false} CreditedTotal(ts: seq<Token>, name: string, v: real)
    ensures TotalInvested(Credited(ts, name, v)) == TotalInvested(ts) + v * (Occurrences(ts, name) as real)
  {
    if ts != [] {
      var c, rest := Credited(ts, name, v), Credited(ts[1..], name, v);
      assert c == [c[0]] + rest;
      assert c[1..] == rest;
      CreditedTotal(ts[1..], name, v);
      var k := Occurrences(ts[1..], name) as real;
      if ts[0].name == name {
        assert Occurrences(ts, name) as real == 1.0 + k;
        assert v * (1.0 + k) == v + v * k;
      }
    }
  }

  lemma {:induction false} RepricedTotal(ts: seq<Token>, name: string, price: Option<real>)
    ensures TotalInvested(Repriced(ts, name, price)) == TotalInvested(ts)
  {
    if ts != [] {
      RepricedTotal(ts[1..], name, price);
    }
  }

  /**
   * Conservation of funds: moving `v` from the budget into a tracked token
   * leaves `budget + Σ invested` unchanged.
   */
  lemma InvestConserves(budget: real, ts: seq<Token>, name: string, v: real)
    requires NamesDistinct(ts) && Tracked(ts, name)
    ensures (budget - v) + TotalInvested(Credited(ts, name, v)) == budget + TotalInvested(ts)
  {
    CreditedTotal(ts, name, v);
    DistinctOccurrences(ts, name);
  }

  /**
   * Investing into a name nobody tracks credits nobody: the amount leaves the
   * ledger. The page never makes such a call, since it invests only through
   * the rows of tracked tokens; this is why conservation is stated for
   * tracked names.
   */
  lemma InvestUntrackedLoses(budget: real, ts: seq<Token>, name: string, v: real)
    requires !Tracked(ts, name)
    ensures Credited(ts, name, v) == ts
    ensures (budget - v) + TotalInvested(Credited(ts, name, v)) == budget + TotalInvested(ts) - v
  {
  }

  lemma CreditedWellFormed(ts: seq<Token>, name: string, v: real)
    requires WellFormed(ts) && v >= 0.0
    ensures WellFormed(Credited(ts, name, v))
  {
  }

  lemma RepricedWellFormed(ts: seq<Token>, name: string, price: Option<real>)
    requires WellFormed(ts)
    ensures WellFormed(Repriced(ts, name, price))
  {
  }

  /**
   * Adding a token keeps the list well formed and the total invested as it
   * was, and afterwards the normalised name is tracked exactly when it
   * resolves or was tracked already.
   */
  lemma AddedKeeps(ts: seq<Token>, text: string)
    requires WellFormed(ts)
    ensures WellFormed(Added(ts, text))
    ensures TotalInvested(Added(ts, text)) == TotalInvested(ts)
    ensures Tracked(Added(ts, text), Normalise(text)) <==> LookupId(Normalise(text)).Some? || Tracked(ts, Normalise(text))
  {
    var name := Normalise(text);
    var r := Added(ts, text);
    if LookupId(name).Some? && !Tracked(ts, name) {
      var e := NewEntry(name, LookupId(name).value);
      TotalInvestedAppend(ts, e);
      assert r[|ts|] == e;
      forall i, j | 0 <= i < j < |r| ensures r[i].name != r[j].name {
        if j == |ts| {
          assert ts[i].name != name;
        } else {
          assert r[i] == ts[i] && r[j] == ts[j];
        }
      }
    }
  }

  /** Adding the same text twice tracks it once: the second add is a no-op. */
  lemma AddedTwiceOnce(ts: seq<Token>, text: string)
    requires WellFormed(ts)
    ensures Added(Added(ts, text), text) == Added(ts, text)
    ensures LookupId(Normalise(text)).Some? ==> Occurrences(Added(Added(ts, text), text), Normalise(text)) == 1
  {
    AddedKeeps(ts, text);
    DistinctOccurrences(Added(ts, text), Normalise(text));
  }
}
