/**
 * Symbol resolution on the dashboard page: the fixed ticker table and the
 * normalisation (`trim()` then `toUpperCase()`) applied to what the user types.
 */
module Symbols {
  import opened Wrappers

  /** The five tickers the dashboard knows, with their CoinPaprika ids. */
  const SymbolToId: map<string, string> :=
    map["BTC" := "btc-bitcoin",
        "ETH" := "eth-ethereum",
        "SOL" := "sol-solana",
        "DOGE" := "doge-dogecoin",
        "XRP" := "xrp-xrp"]

  /**
   * `SYMBOL_TO_ID[name]` followed by the `!id` test: a ticker resolves exactly
   * when it is one of the five keys, and every id it resolves to is non-empty,
   * so the falsiness test rejects nothing but an absent key. This holds for a
   * name without lower-case letters, as every normalised name is: a JavaScript
   * object lookup also finds inherited keys such as `constructor`, and all of
   * those contain lower-case letters.
   */
  function LookupId(name: string): (r: Option<string>)
    ensures r.Some? <==> name == "BTC" || name == "ETH" || name == "SOL" || name == "DOGE" || name == "XRP"
    ensures r.Some? ==> r.value != "" && r.value == SymbolToId[name]
  {
    if name in SymbolToId then Some(SymbolToId[name]) else None
  }

  /** The characters JavaScript's `trim()` removes: WhiteSpace and LineTerminator. */
  predicate IsSpace(c: char) {
    c == '\t' || c == '\n' || c == '\U{000B}' || c == '\U{000C}' || c == '\r' || c == ' '
    || c == '\U{00A0}' || c == '\U{1680}' || ('\U{2000}' <= c <= '\U{200A}')
    || c == '\U{2028}' || c == '\U{2029}' || c == '\U{202F}' || c == '\U{205F}'
    || c == '\U{3000}' || c == '\U{FEFF}'
  }

  predicate AllSpace(s: string) {
    forall i :: 0 <= i < |s| ==> IsSpace(s[i])
  }

  /** Drops leading white space: the result is the longest suffix not starting with it. */
  function TrimStart(s: string): (r: string)
    ensures |r| <= |s| && r == s[|s| - |r|..]
    ensures AllSpace(s[..|s| - |r|])
    ensures r == [] || !IsSpace(r[0])
  {
    if s != [] && IsSpace(s[0]) then
      var r := TrimStart(s[1..]);
      forall i | 0 < i < |s| - |r|
        ensures IsSpace(s[i])
      {
        assert s[i] == s[1..][..|s| - 1 - |r|][i - 1];
      }
      r
    else
      s
  }

  /** Drops trailing white space: the result is the longest prefix not ending with it. */
  function TrimEnd(s: string): (r: string)
    ensures |r| <= |s| && r == s[..|r|]
    ensures AllSpace(s[|r|..])
    ensures r == [] || !IsSpace(r[|r| - 1])
  {
    if s != [] && IsSpace(s[|s| - 1]) then
      var r := TrimEnd(s[..|s| - 1]);
      forall i | |r| <= i < |s| - 1
        ensures IsSpace(s[i])
      {
        assert s[i] == s[..|s| - 1][|r|..][i - |r|];
      }
      r
    else
      s
  }

  /**
   * JavaScript's `String.prototype.trim`: the result is a slice of the text,
   * everything cut off on either side is white space, and the result neither
   * starts nor ends with white space.
   */
  function Trim(s: string): (r: string)
    ensures |r| <= |s|
    ensures exists k :: SliceBetweenSpace(s, r, k)
    ensures r == [] || (!IsSpace(r[0]) && !IsSpace(r[|r| - 1]))
  {
    var a := TrimStart(s);
    var r := TrimEnd(a);
    SliceOfSuffix(s, a, r);
    assert SliceBetweenSpace(s, r, |s| - |a|);
    r
  }

  /**
   * A prefix `r` of a suffix `a` of `s` is a slice of `s`; when what each step
   * cut off is white space, the slice has only white space around it.
   */
  lemma SliceOfSuffix(s: string, a: string, r: string)
    requires |r| <= |a| <= |s| && a == s[|s| - |a|..] && r == a[..|r|]
    requires AllSpace(s[..|s| - |a|]) && AllSpace(a[|r|..])
    ensures SliceBetweenSpace(s, r, |s| - |a|)
  {
    var k := |s| - |a|;
    assert r == s[k..k + |r|];
    forall i | k + |r| <= i < |s|
      ensures IsSpace(s[i])
    {
      assert s[i] == a[i - k] && s[i] == a[|r|..][i - k - |r|];
    }
  }

  /** `r` is the slice of `s` starting at `k`, with only white space around it. */
  predicate SliceBetweenSpace(s: string, r: string, k: int) {
    0 <= k <= |s| - |r| && r == s[k..k + |r|] && AllSpace(s[..k]) && AllSpace(s[k + |r|..])
  }

  /**
   * The upper-case mapping of one character, as far as it can matter for the
   * five tickers: ASCII letters, and the two non-ASCII letters whose upper case
   * is an ASCII letter (dotless i and long s).
   */
  function UpperChar(c: char): (r: char)
    ensures 'a' <= c <= 'z' ==> 'A' <= r <= 'Z' && r as int - 'A' as int == c as int - 'a' as int
    ensures c == '\U{0131}' ==> r == 'I'
    ensures c == '\U{017F}' ==> r == 'S'
    ensures !('a' <= r <= 'z')
    ensures IsSpace(r) <==> IsSpace(c)
    ensures !('a' <= c <= 'z') && c != '\U{0131}' && c != '\U{017F}' ==> r == c
  {
    if 'a' <= c <= 'z' then (c as int - 32) as char
    else if c == '\U{0131}' then 'I'
    else if c == '\U{017F}' then 'S'
    else c
  }

  /**
   * JavaScript's `String.prototype.toUpperCase`, character by character: no
   * lower-case ASCII letter survives.
   */
  function ToUpper(s: string): (r: string)
    ensures |r| == |s|
    ensures forall i :: 0 <= i < |s| ==> r[i] == UpperChar(s[i])
    ensures forall i :: 0 <= i < |r| ==> !('a' <= r[i] <= 'z')
  {
    seq(|s|, i requires 0 <= i < |s| => UpperChar(s[i]))
  }

  /**
   * `newToken.trim().toUpperCase()`: no longer than the text, free of
   * lower-case ASCII letters, and without white space at either end.
   */
  function Normalise(text: string): (r: string)
    ensures |r| <= |text|
    ensures forall i :: 0 <= i < |r| ==> !('a' <= r[i] <= 'z')
    ensures r == [] || (!IsSpace(r[0]) && !IsSpace(r[|r| - 1]))
  {
    ToUpper(Trim(text))
  }

  lemma {:induction false} TrimStartPadded(pre: string, core: string)
    requires AllSpace(pre)
    requires core == [] || !IsSpace(core[0])
    ensures TrimStart(pre + core) == core
  {
    if pre == [] {
      assert pre + core == core;
    } else {
      assert (pre + core)[1..] == pre[1..] + core;
      TrimStartPadded(pre[1..], core);
    }
  }

  lemma {:induction false} TrimEndPadded(core: string, post: string)
    requires AllSpace(post)
    requires core == [] || !IsSpace(core[|core| - 1])
    ensures TrimEnd(core + post) == core
  {
    if post == [] {
      assert core + post == core;
    } else {
      var s := core + post;
      assert s[..|s| - 1] == core + post[..|post| - 1];
      TrimEndPadded(core, post[..|post| - 1]);
    }
  }

  /** `trim()` removes exactly the white space around a text that has none at its ends. */
  lemma TrimPadded(pre: string, core: string, post: string)
    requires AllSpace(pre) && AllSpace(post)
    requires core == [] || (!IsSpace(core[0]) && !IsSpace(core[|core| - 1]))
    ensures Trim(pre + core + post) == core
  {
    assert pre + core + post == pre + (core + post);
    if core == [] {
      assert core + post == post;
      assert AllSpace(pre + post);
      TrimStartPadded(pre + post, []);
      assert pre + post + [] == pre + post;
      assert TrimEnd([]) == [];
    } else {
      TrimStartPadded(pre, core + post);
      TrimEndPadded(core, post);
    }
  }

  /**
   * Resolution ignores surrounding white space and letter case: any spelling
   * of a ticker whose upper case is one of the five keys, padded with white
   * space on either side, resolves to that key's id.
   */
  lemma PaddingAndCaseIgnored(pre: string, sym: string, post: string)
    requires AllSpace(pre) && AllSpace(post)
    requires ToUpper(sym) in SymbolToId
    ensures Normalise(pre + sym + post) == ToUpper(sym)
    ensures LookupId(Normalise(pre + sym + post)) == Some(SymbolToId[ToUpper(sym)])
  {
    var key := ToUpper(sym);
    assert key[0] == UpperChar(sym[0]) && key[|key| - 1] == UpperChar(sym[|sym| - 1]);
    TrimPadded(pre, sym, post);
  }

  /**
   * Letter case is ignored: a text of the same length as a key, each of
   * whose characters is either the key's character or its lower-case ASCII
   * form, upper-cases to that key and resolves to its id.
   */
  lemma CaseIgnored(sym: string, key: string)
    requires key in SymbolToId
    requires |sym| == |key|
    requires forall i :: 0 <= i < |sym| ==> sym[i] == key[i] || sym[i] as int == key[i] as int + 32
    ensures ToUpper(sym) == key
    ensures LookupId(ToUpper(sym)) == Some(SymbolToId[key])
  {
    assert forall i :: 0 <= i < |key| ==> 'A' <= key[i] <= 'Z';
    forall i | 0 <= i < |sym|
      ensures ToUpper(sym)[i] == key[i]
    {
      assert 'A' <= key[i] <= 'Z';
    }
  }

  /** The spelling " eth " of the text field resolves to ETH. */
  lemma LowerCasePaddedEth()
    ensures Normalise(" eth ") == "ETH"
    ensures LookupId(Normalise(" eth ")) == Some("eth-ethereum")
  {
    CaseIgnored("eth", "ETH");
    assert " eth " == " " + "eth" + " ";
    PaddingAndCaseIgnored(" ", "eth", " ");
  }
}
