/** Resolving a token symbol to a token (hooks/use-token-from-symbol.ts): the token-list
    tokens followed by the system tokens are searched for the first whose symbol equals the
    query case-insensitively; the lookup only runs for a non-empty symbol. */
module TokenFromSymbol {
  import opened Common

  /** The parts of an Agni SDK token the widgets read. */
  datatype Token = Token(address: string, symbol: Option<string>, decimals: nat, isNative: bool, logoURI: string)

  /** A react-query query: disabled, or run to an outcome. */
  datatype Query<+T> = Disabled | Ran(result: Outcome<T>)

  function LowerChar(c: char): (r: char)
    ensures 'A' <= c <= 'Z' ==> r as int == c as int + 32
    ensures !('A' <= c <= 'Z') ==> r == c
  {
    if 'A' <= c <= 'Z' then (c as int + 32) as char else c
  }

  /** `toLowerCase` on ASCII letters. */
  function ToLower(s: string): (r: string)
    ensures |r| == |s|
    ensures forall i :: 0 <= i < |s| ==> r[i] == LowerChar(s[i])
  {
    seq(|s|, i requires 0 <= i < |s| => LowerChar(s[i]))
  }

  /** A token matches a query when it has a symbol equal to the query up to letter case. */
  predicate SymbolMatches(t: Token, query: string) {
    t.symbol.Some? && ToLower(t.symbol.value) == ToLower(query)
  }

  /** The index of the first matching token. */
  function FirstMatch(tokens: seq<Token>, query: string): (r: Option<nat>)
    ensures r.Some? ==> r.value < |tokens| && SymbolMatches(tokens[r.value], query)
    ensures r.Some? ==> forall j :: 0 <= j < r.value ==> !SymbolMatches(tokens[j], query)
    ensures r.None? <==> forall j :: 0 <= j < |tokens| ==> !SymbolMatches(tokens[j], query)
  {
    if tokens == [] then None
    else if SymbolMatches(tokens[0], query) then Some(0)
    else match FirstMatch(tokens[1..], query)
      case None => None
      case Some(i) => Some(i + 1)
  }

  /** `tokens.find(...) || null`, None standing for null. */
  function FindBySymbol(tokens: seq<Token>, query: string): (r: Option<Token>)
    ensures r.Some? ==> r.value.symbol.Some? && SymbolMatches(r.value, query) && r.value in tokens
    ensures r.None? <==> forall t :: t in tokens ==> !SymbolMatches(t, query)
  {
    match FirstMatch(tokens, query)
    case None => None
    case Some(i) => Some(tokens[i])
  }

  /** Searching a concatenation finds in the first list whenever the first list has a
      match, and otherwise searches the second list. */
  lemma {:induction false} FindConcat(a: seq<Token>, b: seq<Token>, query: string)
    ensures FindBySymbol(a + b, query) ==
      if FindBySymbol(a, query).Some? then FindBySymbol(a, query) else FindBySymbol(b, query)
  {
    if a == [] {
      assert a + b == b;
    } else {
      assert (a + b)[0] == a[0];
      assert (a + b)[1..] == a[1..] + b;
      FindConcat(a[1..], b, query);
    }
  }

  /** The query `useTokenFromSymbol` runs: fetch the token list, append the system tokens,
      search them. A failed fetch fails the query. */
  function LookupSymbol(symbol: Option<string>, tokenList: Outcome<seq<Token>>, systemTokens: seq<Token>): (r: Query<Option<Token>>)
    ensures r.Disabled? <==> !Truthy(symbol)
    ensures Truthy(symbol) && tokenList.Threw? ==> r == Ran(Threw(tokenList.error))
    ensures r.Ran? && r.result.Done? && r.result.value.Some? ==> SymbolMatches(r.result.value.value, symbol.value)
    // a token-list entry wins over a system token with the same symbol
    ensures Truthy(symbol) && tokenList.Done? && FindBySymbol(tokenList.value, symbol.value).Some? ==>
      r == Ran(Done(FindBySymbol(tokenList.value, symbol.value)))
    ensures Truthy(symbol) && tokenList.Done? && FindBySymbol(tokenList.value, symbol.value).None? ==>
      r == Ran(Done(FindBySymbol(systemTokens, symbol.value)))
  {
    if !Truthy(symbol) then Disabled
    else match tokenList
      case Threw(e) => Ran(Threw(e))
      case Done(list) =>
        FindConcat(list, systemTokens, symbol.value);
        Ran(Done(FindBySymbol(list + systemTokens, symbol.value)))
  }

  /** "mnt" finds a token whose symbol is "MNT"; a token without a symbol is never found. */
  lemma CaseInsensitiveMatch(t: Token, u: Token)
    requires t.symbol == Some("MNT") && u.symbol.None?
    ensures FindBySymbol([u, t], "mnt") == Some(t)
  {
    assert ToLower("MNT") == "mnt";
    assert ToLower("mnt") == "mnt";
    assert FirstMatch([u, t], "mnt") == Some(1) by {
      assert [u, t][1..] == [t];
    }
  }
}
