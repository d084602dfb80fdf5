/** The fixed asset universe of the trader and the names it derives from a symbol. */
module Assets {

  datatype Option<+T> = None | Some(value: T)

  /** An asset symbol as the trader writes it, e.g. "BTC". */
  type Symbol = string

  /** The fixed asset list, in the order every evaluation walks it. */
  const Symbols: seq<Symbol> := ["BTC", "ETH", "XRP"]

  /** The same assets as a set: the keys of the portfolio. */
  const AllSymbols: set<Symbol> := {"BTC", "ETH", "XRP"}

  /** The market-data ticker of a symbol, "BTC" to "BTC-USD". */
  function Ticker(s: Symbol): string
  {
    s + "-USD"
  }

  /** The venue's trading pair of a symbol, "BTC" to "BTC/USD". */
  function Pair(s: Symbol): (p: string)
    ensures |p| == |s| + 4 && p[..|s|] == s
  {
    s + "/USD"
  }

  predicate Distinct<T(==)>(xs: seq<T>)
  {
    forall i, j :: 0 <= i < j < |xs| ==> xs[i] != xs[j]
  }

  lemma SymbolsAreTheAssets()
    ensures Distinct(Symbols)
    ensures forall s :: s in Symbols <==> s in AllSymbols
  {
  }
}
