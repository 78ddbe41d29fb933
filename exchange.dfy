/** An entry of an exchange's instrument catalog (`exchangeInfo`'s `symbols` list). */
module Exchange {

  datatype SymbolInfo = SymbolInfo(symbol: string, status: string, baseAsset: string, quoteAsset: string)

  /** The identifiers of the given catalog entries, in order. */
  function Symbols(items: seq<SymbolInfo>): (r: seq<string>)
    ensures |r| == |items|
    ensures forall i :: 0 <= i < |items| ==> r[i] == items[i].symbol
  {
    seq(|items|, i requires 0 <= i < |items| => items[i].symbol)
  }

  lemma SymbolsAppend(items: seq<SymbolInfo>, more: seq<SymbolInfo>)
    ensures Symbols(items + more) == Symbols(items) + Symbols(more)
  {
  }
}
