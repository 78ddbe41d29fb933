/**
 * The spot and futures fund-flow scan: the USDT pairs of each market (stablecoin
 * bases excluded), the second of the (at most two) 4-hour candles returned
 * for each pair from two days before the start of today, its net
 * inflow, and the top-20 inflow and outflow tables sent for interpretation.
 * Exchange answers are inputs; the worker pool is a completion order over the
 * submitted symbols.
 */
module FundFlow {
  import opened Wrappers
  import opened Exchange
  import opened Ranking
  import opened Batch

  /** The dollar and euro stablecoins whose USDT pairs are skipped. */
  const Stablecoins: set<string> := {"USDC", "TUSD", "BUSD", "DAI", "USDP", "EUR", "GYEN"}

  /** A pair the scan covers: trading, quoted in exactly USDT, and not a stablecoin pair. */
  predicate Listed(item: SymbolInfo)
  {
    item.status == "TRADING" && item.quoteAsset == "USDT" && item.baseAsset !in Stablecoins
  }

  /** The loop shared by both markets: the listed symbols, in catalog order. */
  method ListedSymbols(catalog: seq<SymbolInfo>) returns (symbols: seq<string>)
    ensures symbols == Symbols(Filter(catalog, Listed))
  {
    symbols := [];
    var k := 0;
    while k < |catalog|
      invariant 0 <= k <= |catalog|
      invariant symbols == Symbols(Filter(catalog[..k], Listed))
    {
      var item := catalog[k];
      assert catalog[..k + 1] == catalog[..k] + [item];
      FilterAppend(catalog[..k], [item], Listed);
      SymbolsAppend(Filter(catalog[..k], Listed), Filter([item], Listed));
      assert Filter([item], Listed) == Filter([], Listed) + (if Listed(item) then [item] else []);
      if Listed(item) {
        symbols := symbols + [item.symbol];
      }
      k := k + 1;
    }
    assert catalog[..k] == catalog;
  }

  /**
   * `get_all_usdt_symbols`: `catalog` is the market's `exchangeInfo` list
   * (spot or futures, chosen by `isFutures`); both branches filter alike.
   */
  method GetAllUsdtSymbols(catalog: seq<SymbolInfo>, isFutures: bool) returns (symbols: seq<string>)
    ensures symbols == Symbols(Filter(catalog, Listed))
  {
    if isFutures {
      symbols := ListedSymbols(catalog);
    } else {
      symbols := ListedSymbols(catalog);
    }
  }

  /**
   * What the listing keeps: a symbol is returned exactly when a listed catalog
   * entry carries it, so no returned pair is a stablecoin pair, and the list is
   * never longer than the catalog.
   */
  lemma ListedSymbolsExactly(catalog: seq<SymbolInfo>, s: string)
    ensures |Symbols(Filter(catalog, Listed))| <= |catalog|
    ensures s in Symbols(Filter(catalog, Listed)) <==>
      exists i :: 0 <= i < |catalog| && catalog[i].symbol == s && catalog[i].status == "TRADING"
        && catalog[i].quoteAsset == "USDT" && catalog[i].baseAsset !in Stablecoins
  {
    var kept := Filter(catalog, Listed);
    var r := Symbols(kept);
    if s in r {
      var k :| 0 <= k < |r| && r[k] == s;
      FilterMembership(catalog, Listed, kept[k]);
      var i :| 0 <= i < |catalog| && catalog[i] == kept[k];
      assert Listed(catalog[i]);
    } else {
      forall i | 0 <= i < |catalog| && Listed(catalog[i]) ensures catalog[i].symbol != s {
        FilterMembership(catalog, Listed, catalog[i]);
        var k :| 0 <= k < |kept| && kept[k] == catalog[i];
        assert r[k] == catalog[i].symbol;
      }
    }
  }

  /** A number as printed: `mantissa` followed by `suffix` ("M", "K" or nothing). */
  datatype Abbreviated = Abbreviated(mantissa: real, suffix: string)

  function Abs(v: real): real
  {
    if v < 0.0 then -v else v
  }

  /** What one unit of the suffix is worth. */
  function Scale(suffix: string): real
  {
    if suffix == "M" then 1000000.0 else if suffix == "K" then 1000.0 else 1.0
  }

  /** `format_number`, before rounding the mantissa to two decimals. */
  function FormatNumber(v: real): (r: Abbreviated)
    ensures r.suffix == "M" <==> Abs(v) >= 1000000.0
    ensures r.suffix == "K" <==> 1000.0 <= Abs(v) < 1000000.0
    ensures r.suffix == "" <==> Abs(v) < 1000.0
    ensures r.mantissa * Scale(r.suffix) == v
  {
    if Abs(v) >= 1000000.0 then Abbreviated(v / 1000000.0, "M")
    else if Abs(v) >= 1000.0 then Abbreviated(v / 1000.0, "K")
    else Abbreviated(v, "")
  }

  /** The unrounded mantissa: at least 1 in magnitude with a suffix, below 1000 unless in millions. */
  lemma FormatNumberMantissa(v: real)
    ensures var r := FormatNumber(v);
      && (r.suffix != "" ==> Abs(r.mantissa) >= 1.0)
      && (r.suffix != "M" ==> Abs(r.mantissa) < 1000.0)
  {
    var r := FormatNumber(v);
    if r.suffix == "M" {
      assert Abs(r.mantissa) * 1000000.0 == Abs(v);
    } else if r.suffix == "K" {
      assert Abs(r.mantissa) * 1000.0 == Abs(v);
    }
  }

  /** One candle as the exchange sends it (times are left out). */
  datatype Kline = Kline(
    open: real, high: real, low: real, close: real, volume: real,
    quoteVolume: real, trades: int, takerBuyBaseVolume: real, takerBuyQuoteVolume: real)

  /** The per-symbol result of `fetch_kline`. */
  datatype FlowRecord = FlowRecord(
    symbol: string,
    open: real, high: real, low: real, close: real, volume: real,
    quoteVolume: real, trades: int, takerBuyBaseVolume: real, takerBuyQuoteVolume: real,
    netInflow: real)

  /** Taker buys minus taker sells, in quote currency: buys - (total - buys). */
  function NetInflow(k: Kline): real
  {
    2.0 * k.takerBuyQuoteVolume - k.quoteVolume
  }

  /**
   * `fetch_kline`: `response` is the candle list, `None` when the request or
   * its decoding failed. With fewer than two candles there is no record;
   * otherwise the second candle returned is used (the request asks for at
   * most two, starting two days before the start of today).
   */
  function FetchKline(symbol: string, response: Option<seq<Kline>>): (r: Option<FlowRecord>)
    ensures r.Some? <==> response.Some? && |response.value| >= 2
    ensures r.Some? ==>
      var k := response.value[1];
      && r.value.symbol == symbol
      && r.value.quoteVolume == k.quoteVolume
      && r.value.takerBuyQuoteVolume == k.takerBuyQuoteVolume
      && r.value.netInflow + k.quoteVolume == 2.0 * k.takerBuyQuoteVolume
  {
    match response
    case None => None
    case Some(data) =>
      if |data| < 2 then None
      else
        var k := data[1];
        Some(FlowRecord(symbol, k.open, k.high, k.low, k.close, k.volume, k.quoteVolume, k.trades,
                        k.takerBuyBaseVolume, k.takerBuyQuoteVolume, NetInflow(k)))
  }

  /** Money flows in exactly when taker buying exceeds half the quote volume. */
  lemma NetInflowSign(k: Kline)
    ensures NetInflow(k) > 0.0 <==> k.takerBuyQuoteVolume > k.quoteVolume / 2.0
    ensures NetInflow(k) < 0.0 <==> k.takerBuyQuoteVolume < k.quoteVolume / 2.0
  {
  }

  /** Two worked cases: 700 of 1000 bought is an inflow of 400, 300 of 1000 an outflow of 400. */
  lemma NetInflowExamples()
    ensures NetInflow(Kline(0.0, 0.0, 0.0, 0.0, 0.0, 1000.0, 0, 0.0, 700.0)) == 400.0
    ensures NetInflow(Kline(0.0, 0.0, 0.0, 0.0, 0.0, 1000.0, 0, 0.0, 300.0)) == -400.0
  {
  }

  /** The outcome of every submitted symbol, in submission order. */
  function Fetched(symbols: seq<string>, responses: string -> Option<seq<Kline>>): (r: seq<Option<FlowRecord>>)
    ensures |r| == |symbols|
    ensures forall i :: 0 <= i < |symbols| ==> r[i] == FetchKline(symbols[i], responses(symbols[i]))
  {
    seq(|symbols|, i requires 0 <= i < |symbols| => FetchKline(symbols[i], responses(symbols[i])))
  }

  lemma CollectSnoc<T>(a: seq<Option<T>>, x: Option<T>)
    ensures Collect(a + [x]) == Collect(a) + (if x.Some? then [x.value] else [])
  {
    assert (a + [x])[..|a|] == a;
  }

  /** Taking one more finished task in completion order appends its record, if any. */
  lemma CollectNext<T>(fetched: seq<Option<T>>, completion: seq<nat>, k: nat)
    requires k < |completion|
    requires forall j :: 0 <= j < |completion| ==> completion[j] < |fetched|
    ensures var x := fetched[completion[k]];
      Collect(Reorder(fetched, completion[..k + 1]))
        == Collect(Reorder(fetched, completion[..k])) + (if x.Some? then [x.value] else [])
  {
    assert Reorder(fetched, completion[..k + 1]) == Reorder(fetched, completion[..k]) + [fetched[completion[k]]];
    CollectSnoc(Reorder(fetched, completion[..k]), fetched[completion[k]]);
  }

  /** Collecting in completion order gathers the same records as in submission order. */
  lemma CollectInCompletionOrder<T(!new)>(fetched: seq<Option<T>>, completion: seq<nat>)
    requires multiset(completion) == multiset(Indices(|fetched|))
    ensures forall j :: 0 <= j < |completion| ==> completion[j] < |fetched|
    ensures |completion| == |fetched|
    ensures multiset(Collect(Reorder(fetched, completion))) == multiset(Collect(fetched))
  {
    CompletionOrderPermutes(fetched, completion);
    CollectPermutation(Reorder(fetched, completion), fetched);
    assert |multiset(completion)| == |multiset(Indices(|fetched|))|;
  }

  /**
   * `get_klines_parallel`: the finished fetches arrive in `completion` order
   * (each submitted index exactly once); the records of the successful ones
   * are appended as they arrive.
   */
  method GetKlinesParallel(symbols: seq<string>, responses: string -> Option<seq<Kline>>,
                           completion: seq<nat>) returns (results: seq<FlowRecord>)
    requires multiset(completion) == multiset(Indices(|symbols|))
    ensures multiset(results) == multiset(Collect(Fetched(symbols, responses)))
    ensures |results| <= |symbols|
  {
    var fetched := Fetched(symbols, responses);
    CollectInCompletionOrder(fetched, completion);
    results := [];
    var k := 0;
    while k < |completion|
      invariant 0 <= k <= |completion|
      invariant results == Collect(Reorder(fetched, completion[..k]))
    {
      var result := FetchKline(symbols[completion[k]], responses(symbols[completion[k]]));
      CollectNext(fetched, completion, k);
      if result.Some? {
        results := results + [result.value];
      }
      k := k + 1;
    }
    assert completion[..k] == completion;
  }

  /** A collected record is the successful fetch of one of the submitted symbols. */
  lemma CollectedComeFromSymbols(symbols: seq<string>, responses: string -> Option<seq<Kline>>, x: FlowRecord)
    requires x in multiset(Collect(Fetched(symbols, responses)))
    ensures exists i ::
      && 0 <= i < |symbols| && x.symbol == symbols[i]
      && FetchKline(symbols[i], responses(symbols[i])) == Some(x)
  {
    var fetched := Fetched(symbols, responses);
    CollectMultiplicity(fetched, x);
    assert Some(x) in fetched;
    var i :| 0 <= i < |fetched| && fetched[i] == Some(x);
  }

  function NetInflowOf(r: FlowRecord): real
  {
    r.netInflow
  }

  /** The four tables of one run. */
  datatype FlowTables = FlowTables(
    spotInflow: seq<FlowRecord>, futuresInflow: seq<FlowRecord>,
    spotOutflow: seq<FlowRecord>, futuresOutflow: seq<FlowRecord>)

  /**
   * The top-20 inflow table (by net inflow, largest first) and the top-20
   * outflow table (smallest first) of one market's records.
   */
  function Top20(data: seq<FlowRecord>, inflow: bool): (r: seq<FlowRecord>)
    ensures |r| == Min(20, |data|)
    ensures multiset(r) <= multiset(data)
    ensures SortedBy(r, NetInflowOf, inflow)
    ensures forall x, y :: x in multiset(data) - multiset(r) && y in r ==> Precedes(y, x, NetInflowOf, inflow)
  {
    TopN(data, NetInflowOf, inflow, 20)
  }

  /**
   * `main_optimized` up to the interpretation request: list both markets,
   * fetch every pair, and build the four tables. A market with no records has
   * no `net_inflow` column to sort by, and the run stops (`None`).
   */
  method MainOptimized(spotCatalog: seq<SymbolInfo>, futuresCatalog: seq<SymbolInfo>,
                       spotResponses: string -> Option<seq<Kline>>, futuresResponses: string -> Option<seq<Kline>>,
                       spotCompletion: seq<nat>, futuresCompletion: seq<nat>) returns (tables: Option<FlowTables>)
    requires multiset(spotCompletion) == multiset(Indices(|Symbols(Filter(spotCatalog, Listed))|))
    requires multiset(futuresCompletion) == multiset(Indices(|Symbols(Filter(futuresCatalog, Listed))|))
    ensures var spot := Collect(Fetched(Symbols(Filter(spotCatalog, Listed)), spotResponses));
      var futures := Collect(Fetched(Symbols(Filter(futuresCatalog, Listed)), futuresResponses));
      && (tables.None? <==> spot == [] || futures == [])
      && (tables.Some? ==>
        && |tables.value.spotInflow| <= 20 && |tables.value.spotOutflow| <= 20
        && |tables.value.futuresInflow| <= 20 && |tables.value.futuresOutflow| <= 20
        && multiset(tables.value.spotInflow) <= multiset(spot)
        && multiset(tables.value.spotOutflow) <= multiset(spot)
        && multiset(tables.value.futuresInflow) <= multiset(futures)
        && multiset(tables.value.futuresOutflow) <= multiset(futures)
        && SortedBy(tables.value.spotInflow, NetInflowOf, true)
        && SortedBy(tables.value.futuresInflow, NetInflowOf, true)
        && SortedBy(tables.value.spotOutflow, NetInflowOf, false)
        && SortedBy(tables.value.futuresOutflow, NetInflowOf, false))
  {
    var spotSymbols := GetAllUsdtSymbols(spotCatalog, false);
    var futuresSymbols := GetAllUsdtSymbols(futuresCatalog, true);
    var spotData := GetKlinesParallel(spotSymbols, spotResponses, spotCompletion);
    var futuresData := GetKlinesParallel(futuresSymbols, futuresResponses, futuresCompletion);
    if spotData == [] || futuresData == [] {
      tables := None;
    } else {
      tables := Some(FlowTables(Top20(spotData, true), Top20(futuresData, true),
                                Top20(spotData, false), Top20(futuresData, false)));
    }
  }
}
