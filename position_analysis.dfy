/**
 * The futures position analysis: the USDT-margined symbol list, the open
 * interest change of each symbol over the last four hours, the table of all
 * symbols, and the market summary (counts and top-10 movers) handed to the
 * report writer. Every exchange response is an input: `None` stands for a
 * request, decoding or lookup that raised.
 */
module PositionAnalysis {
  import opened Wrappers
  import opened Exchange
  import opened Ranking

  /** One row of the position table. */
  datatype PositionRecord = PositionRecord(
    symbol: string,
    currentOi: real,
    historicalOi: real,
    change: real,
    changePercentage: real)

  predicate EndsWithUsdt(s: string)
  {
    |s| >= 4 && s[|s| - 4..] == "USDT"
  }

  /** A futures contract worth analysing: quoted in USDT (by name) and trading. */
  predicate Tradable(item: SymbolInfo)
  {
    EndsWithUsdt(item.symbol) && item.status == "TRADING"
  }

  /** `get_usdt_symbols`: `catalog` is the decoded symbol list, `None` when the request failed. */
  function UsdtSymbols(catalog: Option<seq<SymbolInfo>>): (r: seq<string>)
    ensures catalog.None? ==> r == []
    ensures catalog.Some? ==> |r| <= |catalog.value|
  {
    match catalog
    case None => []
    case Some(items) => Symbols(Filter(items, Tradable))
  }

  /** A symbol is listed exactly when some tradable catalog entry carries it. */
  lemma UsdtSymbolsMembership(items: seq<SymbolInfo>, s: string)
    ensures s in UsdtSymbols(Some(items)) <==>
      exists i :: 0 <= i < |items| && Tradable(items[i]) && items[i].symbol == s
  {
    var kept := Filter(items, Tradable);
    var r := UsdtSymbols(Some(items));
    if s in r {
      var k :| 0 <= k < |r| && r[k] == s;
      FilterMembership(items, Tradable, kept[k]);
      var i :| 0 <= i < |items| && items[i] == kept[k];
    } else {
      forall i | 0 <= i < |items| && Tradable(items[i]) ensures items[i].symbol != s {
        FilterMembership(items, Tradable, items[i]);
        var k :| 0 <= k < |kept| && kept[k] == items[i];
        assert r[k] == items[i].symbol;
      }
    }
  }

  /** The list follows catalog order: listing a concatenated catalog concatenates the lists. */
  lemma UsdtSymbolsInCatalogOrder(front: seq<SymbolInfo>, back: seq<SymbolInfo>)
    ensures UsdtSymbols(Some(front + back)) == UsdtSymbols(Some(front)) + UsdtSymbols(Some(back))
  {
    FilterAppend(front, back, Tradable);
    SymbolsAppend(Filter(front, Tradable), Filter(back, Tradable));
  }

  function ZeroRecord(symbol: string): PositionRecord
  {
    PositionRecord(symbol, 0.0, 0.0, 0.0, 0.0)
  }

  /**
   * `get_position_data`: `current` is the live open interest, `history` the
   * hourly open-interest points up to four hours ago (only the first is read).
   * Any failure yields the all-zero record for the symbol.
   */
  function PositionData(symbol: string, current: Option<real>, history: Option<seq<real>>): (r: PositionRecord)
    ensures r.symbol == symbol
    ensures (current.None? || history.None?) ==> r == ZeroRecord(symbol)
    ensures current.Some? && history.Some? ==>
      && r.currentOi == current.value
      && r.historicalOi == (if history.value == [] then 0.0 else history.value[0])
      && r.currentOi == r.historicalOi + r.change
      && (r.historicalOi != 0.0 ==> r.changePercentage * r.historicalOi == r.change * 100.0)
      && (r.historicalOi == 0.0 ==> r.changePercentage == 0.0)
  {
    match (current, history)
    case (Some(now), Some(points)) =>
      var past := if points == [] then 0.0 else points[0];
      var change := now - past;
      var pct := if past != 0.0 then change / past * 100.0 else 0.0;
      PositionRecord(symbol, now, past, change, pct)
    case _ => ZeroRecord(symbol)
  }

  /**
   * Against a positive baseline the percentage has the sign of the change,
   * and the change is positive exactly when open interest grew.
   */
  lemma ChangeSign(symbol: string, current: real, history: seq<real>)
    requires history != [] && history[0] > 0.0
    ensures var r := PositionData(symbol, Some(current), Some(history));
      && (r.change > 0.0 <==> current > history[0])
      && (r.changePercentage > 0.0 <==> r.change > 0.0)
      && (r.changePercentage < 0.0 <==> r.change < 0.0)
  {
    var r := PositionData(symbol, Some(current), Some(history));
    var h := history[0];
    assert r.changePercentage == (r.change / h) * 100.0;
    QuotientSign(r.change, h);
  }

  lemma QuotientSign(x: real, h: real)
    requires h > 0.0
    ensures (x / h > 0.0 <==> x > 0.0) && (x / h < 0.0 <==> x < 0.0)
  {
    assert (x / h) * h == x;
    if x / h > 0.0 { assert (x / h) * h > 0.0; }
    if x / h < 0.0 { assert (x / h) * h < 0.0; }
  }

  /** A symbol whose data could not be fetched counts as neither increased nor decreased. */
  lemma FailedFetchIsNeutral(symbol: string, current: Option<real>, history: Option<seq<real>>)
    requires current.None? || history.None?
    ensures !Increased(PositionData(symbol, current, history))
    ensures !Decreased(PositionData(symbol, current, history))
  {
  }

  /**
   * `analyze_positions`: one record per listed symbol, collected in the order
   * the symbols were submitted. `currentOi` and `historyOi` are the two
   * per-symbol exchange answers.
   */
  method AnalyzePositions(catalog: Option<seq<SymbolInfo>>, currentOi: string -> Option<real>,
                          historyOi: string -> Option<seq<real>>) returns (results: seq<PositionRecord>)
    ensures var symbols := UsdtSymbols(catalog);
      && |results| == |symbols|
      && (forall i :: 0 <= i < |symbols| ==> results[i].symbol == symbols[i])
      && forall i :: 0 <= i < |symbols| ==>
           results[i] == PositionData(symbols[i], currentOi(symbols[i]), historyOi(symbols[i]))
  {
    var symbols := UsdtSymbols(catalog);
    results := [];
    var k := 0;
    while k < |symbols|
      invariant 0 <= k <= |symbols| && |results| == k
      invariant forall i :: 0 <= i < k ==>
        results[i] == PositionData(symbols[i], currentOi(symbols[i]), historyOi(symbols[i]))
    {
      var symbol := symbols[k];
      var result := PositionData(symbol, currentOi(symbol), historyOi(symbol));
      results := results + [result];
      k := k + 1;
    }
  }

  predicate Increased(p: PositionRecord)
  {
    p.change > 0.0
  }

  predicate Decreased(p: PositionRecord)
  {
    p.change < 0.0
  }

  function ChangePercentage(p: PositionRecord): real
  {
    p.changePercentage
  }

  /** The figures of the market overview and the two top-10 tables. */
  datatype Summary = Summary(
    total: nat,
    increased: nat,
    decreased: nat,
    topIncrease: seq<PositionRecord>,
    topDecrease: seq<PositionRecord>)

  /**
   * The figures `get_ai_analysis` puts in its prompt. An empty table has no
   * `change` column, so the summary fails (`None`) and the failure text is
   * returned instead.
   */
  function MarketSummary(table: seq<PositionRecord>): (r: Option<Summary>)
    ensures r.None? <==> table == []
    ensures r.Some? ==>
      && r.value.total == |table|
      && r.value.increased == |Filter(table, Increased)|
      && r.value.decreased == |Filter(table, Decreased)|
      && r.value.increased + r.value.decreased <= r.value.total
      && |r.value.topIncrease| == Min(10, r.value.increased)
      && multiset(r.value.topIncrease) <= multiset(Filter(table, Increased))
      && multiset(r.value.topDecrease) <= multiset(Filter(table, Decreased))
      && |r.value.topDecrease| == Min(10, r.value.decreased)
      && (forall p :: p in r.value.topIncrease ==> p in table && Increased(p))
      && (forall p :: p in r.value.topDecrease ==> p in table && Decreased(p))
      && SortedBy(r.value.topIncrease, ChangePercentage, true)
      && SortedBy(r.value.topDecrease, ChangePercentage, false)
  {
    if table == [] then None
    else
      var up := Filter(table, Increased);
      var down := Filter(table, Decreased);
      FilterDisjointCount(table, Increased, Decreased);
      var topUp := TopN(up, ChangePercentage, true, 10);
      var topDown := TopN(down, ChangePercentage, false, 10);
      TopFromFilter(table, Increased, topUp, true);
      TopFromFilter(table, Decreased, topDown, false);
      Some(Summary(|table|, |up|, |down|, topUp, topDown))
  }

  lemma TopFromFilter(table: seq<PositionRecord>, keep: PositionRecord -> bool, top: seq<PositionRecord>, descending: bool)
    requires top == TopN(Filter(table, keep), ChangePercentage, descending, 10)
    ensures forall p :: p in top ==> p in table && keep(p)
  {
    forall p | p in top ensures p in table && keep(p) {
      assert p in multiset(top);
      FilterMembership(table, keep, p);
    }
  }

  /**
   * The top-10 increase table holds the largest percentage moves: no
   * increased row left out has a larger percentage than one shown.
   */
  lemma TopIncreaseIsLargest(table: seq<PositionRecord>, p: PositionRecord, q: PositionRecord)
    requires MarketSummary(table).Some?
    requires var s := MarketSummary(table).value;
      Increased(p) && q in s.topIncrease && multiset(table)[p] > multiset(s.topIncrease)[p]
    ensures p.changePercentage <= q.changePercentage
  {
    var s := MarketSummary(table).value;
    var up := Filter(table, Increased);
    FilterMultiplicity(table, Increased, p);
    assert p in multiset(up) - multiset(s.topIncrease);
  }

  /** Symmetrically, no decreased row left out fell further than one shown. */
  lemma TopDecreaseIsSmallest(table: seq<PositionRecord>, p: PositionRecord, q: PositionRecord)
    requires MarketSummary(table).Some?
    requires var s := MarketSummary(table).value;
      Decreased(p) && q in s.topDecrease && multiset(table)[p] > multiset(s.topDecrease)[p]
    ensures q.changePercentage <= p.changePercentage
  {
    var s := MarketSummary(table).value;
    var down := Filter(table, Decreased);
    FilterMultiplicity(table, Decreased, p);
    assert p in multiset(down) - multiset(s.topDecrease);
  }
}
