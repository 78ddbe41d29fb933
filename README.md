# Binance market monitors — a verified model

The repository holds three Streamlit/command-line scripts that watch Binance
USDT markets:

- `funding_rate_monitor.py` polls one symbol's spot price, futures price,
  funding rate and open interest. It keeps six parallel series covering the
  last four hours. On start it seeds them from one-minute candles and from
  the funding and open-interest histories, each mapped to the nearest
  timestamp.
- `deepseek_fundflow_analysis.py` lists the USDT pairs of the spot and
  futures markets, leaving out stablecoin bases. For each pair it requests,
  in parallel, at most two 4-hour candles starting two days before the start
  of today, takes the second one returned and computes its net inflow
  (twice the taker-buy quote volume minus the quote volume). It then builds
  top-20 inflow and outflow tables.
- `binance_futures_position_analysis.py` compares every trading USDT
  perpetual's current open interest with its value four hours ago. It
  throttles its requests with a sliding-window rate limiter and summarises
  the increases and decreases in counts and top-10 tables.

This project models the computational core of the three scripts in Dafny.
Exchange answers enter the model as parameters. `None` stands for a request,
or a decoding step, that raised. A thread pool is modelled as a completion
order over the submitted work. Time is an integer (seconds in the monitor,
abstract ticks in the limiter). Prices and volumes are reals.

Files:

- `wrappers.dfy`: `Option`.
- `exchange.dfy`: the catalog entry of `exchangeInfo`.
- `ranking.dfy`: filtering, stable sorting by a key, and taking the first n
  rows (`sort_values(...).head(n)`).
- `batch.dfy`: collection in completion order, dropping failed results.
- `rate_limiter.dfy`: `RateLimiter` as written, and the corrected
  `WindowGate`.
- `position_analysis.dfy`, `fund_flow.dfy` and `funding_monitor.dfy`: one
  file per script.

## Model

| member | source | states |
|---|---|---|
| Exchange.Symbols | binance_futures_position_analysis.py:104 | the symbol column of a catalog, one per entry, in catalog order |
| Exchange.SymbolsAppend | deepseek_fundflow_analysis.py:30-36 | taking symbols distributes over concatenation of catalogs (the loop appends in order) |
| Ranking.Filter | binance_futures_position_analysis.py:174-175 | a boolean-mask selection keeps only rows satisfying the mask and is no longer than the table |
| Ranking.FilterMultiplicity | binance_futures_position_analysis.py:177-178 | each row occurs in the selection exactly as often as in the table when it passes the mask, else never |
| Ranking.FilterMembership | binance_futures_position_analysis.py:174-178 | a row is selected if and only if it is in the table and passes the mask |
| Ranking.FilterAppend | deepseek_fundflow_analysis.py:38-44 | selection of a concatenation is the concatenation of the selections (catalog order is kept) |
| Ranking.FilterDisjointCount | binance_futures_position_analysis.py:174-175 | two exclusive masks select at most as many rows as the table has |
| Ranking.Insert | deepseek_fundflow_analysis.py:166-169 | inserting into a sorted list keeps it sorted and adds exactly that row |
| Ranking.SortBy | deepseek_fundflow_analysis.py:166-169 | `sort_values` yields a permutation of the rows ordered by the key, ascending or descending |
| Ranking.TopN | binance_futures_position_analysis.py:177-178 | `head(n)` of the sorted table has min(n, rows) rows, all from the table, in key order, and every row left out ranks no higher than every row kept |
| Ranking.PrefixOfSorted | deepseek_fundflow_analysis.py:166-169 | a prefix of a sorted permutation is sorted, drawn from the table and ranks above everything after it |
| Batch.Indices | deepseek_fundflow_analysis.py:109 | the submission indices 0..n-1 of the submitted symbols |
| Batch.Reorder | deepseek_fundflow_analysis.py:110 | the results listed in a given completion order |
| Batch.Collect | deepseek_fundflow_analysis.py:111-113 | only successful results are appended, so the list is no longer than the input |
| Batch.CollectMultiplicity | deepseek_fundflow_analysis.py:111-113 | each record appears as often as it was a successful result |
| Batch.CollectPermutation | deepseek_fundflow_analysis.py:110-113 | dropping failures commutes with reordering: permuted inputs collect to the same multiset |
| Batch.ReorderPermutation | deepseek_fundflow_analysis.py:110 | two completion orders that are permutations of each other list the same multiset of results |
| Batch.CompletionOrderPermutes | deepseek_fundflow_analysis.py:108-110 | any completion order of all submitted futures lists exactly the submitted results, as a multiset |
| RateLimit.PurgeCount | binance_futures_position_analysis.py:74-79 | the purge removes exactly the leading entries older than the window and stops at the first one inside it |
| RateLimit.Retained | binance_futures_position_analysis.py:74-79 | the queue left after the purge: the entries from the first one no more than a window old |
| RateLimit.RetainedDropsExpired | binance_futures_position_analysis.py:74-79 | the purge keeps a suffix of the queue; every dropped entry was more than a window old and the first kept one is not |
| RateLimit.WaitTime | binance_futures_position_analysis.py:80-84 | the sleep is never negative, is zero below capacity, and when positive ends exactly when the oldest kept entry is a window old |
| RateLimit.Step | binance_futures_position_analysis.py:71-85 | one `acquire` as written: the purged queue with the pre-sleep time appended, and the wait |
| RateLimit.RateLimiter.constructor | binance_futures_position_analysis.py:65-69 | a limiter starts with the given capacity and window and an empty queue |
| RateLimit.RateLimiter.Acquire | binance_futures_position_analysis.py:71-85 | one call: purge, wait until the oldest remembered call leaves the window when the queue is full, then record the pre-sleep time |
| RateLimit.StepKeepsSorted | binance_futures_position_analysis.py:74-85 | the queue stays in time order and within the window ending at the call |
| RateLimit.WaitBounds | binance_futures_position_analysis.py:80-84 | the wait is never negative and never exceeds the window, and a call waits if and only if the purged queue is full and its oldest entry is still inside the window |
| RateLimit.WaitAtCapacity | binance_futures_position_analysis.py:80-84 | a call finding the purged queue full, with the oldest entry inside the window, sleeps exactly until that entry is a window old |
| RateLimit.Run | binance_futures_position_analysis.py:97 | successive calls of `make_request` through one limiter give one wait per call |
| RateLimit.NoWaitBelowCapacity | binance_futures_position_analysis.py:80 | while fewer than `max_requests` calls have been made, no call waits |
| RateLimit.Admitted | binance_futures_position_analysis.py:84-85 | the moment each call is let through is its arrival plus its wait |
| RateLimit.CountIn | binance_futures_position_analysis.py:64-67 | the number of admissions within a window (lo, hi] |
| RateLimit.AsWrittenAdmitsBurst | binance_futures_position_analysis.py:80-85 | with one request per 10 ticks, calls at 0, 0, 11 wait 0, 10, 0 and are let through at 0, 10, 11: two in one window |
| RateLimit.SpacedBoundsWindow | binance_futures_position_analysis.py:64-67 | if admissions n apart are a full window apart, no window holds more than n of them |
| RateLimit.PurgeExpired | binance_futures_position_analysis.py:74-79 | the purge loop leaves exactly the retained suffix of the queue |
| RateLimit.AdmitKeepsInvariant | binance_futures_position_analysis.py:74-85 | the corrected admission keeps the history sorted, spaced by the window and tracked by the queue |
| RateLimit.GateBoundsWindow | binance_futures_position_analysis.py:64-67 | under the corrected gate, no window of `time_window` ever holds more than `max_requests` admissions |
| RateLimit.WindowGate.Acquire | binance_futures_position_analysis.py:71-85 | the corrected acquire: the wait is zero or exactly until the n-th latest admission leaves the window, and the admission time is recorded |
| PositionAnalysis.UsdtSymbols | binance_futures_position_analysis.py:101-109 | a failed catalog request gives no symbols; otherwise at most one symbol per entry |
| PositionAnalysis.Tradable | binance_futures_position_analysis.py:105 | a catalog entry is analysed when its symbol ends in USDT and its status is TRADING |
| PositionAnalysis.UsdtSymbolsMembership | binance_futures_position_analysis.py:104-105 | a symbol is listed if and only if an entry carries it, ends in USDT and is TRADING |
| PositionAnalysis.UsdtSymbolsInCatalogOrder | binance_futures_position_analysis.py:104-105 | the list follows catalog order |
| PositionAnalysis.ZeroRecord | binance_futures_position_analysis.py:140-147 | the record returned for a symbol whose requests failed: all figures 0 |
| PositionAnalysis.PositionData | binance_futures_position_analysis.py:111-147 | any failed request gives the all-zero record; an empty history counts as 0; current = historical + change; percentage × historical = change × 100, and 0 when historical is 0 |
| PositionAnalysis.ChangeSign | binance_futures_position_analysis.py:130-131 | with a positive historical value the percentage has the sign of the change |
| PositionAnalysis.FailedFetchIsNeutral | binance_futures_position_analysis.py:140-147 | a failed fetch counts as neither an increase nor a decrease |
| PositionAnalysis.AnalyzePositions | binance_futures_position_analysis.py:149-168 | one record per listed symbol, in submission order, each the record of that symbol's answers |
| PositionAnalysis.MarketSummary | binance_futures_position_analysis.py:171-178 | an empty table fails (no `change` column); otherwise the counts are the numbers of rows with positive and negative change, and each top table holds min(10, count) distinct rows of its side (a sub-multiset), sorted by percentage |
| PositionAnalysis.TopFromFilter | binance_futures_position_analysis.py:177-178 | every row of a top table is a table row of the right side |
| PositionAnalysis.TopIncreaseIsLargest | binance_futures_position_analysis.py:177 | no increased row left out of the top-10 has a larger percentage than a row shown |
| PositionAnalysis.TopDecreaseIsSmallest | binance_futures_position_analysis.py:178 | no decreased row left out of the top-10 has a smaller percentage than a row shown |
| FundFlow.ListedSymbols | deepseek_fundflow_analysis.py:38-45 | the loop returns the symbols of the listed entries in catalog order |
| FundFlow.GetAllUsdtSymbols | deepseek_fundflow_analysis.py:20-45 | both market branches give the same listing |
| FundFlow.Listed | deepseek_fundflow_analysis.py:33-35 | an entry is listed when TRADING, quoted in USDT and its base is not one of the seven stablecoins |
| FundFlow.ListedSymbolsExactly | deepseek_fundflow_analysis.py:18-45 | a symbol is returned if and only if an entry with it is TRADING, quoted in USDT and not a stablecoin base |
| FundFlow.FormatNumber | deepseek_fundflow_analysis.py:47-54 | suffix M exactly from 1,000,000 in magnitude, K exactly from 1,000 below that, none below 1,000; mantissa × unit = value |
| FundFlow.FormatNumberMantissa | deepseek_fundflow_analysis.py:47-54 | a suffixed mantissa is at least 1 in magnitude, and below 1,000 unless in millions |
| FundFlow.FetchKline | deepseek_fundflow_analysis.py:60-106 | a record exactly when the answer decoded and has at least two candles; it is built from the second candle with its net inflow |
| FundFlow.NetInflow | deepseek_fundflow_analysis.py:102 | net inflow of a candle: twice the taker-buy quote volume minus the quote volume |
| FundFlow.NetInflowSign | deepseek_fundflow_analysis.py:102 | net inflow is positive exactly when taker buys exceed half the quote volume, negative exactly when below |
| FundFlow.NetInflowExamples | deepseek_fundflow_analysis.py:102 | 700 bought of 1000 gives +400; 300 gives -400 |
| FundFlow.Fetched | deepseek_fundflow_analysis.py:109 | one fetch result per submitted symbol |
| FundFlow.CollectInCompletionOrder | deepseek_fundflow_analysis.py:110-113 | collecting in any completion order gives the same multiset as in submission order |
| FundFlow.GetKlinesParallel | deepseek_fundflow_analysis.py:108-115 | the results are exactly the successful fetches, as a multiset, and no more than the symbols |
| FundFlow.CollectedComeFromSymbols | deepseek_fundflow_analysis.py:111-113 | every collected record is the successful fetch of a submitted symbol |
| FundFlow.Top20 | deepseek_fundflow_analysis.py:166-169 | min(20, rows) records of the market, ordered by net inflow, none left out ranking above one kept |
| FundFlow.MainOptimized | deepseek_fundflow_analysis.py:149-169 | the run stops when either market has no records; otherwise four tables of at most 20 records of their market, inflow descending and outflow ascending |
| FundingMonitor.Premium | funding_rate_monitor.py:269 | premium × spot = (futures − spot) × 100 |
| FundingMonitor.PremiumSign | funding_rate_monitor.py:177 | the premium is positive exactly when futures trade above spot, zero exactly when equal |
| FundingMonitor.Percent | funding_rate_monitor.py:279 | a polled funding rate is stored in percent; a missing one stays missing |
| FundingMonitor.CarryForward | funding_rate_monitor.py:277-292 | the value appended for funding or open interest: the polled one, else the last stored one, else 0 |
| FundingMonitor.Appended | funding_rate_monitor.py:272-292 | one poll appends time, prices, premium, funding in percent and open interest to the six series |
| FundingMonitor.FirstAtOrAfter | funding_rate_monitor.py:303-305 | the first index whose time is at or after the cutoff; all before it are older |
| FundingMonitor.Pruned | funding_rate_monitor.py:294-311 | the four-hour trim: with more than one sample and the oldest before the cutoff, all six series are cut at the first sample at or after it |
| FundingMonitor.Updated | funding_rate_monitor.py:267-311 | the series after a poll with both prices: appended, then trimmed |
| FundingMonitor.AppendedExtends | funding_rate_monitor.py:272-292 | a poll appends one entry to each of the six series, keeping all earlier entries |
| FundingMonitor.CarryForwardRule | funding_rate_monitor.py:278-292 | a missing funding rate or open interest repeats the last stored value, or 0 on an empty series |
| FundingMonitor.UpdatedKeepsNewest | funding_rate_monitor.py:294-311 | pruning drops a common prefix of all six series, never the entry just appended, and leaves a first sample no older than four hours before the poll |
| FundingMonitor.PrunedDropsOnlyStale | funding_rate_monitor.py:296-311 | pruning happens only with more than one entry and an oldest entry before the cutoff; it then cuts every series at the first entry at or after the cutoff (leaving all when there is none), so only older entries go |
| FundingMonitor.FindFirstAtOrAfter | funding_rate_monitor.py:303-305 | the search loop finds the first index at or after the cutoff |
| FundingMonitor.MergedKlines | funding_rate_monitor.py:132-187 | the four historical series have equal length |
| FundingMonitor.MergedKlinesPairs | funding_rate_monitor.py:171-187 | candles are paired by position up to the shorter list, and a failed request or a zero spot close gives four empty series |
| FundingMonitor.GetHistoricalKlines | funding_rate_monitor.py:165-187 | the candle loop builds exactly the merged history |
| FundingMonitor.NearestIndex | funding_rate_monitor.py:459-465 | the index of a source time nearest the target, the earliest among ties, 0 for no source |
| FundingMonitor.NearestIndexUnique | funding_rate_monitor.py:459-465 | the nearest-earliest index is unique |
| FundingMonitor.NearestValue | funding_rate_monitor.py:467-471 | the value at the nearest source index, or 0 when the values run short of it |
| FundingMonitor.ClosestIndex | funding_rate_monitor.py:459-465 | the scan with a running minimum (starting at infinity) finds the nearest-earliest index |
| FundingMonitor.MapNearest | funding_rate_monitor.py:456-473 | every timestamp gets the value at its nearest source time, or 0 when that index has no value |
| FundingMonitor.Spread | funding_rate_monitor.py:454-475 | with no values, all zeros; otherwise the nearest-time mapping, one value per timestamp |
| FundingMonitor.WithLive | funding_rate_monitor.py:505-511 | a live value overwrites only the last entry of a non-empty series |
| FundingMonitor.Seeded | funding_rate_monitor.py:447-511 | the seeded series are aligned |
| FundingMonitor.SeededFunding | funding_rate_monitor.py:454-508 | each seeded funding and open-interest entry is the value nearest in time (0 without a history), except that the last is the live value (funding in percent) when one was fetched |
| FundingMonitor.AppendSample | funding_rate_monitor.py:269-292 | the append steps, with the carry-forward branches, compute the appended series |
| FundingMonitor.PruneSeries | funding_rate_monitor.py:296-311 | the trim steps compute the pruned series |
| FundingMonitor.Poll | funding_rate_monitor.py:269-311 | one poll yields the premium and the appended, pruned, still aligned series |
| FundingMonitor.SeedSeries | funding_rate_monitor.py:453-511 | the seeding steps compute the seeded series |
| FundingMonitor.Session.constructor | funding_rate_monitor.py:21-35 | a fresh page watches BTCUSDT, is stopped, not loaded, with empty series and no funding rate |
| FundingMonitor.Session.UpdateData | funding_rate_monitor.py:256-315 | without both prices nothing changes; otherwise the premium is returned, the series become the updated ones and the funding rate is remembered when polled |
| FundingMonitor.Session.LoadHistoricalData | funding_rate_monitor.py:433-517 | a loaded session is untouched and succeeds; otherwise it succeeds exactly when candles came back, and then holds the seeded series and the live funding rate |
| FundingMonitor.Session.ToggleMonitoring | funding_rate_monitor.py:626-635 | stopping never loads and changes no data; starting runs exactly when the history is or becomes loaded, and a fresh successful load installs the seeded series and the live funding rate, otherwise nothing changes |
| FundingMonitor.Session.ChangeSymbol | funding_rate_monitor.py:607-621 | a new symbol clears the series, the funding rate and the loaded flag and stops monitoring; the same symbol changes nothing |
| FundingMonitor.Session.ClearData | funding_rate_monitor.py:638-648 | the button clears the series, the funding rate and the loaded flag, keeping symbol and running |

## Left out

- HTTP requests, JSON decoding and the concrete endpoints are left out. Each answer is an input, and `None` marks a request or a field access that raised.
- Threads, the limiter's lock and `time.sleep` are left out. `Acquire` returns the time it would sleep, and a thread pool is a completion order (`as_completed`) or submission order (iterating the future dictionary).
- Streamlit widgets, reruns, charts and the `charts` field are not part of this model. The same goes for the statistics file and its load/save/display, and the AI and DeepSeek prompts and calls.
- Timestamps are left out as datetimes: they are integers, and candle open and close times are not formatted.
- Floating point is not modelled; prices and volumes are exact reals.
- FundFlow.FormatNumber: the mantissa is not rounded to two decimals and no string is produced, because `.2f` formatting is a float-to-text step this model does not have.
- Ranking.SortBy: it is a stable insertion sort, while pandas' default sort is not stable, so only the order, the size and the rows kept are stated about the tables, never which of two equal-key rows comes first.
- `get_historical_funding_rates` and `get_historical_open_interest` are taken as already decoded `(times, values)` inputs. Their own request and percent conversion are not part of this model.
- The rate limiter's place inside `make_request` is not threaded through the position analysis. `RateLimit.Run` models a sequence of calls on its own.
- FundingMonitor.Session.UpdateData: it requires a non-zero spot price when both prices are present, because the monitor divides by it with no handler (the error would end the page run).
- RateLimit.RateLimiter.Acquire: it requires `max_requests >= 1`, because with 0 the limiter reads the head of an empty queue.
- PositionAnalysis.ChangeSign: it is stated only for a positive historical value, since open interest is never negative. The zero case is covered by `PositionData`.
- FundFlow.GetAllUsdtSymbols: the catalog is always given, because the script has no handler around its listing request, so a failure there ends the run.
- FundFlow.MainOptimized: it states at most 20 records per table with their order and origin. The exact size and the left-out-ranks-lower property are stated by `FundFlow.Top20`, which the tables are built from.

## Findings

| source | as written | input that shows it | evidently intended | confidence | as-written member | corrected member |
|---|---|---|---|---|---|---|
| binance_futures_position_analysis.py:80-85 | records the time before the sleep, and when full waits only until the oldest remembered call leaves the window | `max_requests=1`, `time_window=10`, calls at 0, 0, 11: waits 0, 10, 0, so requests go out at 0, 10 and 11 and two fall in the window (1, 11] | at most `max_requests` requests in any window: record the time the request goes out and wait until the `max_requests`-th latest one leaves the window | not executed | RateLimit.AsWrittenAdmitsBurst | RateLimit.GateBoundsWindow |
