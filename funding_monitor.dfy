/**
 * The spot/futures premium monitor of one symbol. A session keeps six
 * parallel series (sample times, spot price, futures price, premium, funding
 * rate in percent, open interest); every poll appends one sample and trims
 * everything older than four hours, and a start first seeds the series from
 * the exchange's one-minute candles and funding/open-interest histories.
 * Times are whole seconds; every exchange answer is an input (`None` when
 * the request or its decoding failed).
 */
module FundingMonitor {
  import opened Wrappers
  import opened Ranking

  /** How much history the monitor shows and keeps (`HOURS_TO_DISPLAY`). */
  const HoursToDisplay: int := 4
  const RetentionSeconds: int := HoursToDisplay * 3600

  /** (futures - spot) / spot, in percent. */
  function Premium(spot: real, futures: real): (p: real)
    requires spot != 0.0
    ensures p * spot == (futures - spot) * 100.0
  {
    (futures - spot) / spot * 100.0
  }

  /** With a positive spot price the premium is positive exactly when futures trade above spot. */
  lemma PremiumSign(spot: real, futures: real)
    requires spot > 0.0
    ensures Premium(spot, futures) > 0.0 <==> futures > spot
    ensures Premium(spot, futures) == 0.0 <==> futures == spot
  {
    var p := Premium(spot, futures);
    assert p * spot == (futures - spot) * 100.0;
    if p > 0.0 { assert p * spot > 0.0; }
    if p < 0.0 { assert p * spot < 0.0; }
  }

  /** The six series of a session, as values. */
  datatype Series = Series(
    timestamps: seq<int>,
    spotPrices: seq<real>,
    futuresPrices: seq<real>,
    premiums: seq<real>,
    fundingRates: seq<real>,
    openInterest: seq<real>)

  predicate Aligned(s: Series)
  {
    && |s.spotPrices| == |s.timestamps|
    && |s.futuresPrices| == |s.timestamps|
    && |s.premiums| == |s.timestamps|
    && |s.fundingRates| == |s.timestamps|
    && |s.openInterest| == |s.timestamps|
  }

  /**
   * The value a series gets when a poll may have missed it: the polled value,
   * else the series' last value again, else 0.
   */
  function CarryForward(series: seq<real>, polled: Option<real>): real
  {
    match polled
    case Some(v) => v
    case None => if series != [] then series[|series| - 1] else 0.0
  }

  /** The funding rate as a percentage, when it was fetched. */
  function Percent(rate: Option<real>): (r: Option<real>)
    ensures r.Some? <==> rate.Some?
    ensures r.Some? ==> r.value == rate.value * 100.0
  {
    match rate
    case None => None
    case Some(v) => Some(v * 100.0)
  }

  /** One polled sample appended to all six series. */
  function Appended(s: Series, now: int, spot: real, futures: real, funding: Option<real>, oi: Option<real>): Series
    requires spot != 0.0
  {
    Series(
      s.timestamps + [now],
      s.spotPrices + [spot],
      s.futuresPrices + [futures],
      s.premiums + [Premium(spot, futures)],
      s.fundingRates + [CarryForward(s.fundingRates, Percent(funding))],
      s.openInterest + [CarryForward(s.openInterest, oi)])
  }

  /** The first position whose time is at or after `cutoff`, or |ts| when there is none. */
  function FirstAtOrAfter(ts: seq<int>, cutoff: int): (k: nat)
    ensures k <= |ts|
    ensures forall i :: 0 <= i < k ==> ts[i] < cutoff
    ensures k < |ts| ==> ts[k] >= cutoff
  {
    if ts == [] || ts[0] >= cutoff then 0
    else 1 + FirstAtOrAfter(ts[1..], cutoff)
  }

  function DropFront(s: Series, k: nat): Series
    requires Aligned(s) && k <= |s.timestamps|
  {
    Series(s.timestamps[k..], s.spotPrices[k..], s.futuresPrices[k..],
           s.premiums[k..], s.fundingRates[k..], s.openInterest[k..])
  }

  /**
   * The four-hour trim: only when there is more than one sample and the oldest
   * is before the cutoff, every series is cut at the first sample at or after it.
   */
  function Pruned(s: Series, now: int): Series
    requires Aligned(s)
  {
    var cutoff := now - RetentionSeconds;
    if |s.timestamps| > 1 && s.timestamps[0] < cutoff then
      var k := FirstAtOrAfter(s.timestamps, cutoff);
      if k < |s.timestamps| then DropFront(s, k) else s
    else s
  }

  /** The series after a poll at `now` that got both prices. */
  function Updated(s: Series, now: int, spot: real, futures: real, funding: Option<real>, oi: Option<real>): Series
    requires Aligned(s) && spot != 0.0
  {
    Pruned(Appended(s, now, spot, futures, funding, oi), now)
  }

  /** Appending keeps the series aligned and extends each by one, leaving the old entries alone. */
  lemma AppendedExtends(s: Series, now: int, spot: real, futures: real, funding: Option<real>, oi: Option<real>)
    requires Aligned(s) && spot != 0.0
    ensures var a := Appended(s, now, spot, futures, funding, oi);
      && Aligned(a)
      && |a.timestamps| == |s.timestamps| + 1
      && a.timestamps[..|s.timestamps|] == s.timestamps
      && a.spotPrices[..|s.spotPrices|] == s.spotPrices
      && a.futuresPrices[..|s.futuresPrices|] == s.futuresPrices
      && a.premiums[..|s.premiums|] == s.premiums
      && a.fundingRates[..|s.fundingRates|] == s.fundingRates
      && a.openInterest[..|s.openInterest|] == s.openInterest
  {
    var a := Appended(s, now, spot, futures, funding, oi);
    assert a.timestamps[..|s.timestamps|] == s.timestamps;
    assert a.spotPrices[..|s.spotPrices|] == s.spotPrices;
    assert a.futuresPrices[..|s.futuresPrices|] == s.futuresPrices;
    assert a.premiums[..|s.premiums|] == s.premiums;
    assert a.fundingRates[..|s.fundingRates|] == s.fundingRates;
    assert a.openInterest[..|s.openInterest|] == s.openInterest;
  }

  /**
   * The carry-forward rule: the new funding entry is the fetched rate in
   * percent, else a repeat of the previous entry, else 0; open interest
   * likewise, without the scaling.
   */
  lemma CarryForwardRule(s: Series, now: int, spot: real, futures: real, funding: Option<real>, oi: Option<real>)
    requires Aligned(s) && spot != 0.0
    ensures var a := Appended(s, now, spot, futures, funding, oi);
      var n := |s.timestamps|;
      && (funding.Some? ==> a.fundingRates[n] == funding.value * 100.0)
      && (funding.None? && n > 0 ==> a.fundingRates[n] == a.fundingRates[n - 1])
      && (funding.None? && n == 0 ==> a.fundingRates[n] == 0.0)
      && (oi.Some? ==> a.openInterest[n] == oi.value)
      && (oi.None? && n > 0 ==> a.openInterest[n] == a.openInterest[n - 1])
      && (oi.None? && n == 0 ==> a.openInterest[n] == 0.0)
  {
  }

  /**
   * After a poll the series are still aligned, each is a suffix of the
   * appended series cut at one common position, and the new sample is kept
   * as the last entry of every series.
   */
  lemma UpdatedKeepsNewest(s: Series, now: int, spot: real, futures: real, funding: Option<real>, oi: Option<real>)
    requires Aligned(s) && spot != 0.0
    ensures var a := Appended(s, now, spot, futures, funding, oi);
      var u := Updated(s, now, spot, futures, funding, oi);
      && Aligned(u)
      && (exists k :: 0 <= k < |a.timestamps| && u == DropFront(a, k))
      && u.timestamps[|u.timestamps| - 1] == now
      && u.timestamps[0] >= now - RetentionSeconds
      && u.spotPrices[|u.spotPrices| - 1] == spot
      && u.futuresPrices[|u.futuresPrices| - 1] == futures
      && u.premiums[|u.premiums| - 1] == Premium(spot, futures)
  {
    var a := Appended(s, now, spot, futures, funding, oi);
    AppendedExtends(s, now, spot, futures, funding, oi);
    var u := Updated(s, now, spot, futures, funding, oi);
    var cutoff := now - RetentionSeconds;
    var n := |a.timestamps|;
    if |a.timestamps| > 1 && a.timestamps[0] < cutoff {
      var k := FirstAtOrAfter(a.timestamps, cutoff);
      assert a.timestamps[n - 1] == now >= cutoff;
      assert k < n;
      assert u == DropFront(a, k);
    } else {
      assert a.timestamps[0..] == a.timestamps;
      assert a.spotPrices[0..] == a.spotPrices;
      assert a.futuresPrices[0..] == a.futuresPrices;
      assert a.premiums[0..] == a.premiums;
      assert a.fundingRates[0..] == a.fundingRates;
      assert a.openInterest[0..] == a.openInterest;
      assert u == DropFront(a, 0);
    }
  }

  /**
   * The trim fires only when needed, and then drops exactly the samples older
   * than four hours that precede the first recent one.
   */
  lemma PrunedDropsOnlyStale(s: Series, now: int)
    requires Aligned(s)
    ensures var p := Pruned(s, now);
      var cutoff := now - RetentionSeconds;
      && ((|s.timestamps| <= 1 || s.timestamps[0] >= cutoff) ==> p == s)
      && (|s.timestamps| > 1 && s.timestamps[0] < cutoff && FirstAtOrAfter(s.timestamps, cutoff) < |s.timestamps| ==>
            && p == DropFront(s, FirstAtOrAfter(s.timestamps, cutoff))
            && p.timestamps[0] >= cutoff)
      && (|s.timestamps| > 1 && s.timestamps[0] < cutoff && FirstAtOrAfter(s.timestamps, cutoff) == |s.timestamps| ==>
            p == s)
      && (exists k :: 0 <= k <= |s.timestamps| && p == DropFront(s, k)
            && (forall i :: 0 <= i < k ==> s.timestamps[i] < cutoff)
            && (k < |s.timestamps| && k > 0 ==> p.timestamps[0] >= cutoff))
  {
    var cutoff := now - RetentionSeconds;
    var p := Pruned(s, now);
    var k := if |s.timestamps| > 1 && s.timestamps[0] < cutoff
             then (var f := FirstAtOrAfter(s.timestamps, cutoff); if f < |s.timestamps| then f else 0)
             else 0;
    if k == 0 {
      assert s.timestamps[0..] == s.timestamps;
      assert s.spotPrices[0..] == s.spotPrices;
      assert s.futuresPrices[0..] == s.futuresPrices;
      assert s.premiums[0..] == s.premiums;
      assert s.fundingRates[0..] == s.fundingRates;
      assert s.openInterest[0..] == s.openInterest;
    }
    assert p == DropFront(s, k);
  }

  /** The first index at or after `cutoff`, by a scan as the list comprehension does. */
  method FindFirstAtOrAfter(ts: seq<int>, cutoff: int) returns (k: nat)
    ensures k == FirstAtOrAfter(ts, cutoff)
  {
    k := 0;
    while k < |ts| && ts[k] < cutoff
      invariant k <= |ts|
      invariant FirstAtOrAfter(ts, cutoff) == k + FirstAtOrAfter(ts[k..], cutoff)
    {
      assert ts[k..][1..] == ts[k + 1..];
      k := k + 1;
    }
  }

  /** One candle: its open time (seconds) and close price. */
  datatype Candle = Candle(openTime: int, close: real)

  /** The four series seeded from candles. */
  datatype History = History(timestamps: seq<int>, spotPrices: seq<real>, futuresPrices: seq<real>, premiums: seq<real>)

  /** Both candle lists arrived and no paired spot close is zero. */
  predicate Mergeable(spot: Option<seq<Candle>>, futures: Option<seq<Candle>>)
  {
    && spot.Some? && futures.Some?
    && forall i :: 0 <= i < Min(|spot.value|, |futures.value|) ==> spot.value[i].close != 0.0
  }

  /**
   * `get_historical_klines`: the two lists zipped to their common length, the
   * time taken from the spot candle. A failed request, or a zero spot close
   * (division by zero inside the same `try`), gives four empty lists.
   */
  function MergedKlines(spot: Option<seq<Candle>>, futures: Option<seq<Candle>>): (h: History)
    ensures |h.spotPrices| == |h.timestamps| && |h.futuresPrices| == |h.timestamps| && |h.premiums| == |h.timestamps|
  {
    if !Mergeable(spot, futures) then History([], [], [], [])
    else
      var s, f := spot.value, futures.value;
      var n := Min(|s|, |f|);
      History(
        seq(n, i requires 0 <= i < n => s[i].openTime),
        seq(n, i requires 0 <= i < n => s[i].close),
        seq(n, i requires 0 <= i < n => f[i].close),
        seq(n, i requires 0 <= i < n => Premium(s[i].close, f[i].close)))
  }

  /**
   * What the merge yields: nothing unless both lists arrived with no zero spot
   * close; otherwise one entry per common position, pairing the spot and
   * futures closes of that position with their premium.
   */
  lemma MergedKlinesPairs(spot: Option<seq<Candle>>, futures: Option<seq<Candle>>)
    ensures var h := MergedKlines(spot, futures);
      && (!Mergeable(spot, futures) ==> h == History([], [], [], []))
      && (Mergeable(spot, futures) ==>
        && |h.timestamps| == Min(|spot.value|, |futures.value|)
        && forall i :: 0 <= i < |h.timestamps| ==>
             && h.timestamps[i] == spot.value[i].openTime
             && h.spotPrices[i] == spot.value[i].close
             && h.futuresPrices[i] == futures.value[i].close
             && h.premiums[i] * h.spotPrices[i] == (h.futuresPrices[i] - h.spotPrices[i]) * 100.0)
  {
  }

  /** The candle-zip loop of `get_historical_klines`. */
  method GetHistoricalKlines(spot: Option<seq<Candle>>, futures: Option<seq<Candle>>) returns (h: History)
    ensures h == MergedKlines(spot, futures)
  {
    if spot.None? || futures.None? {
      return History([], [], [], []);
    }
    var spotData, futuresData := spot.value, futures.value;
    var minLength := Min(|spotData|, |futuresData|);
    var timestamps, spotPrices, futuresPrices, premiums := [], [], [], [];
    var i := 0;
    while i < minLength
      invariant 0 <= i <= minLength
      invariant forall j :: 0 <= j < i ==> spotData[j].close != 0.0
      invariant |timestamps| == i && |spotPrices| == i && |futuresPrices| == i && |premiums| == i
      invariant forall j :: 0 <= j < i ==>
        && timestamps[j] == spotData[j].openTime
        && spotPrices[j] == spotData[j].close
        && futuresPrices[j] == futuresData[j].close
        && premiums[j] == Premium(spotData[j].close, futuresData[j].close)
    {
      var spotClose := spotData[i].close;
      var futuresClose := futuresData[i].close;
      if spotClose == 0.0 {
        return History([], [], [], []);
      }
      var premium := (futuresClose - spotClose) / spotClose * 100.0;
      timestamps := timestamps + [spotData[i].openTime];
      spotPrices := spotPrices + [spotClose];
      futuresPrices := futuresPrices + [futuresClose];
      premiums := premiums + [premium];
      i := i + 1;
    }
    h := History(timestamps, spotPrices, futuresPrices, premiums);
  }

  function Dist(a: int, b: int): nat
  {
    if a >= b then a - b else b - a
  }

  /**
   * The position in `src` nearest to `t`; the earliest wins a tie, and 0 is
   * used when `src` is empty.
   */
  function NearestIndex(t: int, src: seq<int>): (k: nat)
    ensures src == [] ==> k == 0
    ensures src != [] ==> k < |src|
    ensures forall j :: 0 <= j < |src| ==> Dist(t, src[k]) <= Dist(t, src[j])
    ensures forall j :: 0 <= j < k ==> Dist(t, src[j]) > Dist(t, src[k])
  {
    if |src| <= 1 then 0
    else
      var k := NearestIndex(t, src[..|src| - 1]);
      if Dist(t, src[|src| - 1]) < Dist(t, src[k]) then |src| - 1 else k
  }

  /** The nearest position is the only one that is nearest and beats every earlier position. */
  lemma NearestIndexUnique(t: int, src: seq<int>, k: nat)
    requires k < |src|
    requires forall j :: 0 <= j < |src| ==> Dist(t, src[k]) <= Dist(t, src[j])
    requires forall j :: 0 <= j < k ==> Dist(t, src[j]) > Dist(t, src[k])
    ensures k == NearestIndex(t, src)
  {
    var m := NearestIndex(t, src);
  }

  /** The value taken from the nearest source point, or 0 if the values run short. */
  function NearestValue(t: int, srcTimes: seq<int>, values: seq<real>): real
  {
    var k := NearestIndex(t, srcTimes);
    if k < |values| then values[k] else 0.0
  }

  /** The search for the closest source time, with `min_diff` starting at infinity (`None`). */
  method ClosestIndex(t: int, srcTimes: seq<int>) returns (closestIdx: nat)
    ensures closestIdx == NearestIndex(t, srcTimes)
  {
    closestIdx := 0;
    var minDiff: Option<nat> := None;
    var i := 0;
    while i < |srcTimes|
      invariant 0 <= i <= |srcTimes|
      invariant i == 0 ==> closestIdx == 0 && minDiff == None
      invariant i > 0 ==> closestIdx == NearestIndex(t, srcTimes[..i]) && minDiff == Some(Dist(t, srcTimes[closestIdx]))
    {
      var diff := Dist(t, srcTimes[i]);
      assert srcTimes[..i + 1][..i] == srcTimes[..i];
      if minDiff.None? || diff < minDiff.value {
        minDiff := Some(diff);
        closestIdx := i;
      }
      i := i + 1;
    }
    assert srcTimes[..i] == srcTimes;
  }

  /** The nested loops of `load_historical_data`: one value per sample time. */
  method MapNearest(timestamps: seq<int>, srcTimes: seq<int>, values: seq<real>) returns (mapped: seq<real>)
    ensures |mapped| == |timestamps|
    ensures forall i :: 0 <= i < |timestamps| ==> mapped[i] == NearestValue(timestamps[i], srcTimes, values)
  {
    mapped := [];
    var i := 0;
    while i < |timestamps|
      invariant 0 <= i <= |timestamps| && |mapped| == i
      invariant forall j :: 0 <= j < i ==> mapped[j] == NearestValue(timestamps[j], srcTimes, values)
    {
      var closestIdx := ClosestIndex(timestamps[i], srcTimes);
      if closestIdx < |values| {
        mapped := mapped + [values[closestIdx]];
      } else {
        mapped := mapped + [0.0];
      }
      i := i + 1;
    }
  }

  function Zeros(n: nat): (r: seq<real>)
    ensures |r| == n && forall i :: 0 <= i < n ==> r[i] == 0.0
  {
    seq(n, _ => 0.0)
  }

  /** A fetched history spread over the sample times, or zeros when the history is empty. */
  function Spread(timestamps: seq<int>, srcTimes: seq<int>, values: seq<real>): (r: seq<real>)
    ensures |r| == |timestamps|
    ensures values == [] ==> forall i :: 0 <= i < |r| ==> r[i] == 0.0
    ensures values != [] ==> forall i :: 0 <= i < |r| ==> r[i] == NearestValue(timestamps[i], srcTimes, values)
  {
    if values == [] then Zeros(|timestamps|)
    else seq(|timestamps|, i requires 0 <= i < |timestamps| => NearestValue(timestamps[i], srcTimes, values))
  }

  /** `series` with its last entry replaced by the live value, when there is one and the series is not empty. */
  function WithLive(series: seq<real>, live: Option<real>): (r: seq<real>)
    ensures |r| == |series|
    ensures forall i :: 0 <= i < |series| - 1 ==> r[i] == series[i]
    ensures series != [] ==> r[|r| - 1] == (if live.Some? then live.value else series[|series| - 1])
  {
    if live.Some? && series != [] then series[..|series| - 1] + [live.value] else series
  }

  /**
   * The series a successful load installs: the candle series as merged, the
   * funding and open-interest histories spread over the candle times, and the
   * newest funding and open-interest entries overwritten with the live values.
   */
  function Seeded(h: History, fundingTimes: seq<int>, fundingRates: seq<real>,
                  oiTimes: seq<int>, openInterests: seq<real>,
                  liveFunding: Option<real>, liveOi: Option<real>): (s: Series)
    requires |h.spotPrices| == |h.timestamps| && |h.futuresPrices| == |h.timestamps| && |h.premiums| == |h.timestamps|
    ensures Aligned(s)
  {
    Series(h.timestamps, h.spotPrices, h.futuresPrices, h.premiums,
           WithLive(Spread(h.timestamps, fundingTimes, fundingRates), Percent(liveFunding)),
           WithLive(Spread(h.timestamps, oiTimes, openInterests), liveOi))
  }

  /**
   * What a load installs, entry by entry: every funding entry but the newest
   * is the rate nearest in time (0 without a history), and the newest is the
   * live rate in percent when it was fetched.
   */
  lemma SeededFunding(h: History, fundingTimes: seq<int>, fundingRates: seq<real>,
                      oiTimes: seq<int>, openInterests: seq<real>,
                      liveFunding: Option<real>, liveOi: Option<real>, i: nat)
    requires |h.spotPrices| == |h.timestamps| && |h.futuresPrices| == |h.timestamps| && |h.premiums| == |h.timestamps|
    requires i < |h.timestamps|
    ensures var s := Seeded(h, fundingTimes, fundingRates, oiTimes, openInterests, liveFunding, liveOi);
      && (i < |h.timestamps| - 1 || liveFunding.None? ==>
            s.fundingRates[i] == (if fundingRates == [] then 0.0 else NearestValue(h.timestamps[i], fundingTimes, fundingRates)))
      && (i == |h.timestamps| - 1 && liveFunding.Some? ==> s.fundingRates[i] == liveFunding.value * 100.0)
      && (i < |h.timestamps| - 1 || liveOi.None? ==>
            s.openInterest[i] == (if openInterests == [] then 0.0 else NearestValue(h.timestamps[i], oiTimes, openInterests)))
      && (i == |h.timestamps| - 1 && liveOi.Some? ==> s.openInterest[i] == liveOi.value)
  {
  }

  /** The appends of `update_data`: one sample onto each series, with the carry-forward rule. */
  method AppendSample(s: Series, now: int, spotPrice: real, futuresPrice: real, funding: Option<real>, oi: Option<real>)
    returns (a: Series)
    requires spotPrice != 0.0
    ensures a == Appended(s, now, spotPrice, futuresPrice, funding, oi)
  {
    var premium := (futuresPrice - spotPrice) / spotPrice * 100.0;
    var fundingRates := s.fundingRates;
    if funding.Some? {
      fundingRates := fundingRates + [funding.value * 100.0];
    } else if fundingRates != [] {
      fundingRates := fundingRates + [fundingRates[|fundingRates| - 1]];
    } else {
      fundingRates := fundingRates + [0.0];
    }
    var openInterest := s.openInterest;
    if oi.Some? {
      openInterest := openInterest + [oi.value];
    } else if openInterest != [] {
      openInterest := openInterest + [openInterest[|openInterest| - 1]];
    } else {
      openInterest := openInterest + [0.0];
    }
    a := Series(s.timestamps + [now], s.spotPrices + [spotPrice], s.futuresPrices + [futuresPrice],
                s.premiums + [premium], fundingRates, openInterest);
  }

  /** The trim of `update_data`, cutting all six series at one index. */
  method PruneSeries(a: Series, now: int) returns (u: Series)
    requires Aligned(a)
    ensures u == Pruned(a, now)
  {
    u := a;
    if |a.timestamps| > 1 {
      var cutoff := now - RetentionSeconds;
      if a.timestamps[0] < cutoff {
        var startIdx := FindFirstAtOrAfter(a.timestamps, cutoff);
        if startIdx < |a.timestamps| {
          u := Series(a.timestamps[startIdx..], a.spotPrices[startIdx..], a.futuresPrices[startIdx..],
                      a.premiums[startIdx..], a.fundingRates[startIdx..], a.openInterest[startIdx..]);
        }
      }
    }
  }

  /** The series work of one `update_data` poll that got both prices. */
  method Poll(s: Series, now: int, spotPrice: real, futuresPrice: real, funding: Option<real>, oi: Option<real>)
    returns (premium: real, u: Series)
    requires Aligned(s) && spotPrice != 0.0
    ensures premium == Premium(spotPrice, futuresPrice)
    ensures u == Updated(s, now, spotPrice, futuresPrice, funding, oi)
    ensures Aligned(u)
  {
    premium := (futuresPrice - spotPrice) / spotPrice * 100.0;
    var appended := AppendSample(s, now, spotPrice, futuresPrice, funding, oi);
    AppendedExtends(s, now, spotPrice, futuresPrice, funding, oi);
    u := PruneSeries(appended, now);
    UpdatedKeepsNewest(s, now, spotPrice, futuresPrice, funding, oi);
  }

  /** The seeding part of `load_historical_data`, once candles have arrived. */
  method SeedSeries(h: History, fundingTimes: seq<int>, fundingRatesHist: seq<real>,
                    oiTimes: seq<int>, openInterests: seq<real>,
                    liveFunding: Option<real>, liveOi: Option<real>) returns (s: Series)
    requires |h.spotPrices| == |h.timestamps| && |h.futuresPrices| == |h.timestamps| && |h.premiums| == |h.timestamps|
    ensures s == Seeded(h, fundingTimes, fundingRatesHist, oiTimes, openInterests, liveFunding, liveOi)
  {
    var fundingRates, openInterest;
    if fundingRatesHist != [] {
      fundingRates := MapNearest(h.timestamps, fundingTimes, fundingRatesHist);
    } else {
      fundingRates := Zeros(|h.timestamps|);
    }
    if openInterests != [] {
      openInterest := MapNearest(h.timestamps, oiTimes, openInterests);
    } else {
      openInterest := Zeros(|h.timestamps|);
    }
    assert fundingRates == Spread(h.timestamps, fundingTimes, fundingRatesHist);
    assert openInterest == Spread(h.timestamps, oiTimes, openInterests);
    if liveFunding.Some? && fundingRates != [] {
      fundingRates := fundingRates[..|fundingRates| - 1] + [liveFunding.value * 100.0];
    }
    if liveOi.Some? && openInterest != [] {
      openInterest := openInterest[..|openInterest| - 1] + [liveOi.value];
    }
    s := Series(h.timestamps, h.spotPrices, h.futuresPrices, h.premiums, fundingRates, openInterest);
  }

  /** The monitor's session state. */
  class Session {
    var symbol: string
    var running: bool
    var timestamps: seq<int>
    var spotPrices: seq<real>
    var futuresPrices: seq<real>
    var premiums: seq<real>
    var fundingRates: seq<real>
    var openInterest: seq<real>
    /** The last fetched funding rate as a fraction (not in percent). */
    var lastFundingRate: Option<real>
    var historicalDataLoaded: bool

    function Snapshot(): Series
      reads this
    {
      Series(timestamps, spotPrices, futuresPrices, premiums, fundingRates, openInterest)
    }

    predicate Valid()
      reads this
    {
      Aligned(Snapshot())
    }

    /** The state a fresh page starts from. */
    constructor ()
      ensures Valid()
      ensures symbol == "BTCUSDT" && !running && !historicalDataLoaded && lastFundingRate == None
      ensures Snapshot() == Series([], [], [], [], [], [])
    {
      symbol := "BTCUSDT";
      timestamps, spotPrices, futuresPrices, premiums, fundingRates, openInterest := [], [], [], [], [], [];
      lastFundingRate := None;
      running := false;
      historicalDataLoaded := false;
    }

    /**
     * `update_data` at time `now` with the four polled values. Without both
     * prices nothing changes and no premium is reported; a zero spot price is
     * not handled by the monitor (the division fails), so it is excluded.
     */
    method UpdateData(now: int, spot: Option<real>, futures: Option<real>, funding: Option<real>, oi: Option<real>)
      returns (premium: Option<real>)
      requires Valid()
      requires spot.Some? && futures.Some? ==> spot.value != 0.0
      modifies this
      ensures Valid()
      ensures premium.Some? <==> spot.Some? && futures.Some?
      ensures premium.Some? ==> premium.value == Premium(spot.value, futures.value)
      ensures spot.Some? && futures.Some? ==>
        Snapshot() == Updated(old(Snapshot()), now, spot.value, futures.value, funding, oi)
      ensures spot.None? || futures.None? ==> Snapshot() == old(Snapshot())
      ensures lastFundingRate == (if spot.Some? && futures.Some? && funding.Some? then funding else old(lastFundingRate))
      ensures symbol == old(symbol) && running == old(running) && historicalDataLoaded == old(historicalDataLoaded)
    {
      if spot.None? || futures.None? {
        return None;
      }
      var p, polled := Poll(Snapshot(), now, spot.value, futures.value, funding, oi);
      if funding.Some? {
        lastFundingRate := funding;
      }
      Install(polled);
      premium := Some(p);
    }

    /**
     * `load_historical_data`: `spotKlines`/`futuresKlines` are the candle
     * answers, the two histories are the already-decoded funding (in percent)
     * and open-interest points, and `liveFunding`/`liveOi` the current values.
     * A loaded session is left alone; a load with no candles changes nothing
     * and reports failure.
     */
    method LoadHistoricalData(spotKlines: Option<seq<Candle>>, futuresKlines: Option<seq<Candle>>,
                              fundingTimes: seq<int>, fundingRatesHist: seq<real>,
                              oiTimes: seq<int>, openInterests: seq<real>,
                              liveFunding: Option<real>, liveOi: Option<real>) returns (ok: bool)
      requires Valid()
      modifies this
      ensures Valid()
      ensures symbol == old(symbol) && running == old(running)
      ensures old(historicalDataLoaded) ==>
        (ok && Snapshot() == old(Snapshot()) && lastFundingRate == old(lastFundingRate) && historicalDataLoaded)
      ensures !old(historicalDataLoaded) ==>
        var h := MergedKlines(spotKlines, futuresKlines);
        && (ok <==> h.timestamps != [])
        && (!ok ==> Snapshot() == old(Snapshot()) && lastFundingRate == old(lastFundingRate) && !historicalDataLoaded)
        && (ok ==>
              && Snapshot() == Seeded(h, fundingTimes, fundingRatesHist, oiTimes, openInterests, liveFunding, liveOi)
              && historicalDataLoaded
              && lastFundingRate == (if liveFunding.Some? then liveFunding else old(lastFundingRate)))
    {
      if historicalDataLoaded {
        return true;
      }
      var h := GetHistoricalKlines(spotKlines, futuresKlines);
      if h.timestamps == [] {
        return false;
      }
      var seeded := SeedSeries(h, fundingTimes, fundingRatesHist, oiTimes, openInterests, liveFunding, liveOi);
      if liveFunding.Some? {
        lastFundingRate := liveFunding;
      }
      Install(seeded);
      historicalDataLoaded := true;
      ok := true;
    }

    /** Replaces the six series at once. */
    method Install(s: Series)
      modifies this
      ensures Snapshot() == s
      ensures symbol == old(symbol) && running == old(running)
      ensures lastFundingRate == old(lastFundingRate) && historicalDataLoaded == old(historicalDataLoaded)
    {
      timestamps, spotPrices, futuresPrices := s.timestamps, s.spotPrices, s.futuresPrices;
      premiums, fundingRates, openInterest := s.premiums, s.fundingRates, s.openInterest;
    }

    /** The reset shared by a symbol change and the clear button. */
    method ResetSeries()
      modifies this
      ensures Valid()
      ensures Snapshot() == Series([], [], [], [], [], [])
      ensures lastFundingRate == None && !historicalDataLoaded
      ensures symbol == old(symbol) && running == old(running)
    {
      timestamps, spotPrices, futuresPrices, premiums, fundingRates, openInterest := [], [], [], [], [], [];
      lastFundingRate := None;
      historicalDataLoaded := false;
    }

    /** A new symbol typed in the sidebar: all data is reset and monitoring stops. */
    method ChangeSymbol(newSymbol: string)
      requires Valid()
      modifies this
      ensures Valid()
      ensures newSymbol == old(symbol) ==>
        (symbol == old(symbol) && running == old(running) && Snapshot() == old(Snapshot())
         && lastFundingRate == old(lastFundingRate) && historicalDataLoaded == old(historicalDataLoaded))
      ensures newSymbol != old(symbol) ==>
        (symbol == newSymbol && !running && Snapshot() == Series([], [], [], [], [], [])
         && lastFundingRate == None && !historicalDataLoaded)
    {
      if newSymbol != symbol {
        symbol := newSymbol;
        ResetSeries();
        if running {
          running := false;
        }
      }
    }

    /**
     * The start/stop button: it flips `running`; starting loads the history
     * (with the same inputs as `LoadHistoricalData`) and falls back to stopped
     * when the load fails. `ok` is false exactly when the error is shown.
     */
    method ToggleMonitoring(spotKlines: Option<seq<Candle>>, futuresKlines: Option<seq<Candle>>,
                            fundingTimes: seq<int>, fundingRatesHist: seq<real>,
                            oiTimes: seq<int>, openInterests: seq<real>,
                            liveFunding: Option<real>, liveOi: Option<real>) returns (ok: bool)
      requires Valid()
      modifies this
      ensures Valid()
      ensures symbol == old(symbol)
      ensures old(running) ==>
        (ok && !running && Snapshot() == old(Snapshot()) && lastFundingRate == old(lastFundingRate)
         && historicalDataLoaded == old(historicalDataLoaded))
      ensures !old(running) ==>
        && running == ok
        && (ok <==> old(historicalDataLoaded) || MergedKlines(spotKlines, futuresKlines).timestamps != [])
        && historicalDataLoaded == ok
      ensures !old(running) && (old(historicalDataLoaded) || !ok) ==>
        Snapshot() == old(Snapshot()) && lastFundingRate == old(lastFundingRate)
      ensures !old(running) && !old(historicalDataLoaded) && ok ==>
        && Snapshot() == Seeded(MergedKlines(spotKlines, futuresKlines), fundingTimes, fundingRatesHist,
                                oiTimes, openInterests, liveFunding, liveOi)
        && lastFundingRate == (if liveFunding.Some? then liveFunding else old(lastFundingRate))
    {
      running := !running;
      ok := true;
      if running {
        ok := LoadHistoricalData(spotKlines, futuresKlines, fundingTimes, fundingRatesHist,
                                 oiTimes, openInterests, liveFunding, liveOi);
        if !ok {
          running := false;
        }
      }
    }

    /** The clear button: all data is reset; the symbol and the running flag stay. */
    method ClearData()
      modifies this
      ensures Valid()
      ensures Snapshot() == Series([], [], [], [], [], []) && lastFundingRate == None && !historicalDataLoaded
      ensures symbol == old(symbol) && running == old(running)
    {
      ResetSeries();
    }
  }
}
