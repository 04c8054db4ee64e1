/**
 * The seven per-date vote maps the cycle composite sums: Mayer multiple,
 * 200-week moving average, mining cost, stablecoin supply momentum,
 * Coinbase-over-Binance gap, Bitfinex longs momentum and DVOL, with the live
 * put/call ratio overriding the latest DVOL vote. A vote is +1 (buy),
 * 0 (neutral) or -1 (sell); a date absent from a map has no vote there.
 */
module CompositeSignals {
  import opened Common
  import opened MovingAverage
  import TwoHundredWma
  import MayerMultiple
  import MiningCostIndicator
  import StablecoinSupply
  import BinanceCoinbaseGap
  import BitfinexLongs
  import DeribitOptions
  import MiningFetch
  import StablecoinFetch
  import ExchangeFetch
  import BitfinexFetch
  import DeribitFetch

  const MayerBuy := 0.8
  const MayerSell := 2.4
  const WmaSellRatio := 3.0
  const MiningBuyRatio := 1.2
  const MiningSellRatio := 3.0
  const StableBuyRoc := 3.0
  const StableSellRoc := -1.0
  const GapBuy := 0.1
  const GapSell := -0.05
  const LongsBuyRoc := 10.0
  const LongsSellRoc := -10.0
  const DvolBuy := 60.0
  const DvolSell := 40.0
  const PcrBuy := 0.7
  const PcrSell := 0.4
  const RocLag: nat := 30

  type VoteMap = map<Date, int>

  /** Every vote in the map is -1, 0 or +1. */
  predicate IsVoteMap(m: VoteMap)
  {
    forall d :: d in m ==> -1 <= m[d] <= 1
  }

  // ---------------------------------------------------------------------------
  // Filling a map: `map.set(date, value)` for every defined value, in order.

  function SetDefined<V>(dates: seq<Date>, values: seq<Option<V>>): map<Date, V>
    requires |values| == |dates|
  {
    if |dates| == 0 then map[]
    else
      var n := |dates| - 1;
      var m := SetDefined(dates[..n], values[..n]);
      if values[n].Some? then m[dates[n] := values[n].value] else m
  }

  lemma SetDefinedSnoc<V>(dates: seq<Date>, values: seq<Option<V>>, i: nat)
    requires |values| == |dates| && i < |dates|
    ensures SetDefined(dates[..i + 1], values[..i + 1]) ==
      if values[i].Some? then SetDefined(dates[..i], values[..i])[dates[i] := values[i].value]
      else SetDefined(dates[..i], values[..i])
  {
    assert dates[..i + 1][..i] == dates[..i];
    assert values[..i + 1][..i] == values[..i];
  }

  /** Entry `k` is the last one for date `d` that sets a value. */
  predicate IsLastSet<V>(dates: seq<Date>, values: seq<Option<V>>, d: Date, k: nat)
    requires |values| == |dates|
  {
    k < |dates| && dates[k] == d && values[k].Some?
      && forall j :: k < j < |dates| && dates[j] == d ==> values[j].None?
  }

  /** A date is in the map iff some entry sets it, and it holds the value of the last entry that does. */
  lemma {:induction false} SetDefinedLookup<V>(dates: seq<Date>, values: seq<Option<V>>, d: Date)
    requires |values| == |dates|
    ensures d in SetDefined(dates, values) <==> exists k :: 0 <= k < |dates| && dates[k] == d && values[k].Some?
    ensures d in SetDefined(dates, values) ==>
      exists k: nat :: IsLastSet(dates, values, d, k) && SetDefined(dates, values)[d] == values[k].value
  {
    if |dates| > 0 {
      var n := |dates| - 1;
      var ds, vs := dates[..n], values[..n];
      SetDefinedLookup(ds, vs, d);
      if exists k :: 0 <= k < |dates| && dates[k] == d && values[k].Some? {
        var k :| 0 <= k < |dates| && dates[k] == d && values[k].Some?;
        if k < n { assert ds[k] == d && vs[k].Some?; }
      }
      if d in SetDefined(dates, values) {
        if dates[n] == d && values[n].Some? {
          assert IsLastSet(dates, values, d, n);
        } else {
          var k: nat :| IsLastSet(ds, vs, d, k) && SetDefined(ds, vs)[d] == vs[k].value;
          assert IsLastSet(dates, values, d, k);
        }
      }
    }
  }

  /** Every defined vote is -1, 0 or +1. */
  predicate InRange(votes: seq<Option<int>>)
  {
    forall k :: 0 <= k < |votes| && votes[k].Some? ==> -1 <= votes[k].value <= 1
  }

  /** Votes in range give a vote map. */
  lemma {:induction false} SetDefinedVotes(dates: seq<Date>, votes: seq<Option<int>>)
    requires |votes| == |dates| && InRange(votes)
    ensures IsVoteMap(SetDefined(dates, votes))
  {
    if |dates| > 0 {
      assert InRange(votes[..|dates| - 1]);
      SetDefinedVotes(dates[..|dates| - 1], votes[..|dates| - 1]);
    }
  }

  /** The loop `for (...) if (value defined) map.set(date, value)`. */
  method FillMap<V>(dates: seq<Date>, values: seq<Option<V>>) returns (m: map<Date, V>)
    requires |values| == |dates|
    ensures m == SetDefined(dates, values)
  {
    m := map[];
    for i := 0 to |dates|
      invariant m == SetDefined(dates[..i], values[..i])
    {
      SetDefinedSnoc(dates, values, i);
      if values[i].Some? {
        m := m[dates[i] := values[i].value];
      }
    }
    assert dates[..|dates|] == dates && values[..|dates|] == values;
  }

  // ---------------------------------------------------------------------------
  // Mayer multiple: a vote wherever the 200-day SMA is defined and non-zero.

  function MayerVote(close: real, sma: Option<real>): (v: Option<int>)
    ensures v.Some? <==> sma.Some? && sma.value != 0.0
    ensures v.Some? ==> v.value == Vote(MayerMultiple.MayerSignal(Some(close / sma.value)))
  {
    if sma.None? || sma.value == 0.0 then None
    else
      var mayer := close / sma.value;
      Some(if mayer < MayerBuy then 1 else if mayer > MayerSell then -1 else 0)
  }

  function MayerVotes(prices: seq<DailyPrice>): (vs: seq<Option<int>>)
    ensures |vs| == |prices|
    ensures InRange(vs)
  {
    var sma := SmaSpec(Closes(prices), 200);
    seq(|prices|, i requires 0 <= i < |prices| => MayerVote(prices[i].close, sma[i]))
  }

  method MayerSignals(prices: seq<DailyPrice>) returns (signals: VoteMap)
    ensures signals == SetDefined(PriceDates(prices), MayerVotes(prices))
  {
    var closes := Closes(prices);
    var sma := Sma(closes, 200);
    var votes := seq(|prices|, i requires 0 <= i < |prices| => MayerVote(prices[i].close, sma[i]));
    signals := FillMap(PriceDates(prices), votes);
  }

  // ---------------------------------------------------------------------------
  // 200-week moving average, carried from the weekly series onto every day.

  /**
   * The ratio vote `close / wma`: at most 1 buys, above 3 sells. A zero WMA
   * divides to +Infinity (sell), -Infinity (buy) or NaN (neutral).
   */
  function WmaVote(close: real, wma: real): (v: int)
    ensures -1 <= v <= 1
    ensures wma > 0.0 ==> v == Vote(TwoHundredWma.WmaSignal(close, Some(wma)))
  {
    if wma == 0.0 then (if close > 0.0 then -1 else if close < 0.0 then 1 else 0)
    else
      var ratio := close / wma;
      TwoHundredWma.RatioAbove(close, wma, 1.0);
      TwoHundredWma.RatioAbove(close, wma, WmaSellRatio);
      if ratio <= 1.0 then 1 else if ratio > WmaSellRatio then -1 else 0
  }

  /** `weeklyWmaByDate`: each weekly date with a defined 200-week SMA. */
  function WeeklyWmaByDate(weekly: seq<DailyPrice>): map<Date, real>
  {
    SetDefined(PriceDates(weekly), SmaSpec(Closes(weekly), 200))
  }

  /** Advancing the weekly pointer past every weekly date up to `d`. */
  function Advance(weekly: seq<DailyPrice>, j: nat, d: Date): (r: nat)
    requires j <= |weekly|
    ensures j <= r <= |weekly|
    ensures forall k :: j <= k < r ==> DateLe(weekly[k].date, d)
    ensures r < |weekly| ==> !DateLe(weekly[r].date, d)
    decreases |weekly| - j
  {
    if j < |weekly| && DateLe(weekly[j].date, d) then Advance(weekly, j + 1, d) else j
  }

  /** The weekly pointer after the first `n` days. */
  function Pointer(prices: seq<DailyPrice>, weekly: seq<DailyPrice>, n: nat): (r: nat)
    requires n <= |prices|
    ensures r <= |weekly|
  {
    if n == 0 then 0 else Advance(weekly, Pointer(prices, weekly, n - 1), prices[n - 1].date)
  }

  /** `lastWma` once the pointer reached `j`: the WMA of the latest weekly date before `j` that has one. */
  function LatestWma(weekly: seq<DailyPrice>, byDate: map<Date, real>, j: nat): Option<real>
    requires j <= |weekly|
  {
    if j == 0 then None
    else if weekly[j - 1].date in byDate then Some(byDate[weekly[j - 1].date])
    else LatestWma(weekly, byDate, j - 1)
  }

  function WmaVotes(prices: seq<DailyPrice>, weekly: seq<DailyPrice>, byDate: map<Date, real>): (vs: seq<Option<int>>)
    ensures |vs| == |prices|
    ensures InRange(vs)
  {
    seq(|prices|, i requires 0 <= i < |prices| =>
      match LatestWma(weekly, byDate, Pointer(prices, weekly, i + 1))
      case None => None
      case Some(w) => Some(WmaVote(prices[i].close, w)))
  }

  function WmaSignalsSpec(prices: seq<DailyPrice>): VoteMap
  {
    var weekly := TwoHundredWma.Weekly(prices);
    SetDefined(PriceDates(prices), WmaVotes(prices, weekly, WeeklyWmaByDate(weekly)))
  }

  method WmaSignals(prices: seq<DailyPrice>) returns (signals: VoteMap)
    ensures signals == WmaSignalsSpec(prices)
  {
    var weekly := TwoHundredWma.ResampleToWeekly(prices);
    var wma := Sma(Closes(weekly), 200);
    var byDate := FillMap(PriceDates(weekly), wma);
    ghost var votes := WmaVotes(prices, weekly, byDate);
    ghost var dates := PriceDates(prices);
    signals := map[];
    var lastWma: Option<real> := None;
    var weekIdx := 0;
    for i := 0 to |prices|
      invariant weekIdx == Pointer(prices, weekly, i)
      invariant lastWma == LatestWma(weekly, byDate, weekIdx)
      invariant signals == SetDefined(dates[..i], votes[..i])
    {
      var p := prices[i];
      weekIdx, lastWma := AdvanceWeeks(weekly, byDate, weekIdx, lastWma, p.date);
      assert votes[i] == match lastWma case None => None case Some(w) => Some(WmaVote(p.close, w));
      SetDefinedSnoc(dates, votes, i);
      if lastWma.Some? {
        signals := signals[p.date := WmaVote(p.close, lastWma.value)];
      }
    }
    assert dates[..|prices|] == dates && votes[..|prices|] == votes;
  }

  /** The inner loop moving the weekly pointer past the weekly dates up to `d`, keeping the latest WMA seen. */
  method AdvanceWeeks(weekly: seq<DailyPrice>, byDate: map<Date, real>, from: nat, lastWma: Option<real>, d: Date)
    returns (weekIdx: nat, latest: Option<real>)
    requires from <= |weekly| && lastWma == LatestWma(weekly, byDate, from)
    ensures weekIdx == Advance(weekly, from, d)
    ensures latest == LatestWma(weekly, byDate, weekIdx)
  {
    weekIdx, latest := from, lastWma;
    while weekIdx < |weekly| && DateLe(weekly[weekIdx].date, d)
      invariant from <= weekIdx <= |weekly|
      invariant Advance(weekly, weekIdx, d) == Advance(weekly, from, d)
      invariant latest == LatestWma(weekly, byDate, weekIdx)
      decreases |weekly| - weekIdx
    {
      if weekly[weekIdx].date in byDate {
        latest := Some(byDate[weekly[weekIdx].date]);
      }
      weekIdx := weekIdx + 1;
    }
  }

  /** Day `i`'s dates ascend from day `i - 1`'s. */
  predicate DatesAscend(prices: seq<DailyPrice>)
  {
    forall i :: 0 < i < |prices| ==> DateLe(prices[i - 1].date, prices[i].date)
  }

  /**
   * With the days in date order, the pointer after day `i` sits just past
   * the longest run of weekly dates, from the start, that are all on or
   * before day `i`'s date.
   */
  lemma {:induction false} PointerBoundary(prices: seq<DailyPrice>, weekly: seq<DailyPrice>, i: nat)
    requires i < |prices| && DatesAscend(prices)
    ensures forall k :: 0 <= k < Pointer(prices, weekly, i + 1) ==> DateLe(weekly[k].date, prices[i].date)
    ensures Pointer(prices, weekly, i + 1) < |weekly| ==> !DateLe(weekly[Pointer(prices, weekly, i + 1)].date, prices[i].date)
  {
    if i > 0 {
      PointerBoundary(prices, weekly, i - 1);
      forall k | 0 <= k < Pointer(prices, weekly, i) ensures DateLe(weekly[k].date, prices[i].date) {
        DateLeTransitive(weekly[k].date, prices[i - 1].date, prices[i].date);
      }
    }
  }

  /** `LatestWma` is that of the latest weekly date before `j` with a WMA, and none when there is none. */
  lemma {:induction false} LatestWmaIsLatest(weekly: seq<DailyPrice>, byDate: map<Date, real>, j: nat)
    requires j <= |weekly|
    ensures LatestWma(weekly, byDate, j).None? <==> forall k :: 0 <= k < j ==> weekly[k].date !in byDate
    ensures forall k :: 0 <= k < j && weekly[k].date in byDate && (forall l :: k < l < j ==> weekly[l].date !in byDate) ==>
      LatestWma(weekly, byDate, j) == Some(byDate[weekly[k].date])
  {
    if j > 0 {
      LatestWmaIsLatest(weekly, byDate, j - 1);
    }
  }

  // ---------------------------------------------------------------------------
  // Mining cost: the latest positive cost, carried forward over the days.

  function CostByDate(mining: seq<MiningFetch.MiningPoint>): map<Date, real>
  {
    LastWins(seq(|mining|, k requires 0 <= k < |mining| => (mining[k].date, mining[k].estimatedCost)))
  }

  predicate PositiveCostOn(byDate: map<Date, real>, d: Date)
  {
    d in byDate && byDate[d] > 0.0
  }

  /** Day `k` is the latest day up to `i` with a positive cost. */
  predicate LatestPositiveDay(prices: seq<DailyPrice>, byDate: map<Date, real>, i: nat, k: int)
  {
    0 <= k <= i < |prices| && PositiveCostOn(byDate, prices[k].date)
      && forall l :: k < l <= i ==> !PositiveCostOn(byDate, prices[l].date)
  }

  /** `lastCost` after day `i`. */
  function CostInForce(prices: seq<DailyPrice>, byDate: map<Date, real>, i: nat): (c: real)
    requires i < |prices|
    ensures c >= 0.0
  {
    if PositiveCostOn(byDate, prices[i].date) then byDate[prices[i].date]
    else if i == 0 then 0.0
    else CostInForce(prices, byDate, i - 1)
  }

  /** The cost in force is that of the latest day up to `i` with a positive cost, or 0 before the first. */
  lemma {:induction false} CostInForceIsLatest(prices: seq<DailyPrice>, byDate: map<Date, real>, i: nat)
    requires i < |prices|
    ensures CostInForce(prices, byDate, i) > 0.0 <==> exists k :: 0 <= k <= i && PositiveCostOn(byDate, prices[k].date)
    ensures forall k :: LatestPositiveDay(prices, byDate, i, k) ==> CostInForce(prices, byDate, i) == byDate[prices[k].date]
  {
    if i > 0 && !PositiveCostOn(byDate, prices[i].date) {
      CostInForceIsLatest(prices, byDate, i - 1);
      forall k | LatestPositiveDay(prices, byDate, i, k) ensures CostInForce(prices, byDate, i) == byDate[prices[k].date] {
        assert LatestPositiveDay(prices, byDate, i - 1, k);
      }
    }
  }

  /** Ratio to a positive cost: at most 1.2 buys, at least 3 sells. */
  function MiningVote(close: real, cost: real): (v: int)
    requires cost > 0.0
    ensures v == Vote(MiningCostIndicator.MiningSignal(MiningCostIndicator.CostRatio(close, cost)))
  {
    var ratio := close / cost;
    if ratio <= MiningBuyRatio then 1 else if ratio >= MiningSellRatio then -1 else 0
  }

  function MiningVotes(prices: seq<DailyPrice>, byDate: map<Date, real>): (vs: seq<Option<int>>)
    ensures |vs| == |prices|
    ensures InRange(vs)
  {
    seq(|prices|, i requires 0 <= i < |prices| =>
      var cost := CostInForce(prices, byDate, i);
      if cost <= 0.0 then None else Some(MiningVote(prices[i].close, cost)))
  }

  function MiningSignalsSpec(mining: seq<MiningFetch.MiningPoint>, prices: seq<DailyPrice>): VoteMap
  {
    if |mining| == 0 then map[] else SetDefined(PriceDates(prices), MiningVotes(prices, CostByDate(mining)))
  }

  method MiningSignals(mining: seq<MiningFetch.MiningPoint>, prices: seq<DailyPrice>) returns (signals: VoteMap)
    ensures signals == MiningSignalsSpec(mining, prices)
  {
    signals := map[];
    if |mining| == 0 {
      return;
    }
    var costByDate := CostByDate(mining);
    ghost var votes := MiningVotes(prices, costByDate);
    ghost var dates := PriceDates(prices);
    var lastCost := 0.0;
    for i := 0 to |prices|
      invariant i == 0 ==> lastCost == 0.0
      invariant i > 0 ==> lastCost == CostInForce(prices, costByDate, i - 1)
      invariant signals == SetDefined(dates[..i], votes[..i])
    {
      var p := prices[i];
      if p.date in costByDate && costByDate[p.date] > 0.0 {
        lastCost := costByDate[p.date];
      }
      SetDefinedSnoc(dates, votes, i);
      if lastCost > 0.0 {
        signals := signals[p.date := MiningVote(p.close, lastCost)];
      }
    }
    assert dates[..|prices|] == dates && votes[..|prices|] == votes;
  }

  // ---------------------------------------------------------------------------
  // Thirty-point momentum of stablecoin supply and of Bitfinex longs.

  /** Supply change over 30 points: above 3% buys, below -1% sells. */
  function StableVote(base: real, current: real): (v: int)
    requires base > 0.0
    ensures v == Vote(StablecoinSupply.RocSignal(PctChange(base, current)))
  {
    var roc := (current - base) / base * 100.0;
    if roc > StableBuyRoc then 1 else if roc < StableSellRoc then -1 else 0
  }

  /** Longs change over 30 points: above 10% buys, below -10% sells. */
  function LongsVote(base: real, current: real): (v: int)
    requires base > 0.0
    ensures v == Vote(BitfinexLongs.LongsSignal(PctChange(base, current).value))
  {
    var roc := (current - base) / base * 100.0;
    if roc > LongsBuyRoc then 1 else if roc < LongsSellRoc then -1 else 0
  }

  function Supplies(data: seq<StablecoinFetch.StablecoinPoint>): (s: seq<real>)
    ensures |s| == |data| && forall i :: 0 <= i < |data| ==> s[i] == data[i].supply
  {
    seq(|data|, i requires 0 <= i < |data| => data[i].supply)
  }

  function StableVotes(data: seq<StablecoinFetch.StablecoinPoint>): (vs: seq<Option<int>>)
    ensures |vs| == |data| && InRange(vs)
    ensures forall i :: 0 <= i < |data| ==> (vs[i].Some? <==> i >= RocLag && data[i - RocLag].supply > 0.0)
  {
    seq(|data|, i requires 0 <= i < |data| =>
      if i >= RocLag && data[i - RocLag].supply > 0.0 then Some(StableVote(data[i - RocLag].supply, data[i].supply)) else None)
  }

  function StableDates(data: seq<StablecoinFetch.StablecoinPoint>): (ds: seq<Date>)
    ensures |ds| == |data| && forall i :: 0 <= i < |data| ==> ds[i] == data[i].date
  {
    seq(|data|, i requires 0 <= i < |data| => data[i].date)
  }

  /** Fewer than 31 points give no vote; the loop starts at point 30. */
  method StablecoinSignals(data: seq<StablecoinFetch.StablecoinPoint>) returns (signals: VoteMap)
    ensures signals == SetDefined(StableDates(data), StableVotes(data))
  {
    if |data| < RocLag + 1 {
      signals := map[];
      NoEarlyVotes(StableDates(data), StableVotes(data));
      return;
    }
    signals := FillMap(StableDates(data), StableVotes(data));
  }

  /** A map filled only from undefined values is empty. */
  lemma {:induction false} NoEarlyVotes<V>(dates: seq<Date>, values: seq<Option<V>>)
    requires |values| == |dates|
    requires forall i :: 0 <= i < |values| ==> values[i].None?
    ensures SetDefined(dates, values) == map[]
  {
    if |dates| > 0 {
      NoEarlyVotes(dates[..|dates| - 1], values[..|dates| - 1]);
    }
  }

  function LongsVotes(data: seq<BitfinexFetch.LongsPoint>): (vs: seq<Option<int>>)
    ensures |vs| == |data| && InRange(vs)
    ensures forall i :: 0 <= i < |data| ==> (vs[i].Some? <==> i >= RocLag && data[i - RocLag].longs > 0.0)
  {
    seq(|data|, i requires 0 <= i < |data| =>
      if i >= RocLag && data[i - RocLag].longs > 0.0 then Some(LongsVote(data[i - RocLag].longs, data[i].longs)) else None)
  }

  function LongsDates(data: seq<BitfinexFetch.LongsPoint>): (ds: seq<Date>)
    ensures |ds| == |data| && forall i :: 0 <= i < |data| ==> ds[i] == data[i].date
  {
    seq(|data|, i requires 0 <= i < |data| => data[i].date)
  }

  method LongsSignals(data: seq<BitfinexFetch.LongsPoint>) returns (signals: VoteMap)
    ensures signals == SetDefined(LongsDates(data), LongsVotes(data))
  {
    if |data| < RocLag + 1 {
      signals := map[];
      NoEarlyVotes(LongsDates(data), LongsVotes(data));
      return;
    }
    signals := FillMap(LongsDates(data), LongsVotes(data));
  }

  // ---------------------------------------------------------------------------
  // Coinbase premium over Binance.

  /** Premium in percent over a positive Binance close: above 0.1 buys, below -0.05 sells. */
  function GapVote(binanceClose: real, coinbaseClose: real): (v: int)
    requires binanceClose > 0.0
    ensures v == Vote(BinanceCoinbaseGap.GapSignal(PctChange(binanceClose, coinbaseClose).value))
  {
    var gap := (coinbaseClose - binanceClose) / binanceClose * 100.0;
    if gap > GapBuy then 1 else if gap < GapSell then -1 else 0
  }

  /** A vote only where the Coinbase close is truthy and the Binance close positive. */
  function GapVotes(binance: seq<ExchangeFetch.ExchangePrice>, cbByDate: map<Date, real>): (vs: seq<Option<int>>)
    ensures |vs| == |binance| && InRange(vs)
    ensures forall i :: 0 <= i < |binance| ==> (vs[i].Some? <==> TruthyAt(cbByDate, binance[i].date) && binance[i].close > 0.0)
  {
    seq(|binance|, i requires 0 <= i < |binance| =>
      if !TruthyAt(cbByDate, binance[i].date) || binance[i].close <= 0.0 then None
      else Some(GapVote(binance[i].close, cbByDate[binance[i].date])))
  }

  function BinanceDates(binance: seq<ExchangeFetch.ExchangePrice>): (ds: seq<Date>)
    ensures |ds| == |binance| && forall i :: 0 <= i < |binance| ==> ds[i] == binance[i].date
  {
    seq(|binance|, i requires 0 <= i < |binance| => binance[i].date)
  }

  function GapSignalsSpec(binance: seq<ExchangeFetch.ExchangePrice>, coinbase: seq<ExchangeFetch.ExchangePrice>): VoteMap
  {
    if |binance| == 0 || |coinbase| == 0 then map[]
    else SetDefined(BinanceDates(binance), GapVotes(binance, BinanceCoinbaseGap.CoinbaseByDate(coinbase)))
  }

  method GapSignals(binance: seq<ExchangeFetch.ExchangePrice>, coinbase: seq<ExchangeFetch.ExchangePrice>) returns (signals: VoteMap)
    ensures signals == GapSignalsSpec(binance, coinbase)
  {
    if |binance| == 0 || |coinbase| == 0 {
      return map[];
    }
    var cbByDate := BinanceCoinbaseGap.CoinbaseByDate(coinbase);
    signals := FillMap(BinanceDates(binance), GapVotes(binance, cbByDate));
  }

  // ---------------------------------------------------------------------------
  // DVOL, and the live put/call ratio on the latest DVOL date.

  function DvolVote(iv: real): (v: int)
    ensures v == 1 <==> iv > DvolBuy
    ensures v == -1 <==> iv < DvolSell
    ensures v == 0 <==> DvolSell <= iv <= DvolBuy
  {
    if iv > DvolBuy then 1 else if iv < DvolSell then -1 else 0
  }

  function DvolVotes(data: seq<DeribitFetch.DvolPoint>): (vs: seq<Option<int>>)
    ensures |vs| == |data| && InRange(vs) && forall i :: 0 <= i < |data| ==> vs[i].Some?
  {
    seq(|data|, i requires 0 <= i < |data| => Some(DvolVote(data[i].iv)))
  }

  function DvolDates(data: seq<DeribitFetch.DvolPoint>): (ds: seq<Date>)
    ensures |ds| == |data| && forall i :: 0 <= i < |data| ==> ds[i] == data[i].date
  {
    seq(|data|, i requires 0 <= i < |data| => data[i].date)
  }

  method DvolSignals(data: seq<DeribitFetch.DvolPoint>) returns (signals: VoteMap)
    ensures signals == SetDefined(DvolDates(data), DvolVotes(data))
  {
    signals := FillMap(DvolDates(data), DvolVotes(data));
  }

  /** The put/call vote: at least 0.7 buys, at most 0.4 sells. */
  function PcrVote(pcr: real): (v: int)
    ensures v == Vote(DeribitOptions.PcrSignal(pcr))
  {
    if pcr >= PcrBuy then 1 else if pcr <= PcrSell then -1 else 0
  }

  /** With a live ratio and some DVOL history, the latest DVOL date takes the put/call vote; nothing else changes. */
  function WithLivePcr(signals: VoteMap, dvol: seq<DeribitFetch.DvolPoint>, livePcr: Option<real>): (r: VoteMap)
    ensures livePcr.None? || |dvol| == 0 ==> r == signals
    ensures livePcr.Some? && |dvol| > 0 ==>
      var last := dvol[|dvol| - 1].date;
      && last in r && r[last] == PcrVote(livePcr.value)
      && forall d :: d != last ==> (d in r <==> d in signals) && (d in r ==> r[d] == signals[d])
  {
    if livePcr.Some? && |dvol| > 0 then signals[dvol[|dvol| - 1].date := PcrVote(livePcr.value)] else signals
  }

  // ---------------------------------------------------------------------------
  // All seven maps.

  /** The seven maps in the order the composite lists them. */
  function AllMaps(prices: seq<DailyPrice>, mining: seq<MiningFetch.MiningPoint>, stablecoin: seq<StablecoinFetch.StablecoinPoint>,
                   binance: seq<ExchangeFetch.ExchangePrice>, coinbase: seq<ExchangeFetch.ExchangePrice>,
                   bitfinex: seq<BitfinexFetch.LongsPoint>, dvol: seq<DeribitFetch.DvolPoint>, livePcr: Option<real>): (maps: seq<VoteMap>)
    ensures |maps| == 7
  {
    [SetDefined(PriceDates(prices), MayerVotes(prices)),
     WmaSignalsSpec(prices),
     MiningSignalsSpec(mining, prices),
     SetDefined(StableDates(stablecoin), StableVotes(stablecoin)),
     GapSignalsSpec(binance, coinbase),
     SetDefined(LongsDates(bitfinex), LongsVotes(bitfinex)),
     WithLivePcr(SetDefined(DvolDates(dvol), DvolVotes(dvol)), dvol, livePcr)]
  }

  /** Every map holds only votes -1, 0 and +1. */
  lemma AllVoteMaps(prices: seq<DailyPrice>, mining: seq<MiningFetch.MiningPoint>, stablecoin: seq<StablecoinFetch.StablecoinPoint>,
                    binance: seq<ExchangeFetch.ExchangePrice>, coinbase: seq<ExchangeFetch.ExchangePrice>,
                    bitfinex: seq<BitfinexFetch.LongsPoint>, dvol: seq<DeribitFetch.DvolPoint>, livePcr: Option<real>)
    ensures var maps := AllMaps(prices, mining, stablecoin, binance, coinbase, bitfinex, dvol, livePcr);
      forall m :: 0 <= m < |maps| ==> IsVoteMap(maps[m])
  {
    MayerVoteMap(prices);
    WmaVoteMap(prices);
    MiningVoteMap(mining, prices);
    StableVoteMap(stablecoin);
    GapVoteMap(binance, coinbase);
    LongsVoteMap(bitfinex);
    DvolVoteMap(dvol, livePcr);
  }

  lemma MayerVoteMap(prices: seq<DailyPrice>)
    ensures IsVoteMap(SetDefined(PriceDates(prices), MayerVotes(prices)))
  {
    SetDefinedVotes(PriceDates(prices), MayerVotes(prices));
  }

  lemma WmaVoteMap(prices: seq<DailyPrice>)
    ensures IsVoteMap(WmaSignalsSpec(prices))
  {
    var weekly := TwoHundredWma.Weekly(prices);
    SetDefinedVotes(PriceDates(prices), WmaVotes(prices, weekly, WeeklyWmaByDate(weekly)));
  }

  lemma MiningVoteMap(mining: seq<MiningFetch.MiningPoint>, prices: seq<DailyPrice>)
    ensures IsVoteMap(MiningSignalsSpec(mining, prices))
  {
    if |mining| > 0 {
      SetDefinedVotes(PriceDates(prices), MiningVotes(prices, CostByDate(mining)));
    }
  }

  lemma StableVoteMap(stablecoin: seq<StablecoinFetch.StablecoinPoint>)
    ensures IsVoteMap(SetDefined(StableDates(stablecoin), StableVotes(stablecoin)))
  {
    SetDefinedVotes(StableDates(stablecoin), StableVotes(stablecoin));
  }

  lemma GapVoteMap(binance: seq<ExchangeFetch.ExchangePrice>, coinbase: seq<ExchangeFetch.ExchangePrice>)
    ensures IsVoteMap(GapSignalsSpec(binance, coinbase))
  {
    if |binance| > 0 && |coinbase| > 0 {
      SetDefinedVotes(BinanceDates(binance), GapVotes(binance, BinanceCoinbaseGap.CoinbaseByDate(coinbase)));
    }
  }

  lemma LongsVoteMap(bitfinex: seq<BitfinexFetch.LongsPoint>)
    ensures IsVoteMap(SetDefined(LongsDates(bitfinex), LongsVotes(bitfinex)))
  {
    SetDefinedVotes(LongsDates(bitfinex), LongsVotes(bitfinex));
  }

  /** The live put/call vote is -1, 0 or +1 too. */
  lemma DvolVoteMap(dvol: seq<DeribitFetch.DvolPoint>, livePcr: Option<real>)
    ensures IsVoteMap(WithLivePcr(SetDefined(DvolDates(dvol), DvolVotes(dvol)), dvol, livePcr))
  {
    SetDefinedVotes(DvolDates(dvol), DvolVotes(dvol));
  }

  method AllSignals(prices: seq<DailyPrice>, mining: seq<MiningFetch.MiningPoint>, stablecoin: seq<StablecoinFetch.StablecoinPoint>,
                    binance: seq<ExchangeFetch.ExchangePrice>, coinbase: seq<ExchangeFetch.ExchangePrice>,
                    bitfinex: seq<BitfinexFetch.LongsPoint>, dvol: seq<DeribitFetch.DvolPoint>, livePcr: Option<real>)
    returns (maps: seq<VoteMap>)
    ensures maps == AllMaps(prices, mining, stablecoin, binance, coinbase, bitfinex, dvol, livePcr)
  {
    var mayer := MayerSignals(prices);
    var wma := WmaSignals(prices);
    var miningSignals := MiningSignals(mining, prices);
    var stable := StablecoinSignals(stablecoin);
    var gap := GapSignals(binance, coinbase);
    var longs := LongsSignals(bitfinex);
    var dvolSignals := DvolSignals(dvol);
    maps := [mayer, wma, miningSignals, stable, gap, longs, WithLivePcr(dvolSignals, dvol, livePcr)];
  }
}
