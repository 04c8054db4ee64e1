/**
 * Realized price: the on-chain cost basis carried forward onto the BTC
 * price dates, MVRV (price over realized price) and its signal, the weekly
 * sampled chart lines, and a backtest of every MVRV below 1.2 from 2012 on,
 * ninety days apart, with the returns 180 and 365 rows later.
 */
module RealizedPrice {
  import opened Common
  import opened Engine

  const BuyThreshold := 1.0
  const SellThreshold := 3.5
  const BacktestTrigger := 1.2
  /** 2012-01-01T00:00:00Z. */
  const FirstTriggerTimestamp := 1325376000
  const SampleStep := 7

  datatype RealizedPoint = RealizedPoint(date: Date, realizedPrice: real)

  /** The loop of `realizedByDate.set(rp.date, rp.realizedPrice)`. */
  function RealizedByDate(realized: seq<RealizedPoint>): map<Date, real>
  {
    LastWins(seq(|realized|, k requires 0 <= k < |realized| => (realized[k].date, realized[k].realizedPrice)))
  }

  function RealizedSignal(mvrv: Option<real>): (s: Signal)
    ensures s == Buy <==> mvrv.Some? && mvrv.value <= BuyThreshold
    ensures s == Sell <==> mvrv.Some? && mvrv.value >= SellThreshold
  {
    match mvrv
    case None => Neutral
    case Some(v) => if v <= BuyThreshold then Buy else if v >= SellThreshold then Sell else Neutral
  }

  // Forward-fill.

  /** The realized price in force on day `i`: that of the latest day up to `i` that has one, else 0. */
  function FilledAt(prices: seq<DailyPrice>, byDate: map<Date, real>, i: nat): real
    requires i < |prices|
  {
    if prices[i].date in byDate then byDate[prices[i].date]
    else if i == 0 then 0.0
    else FilledAt(prices, byDate, i - 1)
  }

  function FilledSpec(prices: seq<DailyPrice>, byDate: map<Date, real>): (r: seq<real>)
    ensures |r| == |prices|
    ensures forall i :: 0 <= i < |prices| ==> r[i] == FilledAt(prices, byDate, i)
  {
    seq(|prices|, i requires 0 <= i < |prices| => FilledAt(prices, byDate, i))
  }

  /** The alignment loop carrying `lastKnown` forward. */
  method Align(prices: seq<DailyPrice>, byDate: map<Date, real>) returns (aligned: seq<real>)
    ensures aligned == FilledSpec(prices, byDate)
  {
    aligned := [];
    var lastKnown := 0.0;
    var i := 0;
    while i < |prices|
      invariant 0 <= i <= |prices| && |aligned| == i
      invariant forall j :: 0 <= j < i ==> aligned[j] == FilledAt(prices, byDate, j)
      invariant i == 0 ==> lastKnown == 0.0
      invariant i > 0 ==> lastKnown == FilledAt(prices, byDate, i - 1)
    {
      if prices[i].date in byDate {
        lastKnown := byDate[prices[i].date];
      }
      aligned := aligned + [lastKnown];
      i := i + 1;
    }
  }

  /** Day `j` is the latest day up to `i` whose date has a realized price. */
  predicate LatestKnown(prices: seq<DailyPrice>, byDate: map<Date, real>, i: nat, j: nat)
  {
    j <= i < |prices| && prices[j].date in byDate
      && forall k :: j < k <= i ==> prices[k].date !in byDate
  }

  /** The filled value is that of the latest known day, or 0 when no day up to `i` is known. */
  lemma {:induction false} FilledIsLatest(prices: seq<DailyPrice>, byDate: map<Date, real>, i: nat)
    requires i < |prices|
    ensures (forall k :: 0 <= k <= i ==> prices[k].date !in byDate) ==> FilledAt(prices, byDate, i) == 0.0
    ensures forall j: nat :: LatestKnown(prices, byDate, i, j) ==> FilledAt(prices, byDate, i) == byDate[prices[j].date]
  {
    if i > 0 && prices[i].date !in byDate {
      FilledIsLatest(prices, byDate, i - 1);
      forall j: nat | LatestKnown(prices, byDate, i, j) ensures FilledAt(prices, byDate, i) == byDate[prices[j].date] {
        assert j != i;
        assert LatestKnown(prices, byDate, i - 1, j);
      }
    }
  }

  /** `aligned[i] > 0 ? close / aligned[i] : NaN`. */
  function Mvrv(prices: seq<DailyPrice>, aligned: seq<real>): (m: seq<Option<real>>)
    requires |aligned| == |prices|
    ensures |m| == |prices|
    ensures forall i :: 0 <= i < |prices| ==> (m[i].Some? <==> aligned[i] > 0.0)
    ensures forall i :: 0 <= i < |prices| && m[i].Some? ==> m[i].value * aligned[i] == prices[i].close
  {
    seq(|prices|, i requires 0 <= i < |prices| =>
      if aligned[i] > 0.0 then Some(prices[i].close / aligned[i]) else None)
  }

  // The weekly chart samples.

  /** Every seventh index below `n`. */
  function Multiples(k: nat): (s: seq<nat>)
    ensures |s| == k && forall j :: 0 <= j < k ==> s[j] == SampleStep * j
  {
    seq(k, j requires 0 <= j < k => SampleStep * j)
  }

  function SampleCount(n: nat): (k: nat)
    ensures SampleStep * (k - 1) < n <= SampleStep * k || (n == 0 && k == 0)
  {
    (n + SampleStep - 1) / SampleStep
  }

  /** The sample indices: every seventh one, then the last one when it is not already there. */
  function SampleIndices(n: nat): seq<nat>
    requires n > 0
  {
    Multiples(SampleCount(n)) + if (n - 1) % SampleStep != 0 then [n - 1] else []
  }

  /** An index is sampled iff it is a multiple of 7 or the last one; the samples ascend. */
  lemma SampleIndicesExact(n: nat)
    requires n > 0
    ensures forall i: nat :: i in SampleIndices(n) <==> i < n && (i % SampleStep == 0 || i == n - 1)
    ensures forall a, b :: 0 <= a < b < |SampleIndices(n)| ==> SampleIndices(n)[a] < SampleIndices(n)[b]
  {
    var s := SampleIndices(n);
    var c := SampleCount(n);
    var m := Multiples(c);
    forall i: nat | i < n && i % 7 == 0 ensures i in s {
      var q := i / 7;
      assert 7 * q == i;
      assert q < c;
      assert m[q] == i;
    }
    forall j | 0 <= j < c ensures m[j] < n && m[j] % 7 == 0 {
      assert m[j] == 7 * j;
      assert (7 * j) % 7 == 0;
    }
    forall i: nat | i in s ensures i < n && (i % SampleStep == 0 || i == n - 1) {
      if i in m {
        var j :| 0 <= j < c && m[j] == i;
      }
    }
  }

  /** The points of `values` at the indices `idx`, where the value is positive. */
  function PositiveAt(prices: seq<DailyPrice>, values: seq<real>, idx: seq<nat>): seq<(Date, real)>
    requires |values| == |prices|
    requires forall k :: 0 <= k < |idx| ==> idx[k] < |prices|
  {
    if |idx| == 0 then []
    else
      var i := idx[|idx| - 1];
      PositiveAt(prices, values, idx[..|idx| - 1]) + if values[i] > 0.0 then [(prices[i].date, values[i])] else []
  }

  /** The price line: sampled positive closes, and the last close whatever its sign when it is not sampled already. */
  function PriceLineSpec(prices: seq<DailyPrice>): seq<(Date, real)>
    requires |prices| > 0
  {
    var n := |prices|;
    PositiveAt(prices, Closes(prices), Multiples(SampleCount(n)))
      + if (n - 1) % SampleStep != 0 then [(prices[n - 1].date, prices[n - 1].close)] else []
  }

  /** The realized line: sampled positive realized prices, the last one too when positive. */
  function RealizedLineSpec(prices: seq<DailyPrice>, aligned: seq<real>): seq<(Date, real)>
    requires |prices| > 0 && |aligned| == |prices|
  {
    var n := |prices|;
    PositiveAt(prices, aligned, Multiples(SampleCount(n)))
      + if (n - 1) % SampleStep != 0 && aligned[n - 1] > 0.0 then [(prices[n - 1].date, aligned[n - 1])] else []
  }

  /** The sampling loop stepping by 7, then the latest point. */
  method ChartLines(prices: seq<DailyPrice>, aligned: seq<real>) returns (priceLine: seq<(Date, real)>, realizedLine: seq<(Date, real)>)
    requires |prices| > 0 && |aligned| == |prices|
    ensures priceLine == PriceLineSpec(prices)
    ensures realizedLine == RealizedLineSpec(prices, aligned)
  {
    var closes := Closes(prices);
    priceLine, realizedLine := [], [];
    var i, k := 0, 0;
    while i < |prices|
      invariant i == SampleStep * k && k <= SampleCount(|prices|)
      invariant priceLine == PositiveAt(prices, closes, Multiples(k))
      invariant realizedLine == PositiveAt(prices, aligned, Multiples(k))
    {
      assert Multiples(k + 1)[..k] == Multiples(k);
      if prices[i].close > 0.0 {
        priceLine := priceLine + [(prices[i].date, prices[i].close)];
      }
      if aligned[i] > 0.0 {
        realizedLine := realizedLine + [(prices[i].date, aligned[i])];
      }
      i, k := i + SampleStep, k + 1;
    }
    var last := |prices| - 1;
    if last % SampleStep != 0 {
      priceLine := priceLine + [(prices[last].date, prices[last].close)];
      if aligned[last] > 0.0 {
        realizedLine := realizedLine + [(prices[last].date, aligned[last])];
      }
    }
  }

  // The backtest.

  datatype RealizedRow =
    | RealizedHit(date: Date, price: real, realized: real, mvrv: real)
    | RealizedEnriched(date: Date, price: real, realized: real, mvrv: real, return6m: Option<real>, return12m: Option<real>)

  /** Fires on a defined MVRV below 1.2 on a day from 2012 on. */
  function RealizedTrigger(aligned: seq<real>): (seq<DailyPrice>, nat, seq<Option<real>>) -> Option<RealizedRow>
  {
    (prices: seq<DailyPrice>, i: nat, computed: seq<Option<real>>) =>
      if i >= |prices| || i >= |computed| || i >= |aligned| || computed[i].None? then None
      else if computed[i].value >= BacktestTrigger || prices[i].timestamp < FirstTriggerTimestamp then None
      else Some(RealizedHit(prices[i].date, prices[i].close, aligned[i], computed[i].value))
  }

  /** Adds the returns 180 and 365 rows later, missing ("?") past the end. */
  function RealizedEnrich(row: RealizedRow, t: nat, prices: seq<DailyPrice>): (r: RealizedRow)
    ensures t < |prices| ==> r == RealizedEnriched(row.date, row.price, row.realized, row.mvrv,
      OffsetReturn(prices, t, 180), OffsetReturn(prices, t, 365))
  {
    if t >= |prices| then row
    else RealizedEnriched(row.date, row.price, row.realized, row.mvrv, OffsetReturn(prices, t, 180), OffsetReturn(prices, t, 365))
  }

  function RealizedConfig(aligned: seq<real>): Config<DailyPrice, Option<real>, RealizedRow>
  {
    Config("Every time price approached realized price (MVRV < 1.2)",
      [Column("date", "Date"), Column("price", "BTC Price"), Column("realized", "Realized"),
       Column("mvrvVal", "MVRV"), Column("return6m", "6mo Return"), Column("return12m", "12mo Return")],
      RealizedTrigger(aligned), Some(RealizedEnrich), Some(90))
  }

  /**
   * Rows are days from 2012 on with a realized price in force and MVRV
   * below 1.2, ninety days apart, with "?" exactly past the end (or on a
   * zero close).
   */
  lemma RealizedRows(prices: seq<DailyPrice>, aligned: seq<real>)
    requires |aligned| == |prices|
    ensures var mvrv := Mvrv(prices, aligned);
      var e := ScanSpec(EngineTrigger(prices, mvrv, RealizedConfig(aligned)), 90, |prices|);
      && (forall k :: 0 <= k < |e| ==>
            var t := e[k].index;
            && t < |prices| && aligned[t] > 0.0 && mvrv[t].Some? && mvrv[t].value < BacktestTrigger
            && prices[t].timestamp >= FirstTriggerTimestamp
            && e[k].row.RealizedEnriched? && e[k].row.realized == aligned[t] && e[k].row.mvrv == mvrv[t].value
            && (e[k].row.return6m.None? <==> t + 180 >= |prices| || prices[t].close == 0.0)
            && (e[k].row.return12m.None? <==> t + 365 >= |prices| || prices[t].close == 0.0))
      && (forall k, l :: 0 <= k < l < |e| ==> e[l].index - e[k].index >= 90)
  {
    EngineRows(prices, Mvrv(prices, aligned), RealizedConfig(aligned));
  }

  /** How far the price sits above the realized price, in percent; 0 without a realized price. */
  function DistancePct(close: real, realized: real): (d: real)
    ensures realized > 0.0 ==> realized * (100.0 + d) == 100.0 * close
    ensures realized > 0.0 ==> (d > 0.0 <==> close > realized)
    ensures realized <= 0.0 ==> d == 0.0
  {
    if realized > 0.0 then
      var d := (close - realized) / realized * 100.0;
      assert realized * d == (close - realized) * 100.0;
      d
    else 0.0
  }

  datatype RealizedOutcome = RealizedOutcome(
    currentValue: real, currentMvrv: Option<real>, signal: Signal, distancePct: real,
    priceLine: seq<(Date, real)>, realizedLine: seq<(Date, real)>, backtest: Table<RealizedRow>)

  /**
   * The indicator. With no BTC prices the source fails adding the latest
   * chart point (`prices[-1]`), which is `None` here.
   */
  method Calculate(prices: seq<DailyPrice>, realized: seq<RealizedPoint>) returns (out: Option<RealizedOutcome>)
    ensures out.None? <==> |prices| == 0
    ensures out.Some? ==>
      var aligned := FilledSpec(prices, RealizedByDate(realized));
      var mvrv := Mvrv(prices, aligned);
      var n := |prices|;
      && out.value.currentValue == aligned[n - 1]
      && out.value.currentMvrv == mvrv[n - 1]
      && out.value.signal == RealizedSignal(mvrv[n - 1])
      && out.value.distancePct == DistancePct(prices[n - 1].close, aligned[n - 1])
      && out.value.priceLine == PriceLineSpec(prices)
      && out.value.realizedLine == RealizedLineSpec(prices, aligned)
      && out.value.backtest.rows == Rows(ScanSpec(EngineTrigger(prices, mvrv, RealizedConfig(aligned)), 90, n))
  {
    if |prices| == 0 {
      return None;
    }
    var aligned := Align(prices, RealizedByDate(realized));
    var mvrv := Mvrv(prices, aligned);
    var last := |prices| - 1;
    var priceLine, realizedLine := ChartLines(prices, aligned);
    var backtest := RunBacktest(prices, mvrv, RealizedConfig(aligned));
    var current := aligned[last];
    out := Some(RealizedOutcome(current, mvrv[last], RealizedSignal(mvrv[last]), DistancePct(prices[last].close, current),
      priceLine, realizedLine, backtest));
  }
}
