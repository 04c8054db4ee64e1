/**
 * The Mayer multiple: close over the 200-day SMA, its signal and bar colour,
 * the yearly peak bars, and the "Mayer at most 0.6" backtest.
 */
module MayerMultiple {
  import opened Common
  import opened MovingAverage
  import opened Engine

  const SmaPeriod: nat := 200
  const BuyThreshold: real := 0.8
  const SellThreshold: real := 2.4
  const BacktestThreshold: real := 0.6

  /** Buy below 0.8, sell above 2.4, neutral otherwise and for a missing value. */
  function MayerSignal(value: Option<real>): (s: Signal)
    ensures s == Buy <==> value.Some? && value.value < BuyThreshold
    ensures s == Sell <==> value.Some? && value.value > SellThreshold
    ensures s == Neutral <==> value.None? || BuyThreshold <= value.value <= SellThreshold
  {
    match value
    case None => Neutral
    case Some(v) => if v < BuyThreshold then Buy else if v > SellThreshold then Sell else Neutral
  }

  datatype BarColor = Green | Red | Yellow

  /** The same thresholds as the signal: green below 0.8, red above 2.4, yellow between. */
  function MayerBarColor(value: real): (c: BarColor)
    ensures c == Green <==> MayerSignal(Some(value)) == Buy
    ensures c == Red <==> MayerSignal(Some(value)) == Sell
  {
    if value < BuyThreshold then Green else if value > SellThreshold then Red else Yellow
  }

  /** `close / sma200[i]` where the SMA is defined (and non-zero), missing elsewhere. */
  function MayerValues(closes: seq<real>, sma: seq<Option<real>>): (m: seq<Option<real>>)
    requires |sma| == |closes|
    ensures |m| == |closes|
    ensures forall i :: 0 <= i < |closes| ==>
      (m[i].Some? <==> sma[i].Some? && sma[i].value != 0.0)
    ensures forall i :: 0 <= i < |closes| && m[i].Some? ==> m[i].value * sma[i].value == closes[i]
  {
    seq(|closes|, i requires 0 <= i < |closes| =>
      if sma[i].Some? && sma[i].value != 0.0 then Some(closes[i] / sma[i].value) else None)
  }

  // ---------------------------------------------------------------------------
  // Yearly peak bars. `yearOf` is `new Date(ts * 1000).getUTCFullYear()`.

  /** The defined Mayer values of the first `n` days that fall in `year`, in day order. */
  function ValuesOfYear(prices: seq<DailyPrice>, mayer: seq<Option<real>>, yearOf: int -> int, n: nat, year: int)
    : seq<real>
    requires n <= |prices| && n <= |mayer|
  {
    if n == 0 then []
    else
      var earlier := ValuesOfYear(prices, mayer, yearOf, n - 1, year);
      if mayer[n - 1].Some? && yearOf(prices[n - 1].timestamp) == year then earlier + [mayer[n - 1].value]
      else earlier
  }

  /** Year `a` had a defined value before year `b` had one. */
  ghost predicate SeenBefore(prices: seq<DailyPrice>, mayer: seq<Option<real>>, yearOf: int -> int, n: nat, a: int, b: int)
    requires n <= |prices| && n <= |mayer|
  {
    exists j :: 0 <= j <= n && |ValuesOfYear(prices, mayer, yearOf, j, a)| > 0 && |ValuesOfYear(prices, mayer, yearOf, j, b)| == 0
  }

  function MaxOf(values: seq<real>): real
    requires |values| > 0
  {
    if |values| == 1 then values[0]
    else
      var m := MaxOf(values[..|values| - 1]);
      if values[|values| - 1] > m then values[|values| - 1] else m
  }

  /** `Math.max(...values)`: an upper bound attained by some value. */
  lemma {:induction false} MaxOfIsMax(values: seq<real>)
    requires |values| > 0
    ensures forall k :: 0 <= k < |values| ==> values[k] <= MaxOf(values)
    ensures MaxOf(values) in values
  {
    if |values| > 1 {
      MaxOfIsMax(values[..|values| - 1]);
      assert values[..|values| - 1][|values| - 2] == values[|values| - 2];
      forall k | 0 <= k < |values| - 1 ensures values[k] <= MaxOf(values) {
        assert values[k] == values[..|values| - 1][k];
      }
    }
  }

  datatype YearBar = YearBar(year: int, peak: real, color: BarColor)

  lemma SeenBeforeGrows(prices: seq<DailyPrice>, mayer: seq<Option<real>>, yearOf: int -> int, n: nat, m: nat, a: int, b: int)
    requires n <= m <= |prices| && m <= |mayer|
    requires SeenBefore(prices, mayer, yearOf, n, a, b)
    ensures SeenBefore(prices, mayer, yearOf, m, a, b)
  {
    var j :| 0 <= j <= n && |ValuesOfYear(prices, mayer, yearOf, j, a)| > 0 && |ValuesOfYear(prices, mayer, yearOf, j, b)| == 0;
    assert 0 <= j <= m;
  }

  /** One more day adds its defined value to its own year and changes no other year. */
  lemma ValuesOfYearStep(prices: seq<DailyPrice>, mayer: seq<Option<real>>, yearOf: int -> int, i: nat)
    requires i < |prices| && i < |mayer|
    ensures mayer[i].None? ==> forall y :: ValuesOfYear(prices, mayer, yearOf, i + 1, y) == ValuesOfYear(prices, mayer, yearOf, i, y)
    ensures mayer[i].Some? ==> forall y :: y != yearOf(prices[i].timestamp) ==>
      ValuesOfYear(prices, mayer, yearOf, i + 1, y) == ValuesOfYear(prices, mayer, yearOf, i, y)
    ensures mayer[i].Some? ==> var y := yearOf(prices[i].timestamp);
      ValuesOfYear(prices, mayer, yearOf, i + 1, y) == ValuesOfYear(prices, mayer, yearOf, i, y) + [mayer[i].value]
  {
  }

  /**
   * The loop that groups defined values by year: `years` holds the map's
   * keys in insertion order, i.e. in order of each year's first defined value.
   */
  method GroupByYear(prices: seq<DailyPrice>, mayer: seq<Option<real>>, yearOf: int -> int)
    returns (years: seq<int>, yearly: map<int, seq<real>>)
    requires |mayer| == |prices|
    ensures forall y :: y in yearly <==> |ValuesOfYear(prices, mayer, yearOf, |prices|, y)| > 0
    ensures forall y :: y in yearly ==> yearly[y] == ValuesOfYear(prices, mayer, yearOf, |prices|, y)
    ensures forall y :: y in years <==> y in yearly
    ensures forall k, l :: 0 <= k < l < |years| ==> years[k] != years[l]
    ensures forall k, l :: 0 <= k < l < |years| ==> SeenBefore(prices, mayer, yearOf, |prices|, years[k], years[l])
  {
    years := [];
    yearly := map[];
    var i := 0;
    while i < |prices|
      invariant 0 <= i <= |prices|
      invariant forall y :: y in yearly <==> |ValuesOfYear(prices, mayer, yearOf, i, y)| > 0
      invariant forall y :: y in yearly ==> yearly[y] == ValuesOfYear(prices, mayer, yearOf, i, y)
      invariant forall y :: y in years <==> y in yearly
      invariant forall k, l :: 0 <= k < l < |years| ==> years[k] != years[l]
      invariant forall k, l :: 0 <= k < l < |years| ==> SeenBefore(prices, mayer, yearOf, i, years[k], years[l])
    {
      ValuesOfYearStep(prices, mayer, yearOf, i);
      forall k, l | 0 <= k < l < |years| ensures SeenBefore(prices, mayer, yearOf, i + 1, years[k], years[l]) {
        SeenBeforeGrows(prices, mayer, yearOf, i, i + 1, years[k], years[l]);
      }
      if mayer[i].Some? {
        var year := yearOf(prices[i].timestamp);
        if year !in yearly {
          forall k | 0 <= k < |years| ensures SeenBefore(prices, mayer, yearOf, i + 1, years[k], year) {
            assert years[k] in years;
            assert |ValuesOfYear(prices, mayer, yearOf, i, years[k])| > 0;
          }
          years := years + [year];
          yearly := yearly[year := []];
        }
        yearly := yearly[year := yearly[year] + [mayer[i].value]];
      }
      i := i + 1;
    }
  }

  /** One bar per year with a defined value, in first-appearance order, at that year's peak. */
  method YearlyBars(prices: seq<DailyPrice>, mayer: seq<Option<real>>, yearOf: int -> int)
    returns (bars: seq<YearBar>)
    requires |mayer| == |prices|
    ensures forall y ::
      (exists k :: 0 <= k < |bars| && bars[k].year == y) <==> |ValuesOfYear(prices, mayer, yearOf, |prices|, y)| > 0
    ensures forall k, l :: 0 <= k < l < |bars| ==> bars[k].year != bars[l].year
    ensures forall k, l :: 0 <= k < l < |bars| ==> SeenBefore(prices, mayer, yearOf, |prices|, bars[k].year, bars[l].year)
    ensures forall k :: 0 <= k < |bars| ==>
      var values := ValuesOfYear(prices, mayer, yearOf, |prices|, bars[k].year);
      |values| > 0 && bars[k].peak == MaxOf(values) && bars[k].color == MayerBarColor(bars[k].peak)
  {
    var years, yearly := GroupByYear(prices, mayer, yearOf);
    bars := [];
    var k := 0;
    while k < |years|
      invariant 0 <= k <= |years|
      invariant |bars| == k
      invariant forall m :: 0 <= m < k ==> bars[m].year == years[m]
      invariant forall m :: 0 <= m < k ==>
        var values := ValuesOfYear(prices, mayer, yearOf, |prices|, bars[m].year);
        |values| > 0 && bars[m].peak == MaxOf(values) && bars[m].color == MayerBarColor(bars[m].peak)
    {
      assert years[k] in years;
      var peak := MaxOf(yearly[years[k]]);
      bars := bars + [YearBar(years[k], peak, MayerBarColor(peak))];
      k := k + 1;
    }
    forall y | |ValuesOfYear(prices, mayer, yearOf, |prices|, y)| > 0
      ensures exists k :: 0 <= k < |bars| && bars[k].year == y
    {
      var m :| 0 <= m < |years| && years[m] == y;
      assert bars[m].year == y;
    }
    forall y | exists k :: 0 <= k < |bars| && bars[k].year == y
      ensures |ValuesOfYear(prices, mayer, yearOf, |prices|, y)| > 0
    {
      var k :| 0 <= k < |bars| && bars[k].year == y;
      assert years[k] in years;
    }
  }

  /** A year's bar is that year's largest defined Mayer value. */
  lemma YearPeakIsMax(prices: seq<DailyPrice>, mayer: seq<Option<real>>, yearOf: int -> int, i: nat)
    requires |mayer| == |prices| && i < |prices| && mayer[i].Some?
    ensures var values := ValuesOfYear(prices, mayer, yearOf, |prices|, yearOf(prices[i].timestamp));
      |values| > 0 && mayer[i].value <= MaxOf(values) && MaxOf(values) in values
  {
    var y := yearOf(prices[i].timestamp);
    ValuesOfYearContains(prices, mayer, yearOf, |prices|, i);
    var values := ValuesOfYear(prices, mayer, yearOf, |prices|, y);
    MaxOfIsMax(values);
  }

  lemma {:induction false} ValuesOfYearContains(prices: seq<DailyPrice>, mayer: seq<Option<real>>, yearOf: int -> int, n: nat, i: nat)
    requires n <= |prices| && n <= |mayer| && i < n && mayer[i].Some?
    ensures mayer[i].value in ValuesOfYear(prices, mayer, yearOf, n, yearOf(prices[i].timestamp))
  {
    if i < n - 1 {
      ValuesOfYearContains(prices, mayer, yearOf, n - 1, i);
    }
  }

  // ---------------------------------------------------------------------------
  // Backtest

  datatype MayerRow =
    | MayerHit(date: Date, price: real, mayer: real)
    | MayerEnriched(date: Date, price: real, mayer: real, return6m: Option<real>, return12m: Option<real>)

  function MayerAt(computed: seq<Option<real>>, i: nat): Option<real>
  {
    if i < |computed| then computed[i] else None
  }

  /** Fires on a defined Mayer multiple of at most 0.6. */
  function MayerTrigger(prices: seq<DailyPrice>, i: nat, computed: seq<Option<real>>): (r: Option<MayerRow>)
    ensures r.Some? <==> i < |prices| && MayerAt(computed, i).Some? && MayerAt(computed, i).value <= BacktestThreshold
    ensures r.Some? ==> r.value == MayerHit(prices[i].date, prices[i].close, MayerAt(computed, i).value)
  {
    if i >= |prices| then None
    else match MayerAt(computed, i)
      case None => None
      case Some(v) => if v > BacktestThreshold then None else Some(MayerHit(prices[i].date, prices[i].close, v))
  }

  /** Adds the returns 180 and 365 rows later, missing ("?") past the end. */
  function MayerEnrich(row: MayerRow, t: nat, prices: seq<DailyPrice>): (r: MayerRow)
    ensures t < |prices| ==> r.MayerEnriched? && r.date == row.date && r.price == row.price && r.mayer == row.mayer
    ensures t < |prices| ==> r.return6m == OffsetReturn(prices, t, 180) && r.return12m == OffsetReturn(prices, t, 365)
  {
    if t >= |prices| then row
    else MayerEnriched(row.date, row.price, row.mayer, OffsetReturn(prices, t, 180), OffsetReturn(prices, t, 365))
  }

  function MayerConfig(): Config<DailyPrice, Option<real>, MayerRow>
  {
    Config("Every time Mayer ≤ 0.6",
      [Column("date", "Date"), Column("price", "Price"), Column("mayer", "Mayer"),
       Column("return6m", "6mo Return"), Column("return12m", "12mo Return")],
      MayerTrigger, Some(MayerEnrich), Some(60))
  }

  /** Rows are days with a Mayer multiple of at most 0.6, 60 days apart, with "?" exactly past the end. */
  lemma MayerRows(prices: seq<DailyPrice>, mayer: seq<Option<real>>)
    ensures var e := ScanSpec(EngineTrigger(prices, mayer, MayerConfig()), 60, |prices|);
      && (forall k :: 0 <= k < |e| ==>
            var t := e[k].index;
            && t < |prices| && MayerAt(mayer, t).Some? && MayerAt(mayer, t).value <= 0.6
            && e[k].row.MayerEnriched?
            && (e[k].row.return6m.None? <==> t + 180 >= |prices| || prices[t].close == 0.0)
            && (e[k].row.return12m.None? <==> t + 365 >= |prices| || prices[t].close == 0.0))
      && (forall k, l :: 0 <= k < l < |e| ==> e[l].index - e[k].index >= 60)
  {
    EngineRows(prices, mayer, MayerConfig());
  }

  datatype MayerOutcome = MayerOutcome(
    currentMayer: Option<real>, signal: Signal, bars: seq<YearBar>, backtest: Table<MayerRow>)

  method Calculate(prices: seq<DailyPrice>, yearOf: int -> int) returns (result: MayerOutcome)
    ensures var mayer := MayerValues(Closes(prices), SmaSpec(Closes(prices), SmaPeriod));
      && result.currentMayer == (if |prices| == 0 then None else mayer[|mayer| - 1])
      && result.signal == MayerSignal(result.currentMayer)
      && result.backtest.rows == Rows(ScanSpec(EngineTrigger(prices, mayer, MayerConfig()), 60, |prices|))
      && (forall y ::
            (exists k :: 0 <= k < |result.bars| && result.bars[k].year == y) <==> |ValuesOfYear(prices, mayer, yearOf, |prices|, y)| > 0)
      && (forall k, l :: 0 <= k < l < |result.bars| ==> result.bars[k].year != result.bars[l].year)
      && (forall k, l :: 0 <= k < l < |result.bars| ==>
            SeenBefore(prices, mayer, yearOf, |prices|, result.bars[k].year, result.bars[l].year))
      && (forall k :: 0 <= k < |result.bars| ==>
            var values := ValuesOfYear(prices, mayer, yearOf, |prices|, result.bars[k].year);
            |values| > 0 && result.bars[k].peak == MaxOf(values) && result.bars[k].color == MayerBarColor(result.bars[k].peak))
  {
    var closes := Closes(prices);
    var sma200 := Sma(closes, SmaPeriod);
    var mayer := MayerValues(closes, sma200);
    var current := if |prices| == 0 then None else mayer[|mayer| - 1];
    var bars := YearlyBars(prices, mayer, yearOf);
    var backtest := RunBacktest(prices, mayer, MayerConfig());
    result := MayerOutcome(current, MayerSignal(current), bars, backtest);
  }
}
