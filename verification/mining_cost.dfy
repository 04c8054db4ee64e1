/**
 * The average mining cost indicator: BTC's price over the latest estimated
 * cost per coin and its signal, the BTC line drawn on the mining dates, and
 * a backtest of every mining day where BTC traded at most 1.5 times the
 * cost, sixty samples apart, with the return 180 price rows later.
 */
module MiningCostIndicator {
  import opened Common
  import opened Engine
  import opened MiningFetch

  const BuyRatio := 1.2
  const SellRatio := 3.0
  const BacktestRatio := 1.5
  const BacktestCooldown := 60
  const LookAheadRows := 180

  /** Price over cost when the cost is positive, else 0. */
  function CostRatio(price: real, cost: real): (r: real)
    ensures cost > 0.0 ==> r * cost == price
    ensures cost <= 0.0 ==> r == 0.0
  {
    if cost > 0.0 then price / cost else 0.0
  }

  function MiningSignal(ratio: real): (s: Signal)
    ensures s == Buy <==> ratio <= BuyRatio
    ensures s == Sell <==> ratio >= SellRatio
  {
    if ratio <= BuyRatio then Buy
    else if ratio >= SellRatio then Sell
    else Neutral
  }

  /** A cost that is not positive gives ratio 0, which reads as a buy. */
  lemma NonPositiveCostIsBuy(price: real, cost: real)
    requires cost <= 0.0
    ensures MiningSignal(CostRatio(price, cost)) == Buy
  {
  }

  // The BTC line of the chart.

  /** The mining dates that have a non-zero BTC close, with that close, in mining order. */
  function BtcLineSpec(mining: seq<MiningPoint>, btc: map<Date, real>): seq<(Date, real)>
  {
    if |mining| == 0 then []
    else
      var init := BtcLineSpec(mining[..|mining| - 1], btc);
      var d := mining[|mining| - 1].date;
      if TruthyAt(btc, d) then init + [(d, btc[d])] else init
  }

  method BtcLine(mining: seq<MiningPoint>, btc: map<Date, real>) returns (line: seq<(Date, real)>)
    ensures line == BtcLineSpec(mining, btc)
  {
    line := [];
    var i := 0;
    while i < |mining|
      invariant 0 <= i <= |mining|
      invariant line == BtcLineSpec(mining[..i], btc)
    {
      assert mining[..i + 1][..i] == mining[..i];
      var d := mining[i].date;
      if d in btc && btc[d] != 0.0 {
        line := line + [(d, btc[d])];
      }
      i := i + 1;
    }
    assert mining[..|mining|] == mining;
  }

  /** A point is on the line iff it is a mining date with its non-zero BTC close. */
  lemma {:induction false} BtcLineExact(mining: seq<MiningPoint>, btc: map<Date, real>, d: Date, v: real)
    ensures (d, v) in BtcLineSpec(mining, btc) <==>
      TruthyAt(btc, d) && v == btc[d] && exists k :: 0 <= k < |mining| && mining[k].date == d
  {
    if |mining| > 0 {
      var n := |mining|;
      var init := mining[..n - 1];
      BtcLineExact(init, btc, d, v);
      if exists k :: 0 <= k < n && mining[k].date == d {
        var k :| 0 <= k < n && mining[k].date == d;
        if k < n - 1 { assert init[k] == mining[k]; }
      }
      if exists k :: 0 <= k < n - 1 && init[k].date == d {
        var k :| 0 <= k < n - 1 && init[k].date == d;
        assert mining[k] == init[k];
      }
    }
  }

  // The backtest.

  /** The close 180 rows after the date's (last) index, when both exist. */
  function FutureClose(prices: seq<DailyPrice>, date: Date): (r: Option<real>)
    ensures r.Some? <==> date in PriceIndex(prices) && PriceIndex(prices)[date] + LookAheadRows < |prices|
  {
    var idx := PriceIndex(prices);
    if date in idx && idx[date] + LookAheadRows < |prices| then Some(prices[idx[date] + LookAheadRows].close)
    else None
  }

  datatype CostRow = CostRow(date: Date, cost: real, btcPrice: real, ratio: real, ret6m: Option<real>)

  /** The row at mining index `i`, if the cost is positive, BTC has a close and trades at most 1.5 times the cost. */
  function CostTrigger(mining: seq<MiningPoint>, prices: seq<DailyPrice>): nat -> Option<CostRow>
  {
    var btc := CloseByDate(prices);
    (i: nat) =>
      if i >= |mining| || mining[i].estimatedCost <= 0.0 || !TruthyAt(btc, mining[i].date) then None
      else
        var p := btc[mining[i].date];
        var ratio := p / mining[i].estimatedCost;
        if ratio > BacktestRatio then None
        else
          var future := FutureClose(prices, mining[i].date);
          var ret := if future.Some? && future.value != 0.0 then PctChange(p, future.value) else None;
          Some(CostRow(mining[i].date, mining[i].estimatedCost, p, ratio, ret))
  }

  /** `buildCostBacktest`: the cooldown loop over the mining samples. */
  method CostBacktest(mining: seq<MiningPoint>, prices: seq<DailyPrice>) returns (rows: seq<CostRow>)
    ensures rows == Rows(ScanSpec(CostTrigger(mining, prices), BacktestCooldown, |mining|))
  {
    var events := Scan(CostTrigger(mining, prices), BacktestCooldown, |mining|);
    rows := Rows(events);
  }

  /**
   * Every fired sample has a positive cost and a non-zero BTC close at most
   * 1.5 times it; its return is missing exactly when the date has no price
   * row 180 rows before the end or that row closes at 0; fired samples are
   * at least 60 apart.
   */
  lemma CostRows(mining: seq<MiningPoint>, prices: seq<DailyPrice>)
    ensures var btc := CloseByDate(prices);
      var e := ScanSpec(CostTrigger(mining, prices), BacktestCooldown, |mining|);
      && (forall k :: 0 <= k < |e| ==>
            var i := e[k].index;
            var r := e[k].row;
            && i < |mining| && r.cost == mining[i].estimatedCost > 0.0
            && TruthyAt(btc, mining[i].date) && r.btcPrice == btc[mining[i].date]
            && r.ratio * r.cost == r.btcPrice && r.ratio <= BacktestRatio
            && (r.ret6m.Some? <==> FutureClose(prices, mining[i].date).Some? && FutureClose(prices, mining[i].date).value != 0.0))
      && (forall k, l :: 0 <= k < l < |e| ==> e[l].index - e[k].index >= BacktestCooldown)
  {
    var trigger := CostTrigger(mining, prices);
    ScanSpaced(trigger, BacktestCooldown, |mining|);
    var e := ScanSpec(trigger, BacktestCooldown, |mining|);
    forall k | 0 <= k < |e| ensures e[k].row.ratio * e[k].row.cost == e[k].row.btcPrice {
      assert trigger(e[k].index) == Some(e[k].row);
      RatioTimesCost(e[k].row.btcPrice, e[k].row.cost);
    }
  }

  lemma RatioTimesCost(p: real, c: real)
    requires c > 0.0
    ensures p / c * c == p
  {
  }

  datatype MiningOutcome = MiningOutcome(currentValue: real, ratio: real, signal: Signal,
                                         btcLine: seq<(Date, real)>, rows: seq<CostRow>)

  /**
   * The indicator. Fewer than two samples give the empty result (0,
   * neutral, nothing drawn, no rows); with samples but no BTC price the
   * source fails reading the latest close, which is `None` here.
   */
  method Calculate(mining: seq<MiningPoint>, prices: seq<DailyPrice>) returns (out: Option<MiningOutcome>)
    ensures |mining| < 2 ==> out == Some(MiningOutcome(0.0, 0.0, Neutral, [], []))
    ensures |mining| >= 2 ==> (out.None? <==> |prices| == 0)
    ensures |mining| >= 2 && out.Some? ==>
      var cost := mining[|mining| - 1].estimatedCost;
      && out.value.currentValue == cost
      && out.value.ratio == CostRatio(prices[|prices| - 1].close, cost)
      && out.value.signal == MiningSignal(out.value.ratio)
      && out.value.btcLine == BtcLineSpec(mining, CloseByDate(prices))
      && out.value.rows == Rows(ScanSpec(CostTrigger(mining, prices), BacktestCooldown, |mining|))
  {
    if |mining| < 2 {
      return Some(MiningOutcome(0.0, 0.0, Neutral, [], []));
    }
    if |prices| == 0 {
      return None;
    }
    var currentCost := mining[|mining| - 1].estimatedCost;
    var ratio := CostRatio(prices[|prices| - 1].close, currentCost);
    var line := BtcLine(mining, CloseByDate(prices));
    var rows := CostBacktest(mining, prices);
    out := Some(MiningOutcome(currentCost, ratio, MiningSignal(ratio), line, rows));
  }
}
