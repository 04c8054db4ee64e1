/**
 * The Coinbase premium over Binance: per shared date, how far the Coinbase
 * close sits above the Binance close, in percent; the latest premium's
 * signal; and a backtest of every premium of at least 0.2%, fourteen
 * aligned points apart, with the BTC returns 30 and 90 price rows later.
 */
module BinanceCoinbaseGap {
  import opened Common
  import opened Engine
  import opened ExchangeFetch

  const BullishThreshold := 0.1
  const BearishThreshold := -0.05
  const BacktestThreshold := 0.2
  const BacktestCooldown := 14

  datatype GapPoint = GapPoint(date: Date, gap: real, binanceClose: real, coinbaseClose: real)

  /** `new Map(coinbase.map(c => [c.date, c.close]))`: the last close of each date. */
  function CoinbaseByDate(coinbase: seq<ExchangePrice>): (m: map<Date, real>)
    ensures forall d :: d in m <==> exists k :: 0 <= k < |coinbase| && coinbase[k].date == d
  {
    var pairs := seq(|coinbase|, k requires 0 <= k < |coinbase| => (coinbase[k].date, coinbase[k].close));
    LastWinsDomain(pairs);
    assert forall k :: 0 <= k < |coinbase| ==> pairs[k].0 == coinbase[k].date;
    LastWins(pairs)
  }

  lemma LastWinsDomain(pairs: seq<(Date, real)>)
    ensures forall d :: d in LastWins(pairs) <==> exists k :: 0 <= k < |pairs| && pairs[k].0 == d
  {
    forall d ensures d in LastWins(pairs) <==> exists k :: 0 <= k < |pairs| && pairs[k].0 == d {
      LastWinsLookup(pairs, d);
    }
  }

  /** A Binance day is kept when Coinbase has a non-zero close that day and Binance's close is positive. */
  predicate Aligns(b: ExchangePrice, cb: map<Date, real>)
  {
    TruthyAt(cb, b.date) && b.close > 0.0
  }

  /** The premium of one aligned day. */
  function PointOf(b: ExchangePrice, cb: map<Date, real>): (p: GapPoint)
    requires Aligns(b, cb)
    ensures p.date == b.date && p.binanceClose == b.close && p.coinbaseClose == cb[b.date]
    ensures p.binanceClose * (100.0 + p.gap) == 100.0 * p.coinbaseClose
    ensures p.gap > 0.0 <==> p.coinbaseClose > p.binanceClose
  {
    var g := (cb[b.date] - b.close) / b.close * 100.0;
    assert b.close * g == (cb[b.date] - b.close) * 100.0;
    GapPoint(b.date, g, b.close, cb[b.date])
  }

  /** The aligned series: Binance's order, kept days only. */
  function AlignedSpec(binance: seq<ExchangePrice>, cb: map<Date, real>): seq<GapPoint>
  {
    if |binance| == 0 then []
    else
      var init := AlignedSpec(binance[..|binance| - 1], cb);
      var b := binance[|binance| - 1];
      if Aligns(b, cb) then init + [PointOf(b, cb)] else init
  }

  /** The alignment loop. */
  method Align(binance: seq<ExchangePrice>, coinbase: seq<ExchangePrice>) returns (aligned: seq<GapPoint>)
    ensures aligned == AlignedSpec(binance, CoinbaseByDate(coinbase))
  {
    var cb := CoinbaseByDate(coinbase);
    aligned := [];
    var i := 0;
    while i < |binance|
      invariant 0 <= i <= |binance|
      invariant aligned == AlignedSpec(binance[..i], cb)
    {
      assert binance[..i + 1][..i] == binance[..i];
      var b := binance[i];
      if b.date in cb && cb[b.date] != 0.0 && b.close > 0.0 {
        aligned := aligned + [PointOf(b, cb)];
      }
      i := i + 1;
    }
    assert binance[..|binance|] == binance;
  }

  /** Every kept Binance day has its premium in the series, and every point comes from a kept day. */
  lemma {:induction false} AlignedFaithful(binance: seq<ExchangePrice>, cb: map<Date, real>)
    ensures |AlignedSpec(binance, cb)| <= |binance|
    ensures forall k :: 0 <= k < |binance| && Aligns(binance[k], cb) ==> PointOf(binance[k], cb) in AlignedSpec(binance, cb)
    ensures forall p :: p in AlignedSpec(binance, cb) ==>
      exists k :: 0 <= k < |binance| && Aligns(binance[k], cb) && p == PointOf(binance[k], cb)
  {
    if |binance| > 0 {
      var n := |binance|;
      var init := binance[..n - 1];
      AlignedFaithful(init, cb);
      forall k | 0 <= k < n - 1 ensures binance[k] == init[k] { }
      forall p | p in AlignedSpec(binance, cb)
        ensures exists k :: 0 <= k < n && Aligns(binance[k], cb) && p == PointOf(binance[k], cb)
      {
        if p !in AlignedSpec(init, cb) {
          assert Aligns(binance[n - 1], cb) && p == PointOf(binance[n - 1], cb);
        } else {
          var k :| 0 <= k < n - 1 && Aligns(init[k], cb) && p == PointOf(init[k], cb);
          assert binance[k] == init[k];
        }
      }
    }
  }

  function GapSignal(gap: real): (s: Signal)
    ensures s == Buy <==> gap > BullishThreshold
    ensures s == Sell <==> gap < BearishThreshold
  {
    if gap > BullishThreshold then Buy
    else if gap < BearishThreshold then Sell
    else Neutral
  }

  // Forward returns by array offset from the first row of a date.

  /** `prices.findIndex(p => p.date === date)`. */
  function FirstIndexOf(prices: seq<DailyPrice>, date: Date): (r: Option<nat>)
    ensures r.Some? ==> r.value < |prices| && prices[r.value].date == date
    ensures r.Some? ==> forall j :: 0 <= j < r.value ==> prices[j].date != date
    ensures r.None? ==> forall j :: 0 <= j < |prices| ==> prices[j].date != date
  {
    if |prices| == 0 then None
    else if prices[0].date == date then Some(0)
    else match FirstIndexOf(prices[1..], date)
      case None => None
      case Some(i) => Some(i + 1)
  }

  /** The close `days` rows after the first row of `date`; `None` when absent or past the end. */
  function FindDateOffset(prices: seq<DailyPrice>, date: Date, days: nat): (r: Option<real>)
    ensures r.Some? <==> FirstIndexOf(prices, date).Some? && FirstIndexOf(prices, date).value + days < |prices|
    ensures r.Some? ==> r.value == prices[FirstIndexOf(prices, date).value + days].close
  {
    match FirstIndexOf(prices, date)
    case None => None
    case Some(i) => if i + days < |prices| then Some(prices[i + days].close) else None
  }

  /** `d ? (d - btc) / btc * 100 : NaN`: a missing or zero future close gives no return. */
  function ForwardReturn(btcPrice: real, future: Option<real>): (r: Option<real>)
    ensures r.Some? <==> future.Some? && future.value != 0.0 && btcPrice != 0.0
    ensures r.Some? ==> r == PctChange(btcPrice, future.value)
  {
    if future.Some? && future.value != 0.0 then PctChange(btcPrice, future.value) else None
  }

  datatype GapRow = GapRow(date: Date, gap: real, btcPrice: real, ret30: Option<real>, ret90: Option<real>)

  /** The row for aligned index `i`, when its premium reaches the threshold and BTC has a close that day. */
  function GapTrigger(aligned: seq<GapPoint>, prices: seq<DailyPrice>): nat -> Option<GapRow>
  {
    var btc := CloseByDate(prices);
    (i: nat) =>
      if i >= |aligned| || aligned[i].gap < BacktestThreshold || !TruthyAt(btc, aligned[i].date) then None
      else
        var p := btc[aligned[i].date];
        Some(GapRow(aligned[i].date, aligned[i].gap, p,
          ForwardReturn(p, FindDateOffset(prices, aligned[i].date, 30)),
          ForwardReturn(p, FindDateOffset(prices, aligned[i].date, 90))))
  }

  /** The cooldown loop over the aligned series. */
  method Backtest(aligned: seq<GapPoint>, prices: seq<DailyPrice>) returns (rows: seq<GapRow>)
    ensures rows == Rows(ScanSpec(GapTrigger(aligned, prices), BacktestCooldown, |aligned|))
  {
    var events := Scan(GapTrigger(aligned, prices), BacktestCooldown, |aligned|);
    rows := Rows(events);
  }

  /**
   * Each fired index has a premium of at least 0.2% and a non-zero BTC
   * close that day, its returns are those 30 and 90 rows on, fired indices
   * are at least 14 apart, and an index clear of earlier firings fires.
   */
  lemma GapRows(aligned: seq<GapPoint>, prices: seq<DailyPrice>)
    ensures var btc := CloseByDate(prices);
      var e := ScanSpec(GapTrigger(aligned, prices), BacktestCooldown, |aligned|);
      && (forall k :: 0 <= k < |e| ==>
            var i := e[k].index;
            && i < |aligned|
            && aligned[i].gap >= BacktestThreshold
            && TruthyAt(btc, aligned[i].date)
            && e[k].row.date == aligned[i].date && e[k].row.gap == aligned[i].gap
            && e[k].row.btcPrice == btc[aligned[i].date]
            && e[k].row.ret30 == ForwardReturn(e[k].row.btcPrice, FindDateOffset(prices, aligned[i].date, 30))
            && e[k].row.ret90 == ForwardReturn(e[k].row.btcPrice, FindDateOffset(prices, aligned[i].date, 90)))
      && (forall k, l :: 0 <= k < l < |e| ==> e[l].index - e[k].index >= BacktestCooldown)
  {
    var trigger := GapTrigger(aligned, prices);
    ScanSpaced(trigger, BacktestCooldown, |aligned|);
  }

  /** An aligned index with a qualifying premium and no firing in the 14 before it fires. */
  lemma GapFires(aligned: seq<GapPoint>, prices: seq<DailyPrice>, j: nat)
    requires j < |aligned| && aligned[j].gap >= BacktestThreshold && TruthyAt(CloseByDate(prices), aligned[j].date)
    ensures var e := ScanSpec(GapTrigger(aligned, prices), BacktestCooldown, |aligned|);
      ClearOf(e, j, BacktestCooldown) ==> j in Indices(e)
  {
    ScanFires(GapTrigger(aligned, prices), BacktestCooldown, |aligned|, j);
  }

  datatype GapOutcome = GapOutcome(currentGap: real, signal: Signal, rows: seq<GapRow>)

  /** The indicator: no aligned day gives the empty result (0, neutral, no rows). */
  method Calculate(binance: seq<ExchangePrice>, coinbase: seq<ExchangePrice>, prices: seq<DailyPrice>)
    returns (out: GapOutcome)
    ensures var aligned := AlignedSpec(binance, CoinbaseByDate(coinbase));
      && (|aligned| == 0 ==> out == GapOutcome(0.0, Neutral, []))
      && (|aligned| > 0 ==>
            && out.currentGap == aligned[|aligned| - 1].gap
            && out.signal == GapSignal(out.currentGap)
            && out.rows == Rows(ScanSpec(GapTrigger(aligned, prices), BacktestCooldown, |aligned|)))
  {
    var aligned := Align(binance, coinbase);
    if |aligned| == 0 {
      return GapOutcome(0.0, Neutral, []);
    }
    var current := aligned[|aligned| - 1].gap;
    var rows := Backtest(aligned, prices);
    out := GapOutcome(current, GapSignal(current), rows);
  }
}
