/**
 * Bitfinex margin longs: the 30-point rate of change of the daily longs
 * (with the first point as base on shorter histories) and its signal, and
 * a backtest of every day whose longs stand at least 10% above their
 * 30-point moving average, fourteen points apart, with the BTC return to
 * the calendar date 30 days later.
 */
module BitfinexLongs {
  import opened Common
  import opened MovingAverage
  import opened Engine
  import opened BitfinexFetch

  const SmaPeriod := 30
  const BullishThreshold := 10.0
  const BearishThreshold := -10.0
  const SpikeThreshold := 10.0
  const SpikeCooldown := 14

  function Longs(data: seq<LongsPoint>): (v: seq<real>)
    ensures |v| == |data| && forall i :: 0 <= i < |data| ==> v[i] == data[i].longs
  {
    seq(|data|, i requires 0 <= i < |data| => data[i].longs)
  }

  /** The base of the change: 30 points back when there are more than 30, else the first point. */
  function BaseIndex(n: nat): (b: nat)
    requires n >= 1
    ensures b < n
    ensures n > 30 ==> n - 1 - b == 30
    ensures n <= 30 ==> b == 0
  {
    if n > 30 then n - 31 else 0
  }

  /** The change in percent from the base to the latest value; 0 when the base is not positive. */
  function Roc30(values: seq<real>): (r: real)
    requires |values| >= 2
    ensures var base := values[BaseIndex(|values|)];
      && (base > 0.0 ==> base * (100.0 + r) == 100.0 * values[|values| - 1])
      && (base > 0.0 ==> (r > 0.0 <==> values[|values| - 1] > base))
      && (base <= 0.0 ==> r == 0.0)
  {
    var current := values[|values| - 1];
    var prev30 := values[BaseIndex(|values|)];
    if prev30 > 0.0 then
      var r := (current - prev30) / prev30 * 100.0;
      assert prev30 * r == (current - prev30) * 100.0;
      r
    else 0.0
  }

  function LongsSignal(roc: real): (s: Signal)
    ensures s == Buy <==> roc > BullishThreshold
    ensures s == Sell <==> roc < BearishThreshold
  {
    if roc > BullishThreshold then Buy
    else if roc < BearishThreshold then Sell
    else Neutral
  }

  datatype LongsRow = LongsRow(date: Date, longs: real, deviation: real, btcPrice: real, ret: Option<real>)

  /** How far `longs` sits above a non-zero moving average, in percent. */
  function Deviation(longs: real, avg: real): (d: real)
    requires avg != 0.0
    ensures avg * (100.0 + d) == 100.0 * longs
  {
    var d := (longs - avg) / avg * 100.0;
    assert avg * d == (longs - avg) * 100.0;
    d
  }

  /** The spike row at index `i`, if the average is defined and non-zero, the deviation reaches 10% and BTC has a close. */
  function SpikeTrigger(data: seq<LongsPoint>, sma30: seq<Option<real>>, btc: map<Date, real>, plus30: Date -> Date)
    : nat -> Option<LongsRow>
  {
    (i: nat) =>
      if i >= |data| || i >= |sma30| || sma30[i].None? || sma30[i].value == 0.0 then None
      else
        var dev := Deviation(data[i].longs, sma30[i].value);
        if dev < SpikeThreshold || !TruthyAt(btc, data[i].date) then None
        else
          var p := btc[data[i].date];
          Some(LongsRow(data[i].date, data[i].longs, dev, p, DateReturn(btc, p, plus30(data[i].date))))
  }

  /** `buildSpikeBacktest`: the cooldown loop over the daily longs. */
  method SpikeBacktest(data: seq<LongsPoint>, sma30: seq<Option<real>>, btc: map<Date, real>, plus30: Date -> Date)
    returns (rows: seq<LongsRow>)
    ensures rows == Rows(ScanSpec(SpikeTrigger(data, sma30, btc, plus30), SpikeCooldown, |data|))
  {
    var events := Scan(SpikeTrigger(data, sma30, btc, plus30), SpikeCooldown, |data|);
    rows := Rows(events);
  }

  /**
   * Every fired day has a defined non-zero average with longs at least 10%
   * above it, a non-zero BTC close, and the return to the close 30 calendar
   * days on; fired days are at least 14 points apart.
   */
  lemma SpikeRows(data: seq<LongsPoint>, sma30: seq<Option<real>>, btc: map<Date, real>, plus30: Date -> Date)
    ensures var e := ScanSpec(SpikeTrigger(data, sma30, btc, plus30), SpikeCooldown, |data|);
      && (forall k :: 0 <= k < |e| ==>
            var i := e[k].index;
            && i < |data| && i < |sma30| && sma30[i].Some? && sma30[i].value != 0.0
            && e[k].row.deviation >= SpikeThreshold
            && sma30[i].value * (100.0 + e[k].row.deviation) == 100.0 * data[i].longs
            && TruthyAt(btc, data[i].date) && e[k].row.btcPrice == btc[data[i].date]
            && e[k].row.ret == DateReturn(btc, e[k].row.btcPrice, plus30(data[i].date)))
      && (forall k, l :: 0 <= k < l < |e| ==> e[l].index - e[k].index >= SpikeCooldown)
  {
    var trigger := SpikeTrigger(data, sma30, btc, plus30);
    ScanSpaced(trigger, SpikeCooldown, |data|);
    var e := ScanSpec(trigger, SpikeCooldown, |data|);
    forall k | 0 <= k < |e|
      ensures var i := e[k].index;
        i < |sma30| && sma30[i].Some? && sma30[i].value != 0.0
        && sma30[i].value * (100.0 + e[k].row.deviation) == 100.0 * data[i].longs
    {
      var i := e[k].index;
      assert trigger(i) == Some(e[k].row);
      assert e[k].row.deviation == Deviation(data[i].longs, sma30[i].value);
    }
  }

  /** A qualifying day with no firing in the 14 points before it fires. */
  lemma SpikeFires(data: seq<LongsPoint>, sma30: seq<Option<real>>, btc: map<Date, real>, plus30: Date -> Date, j: nat)
    requires j < |data| && j < |sma30| && sma30[j].Some? && sma30[j].value != 0.0
    requires Deviation(data[j].longs, sma30[j].value) >= SpikeThreshold && TruthyAt(btc, data[j].date)
    ensures var e := ScanSpec(SpikeTrigger(data, sma30, btc, plus30), SpikeCooldown, |data|);
      ClearOf(e, j, SpikeCooldown) ==> j in Indices(e)
  {
    ScanFires(SpikeTrigger(data, sma30, btc, plus30), SpikeCooldown, |data|, j);
  }

  datatype LongsOutcome = LongsOutcome(currentValue: real, signal: Signal, rows: seq<LongsRow>)

  /** The indicator: fewer than two points give the empty result (0, neutral, no rows). */
  method Calculate(data: seq<LongsPoint>, prices: seq<DailyPrice>, plus30: Date -> Date) returns (out: LongsOutcome)
    ensures |data| < 2 ==> out == LongsOutcome(0.0, Neutral, [])
    ensures |data| >= 2 ==>
      && out.currentValue == data[|data| - 1].longs
      && out.signal == LongsSignal(Roc30(Longs(data)))
      && out.rows == Rows(ScanSpec(SpikeTrigger(data, SmaSpec(Longs(data), SmaPeriod), CloseByDate(prices), plus30),
                                   SpikeCooldown, |data|))
  {
    if |data| < 2 {
      return LongsOutcome(0.0, Neutral, []);
    }
    var values := Longs(data);
    var sma30 := Sma(values, SmaPeriod);
    var roc := Roc30(values);
    var rows := SpikeBacktest(data, sma30, CloseByDate(prices), plus30);
    out := LongsOutcome(values[|values| - 1], LongsSignal(roc), rows);
  }
}
