/**
 * The 200-week moving average indicator: weekly resampling of the daily
 * series, the price-versus-WMA signal, and the "touched the 200WMA"
 * backtest with its weeks-near and best-return enrichment.
 */
module TwoHundredWma {
  import opened Common
  import opened MovingAverage
  import opened Engine

  const WmaPeriod: nat := 200
  const SecondsPerWeek: int := 7 * 24 * 60 * 60

  /** `Math.floor(timestamp / SECONDS_PER_WEEK)`: Dafny's division by a positive divisor floors. */
  function WeekOf(timestamp: int): int
  {
    timestamp / SecondsPerWeek
  }

  // ---------------------------------------------------------------------------
  // resampleToWeekly

  /**
   * The resampling loop from a state (`weekly`, `currentWeek`) over the
   * remaining points. Overwriting `weekly[weekly.length - 1]` on an empty
   * list assigns the property "-1" in JavaScript and leaves the list empty.
   */
  function WeeklyFold(weekly: seq<DailyPrice>, currentWeek: int, rest: seq<DailyPrice>): seq<DailyPrice>
    decreases |rest|
  {
    if |rest| == 0 then weekly
    else
      var p := rest[0];
      var week := WeekOf(p.timestamp);
      if week != currentWeek then WeeklyFold(weekly + [p], week, rest[1..])
      else if |weekly| == 0 then WeeklyFold(weekly, currentWeek, rest[1..])
      else WeeklyFold(weekly[..|weekly| - 1] + [p], currentWeek, rest[1..])
  }

  function Weekly(prices: seq<DailyPrice>): seq<DailyPrice>
  {
    WeeklyFold([], -1, prices)
  }

  method ResampleToWeekly(prices: seq<DailyPrice>) returns (weekly: seq<DailyPrice>)
    ensures weekly == Weekly(prices)
  {
    weekly := [];
    var currentWeek := -1;
    var i := 0;
    while i < |prices|
      invariant 0 <= i <= |prices|
      invariant WeeklyFold(weekly, currentWeek, prices[i..]) == Weekly(prices)
    {
      var p := prices[i];
      var week := WeekOf(p.timestamp);
      assert prices[i..][1..] == prices[i + 1..];
      if week != currentWeek {
        weekly := weekly + [p];
        currentWeek := week;
      } else if |weekly| > 0 {
        weekly := weekly[..|weekly| - 1] + [p];
      }
      i := i + 1;
    }
  }

  /**
   * Reference definition: keep each point whose successor falls in another
   * week (or that is the last point), i.e. the last point of every maximal
   * run of equal week numbers.
   */
  function RunLasts(s: seq<DailyPrice>): (r: seq<DailyPrice>)
    ensures |r| <= |s|
  {
    if |s| == 0 then []
    else if |s| == 1 || WeekOf(s[1].timestamp) != WeekOf(s[0].timestamp) then [s[0]] + RunLasts(s[1..])
    else RunLasts(s[1..])
  }

  /** The leading points in week -1, which the source's initial `currentWeek = -1` swallows. */
  function LeadingDropped(s: seq<DailyPrice>): (d: nat)
    ensures d <= |s|
    ensures forall k :: 0 <= k < d ==> WeekOf(s[k].timestamp) == -1
    ensures d < |s| ==> WeekOf(s[d].timestamp) != -1
  {
    if |s| == 0 || WeekOf(s[0].timestamp) != -1 then 0 else 1 + LeadingDropped(s[1..])
  }

  lemma {:induction false} WeeklyFoldRuns(weekly: seq<DailyPrice>, currentWeek: int, rest: seq<DailyPrice>)
    requires |weekly| > 0 && currentWeek == WeekOf(weekly[|weekly| - 1].timestamp)
    requires |rest| > 0
    ensures WeeklyFold(weekly, currentWeek, rest)
      == (if WeekOf(rest[0].timestamp) == currentWeek then weekly[..|weekly| - 1] else weekly) + RunLasts(rest)
    decreases |rest|
  {
    var p := rest[0];
    var t := rest[1..];
    var week := WeekOf(p.timestamp);
    var w' := if week != currentWeek then weekly + [p] else weekly[..|weekly| - 1] + [p];
    assert WeeklyFold(weekly, currentWeek, rest) == WeeklyFold(w', week, t);
    assert w'[..|w'| - 1] == (if week == currentWeek then weekly[..|weekly| - 1] else weekly);
    if |t| == 0 {
      assert RunLasts(rest) == [p];
    } else {
      WeeklyFoldRuns(w', week, t);
    }
  }

  /** The resampled series is the run-last points after the swallowed week -1 prefix. */
  lemma {:induction false} WeeklyIsRunLasts(prices: seq<DailyPrice>)
    ensures Weekly(prices) == RunLasts(prices[LeadingDropped(prices)..])
    decreases |prices|
  {
    if |prices| > 0 {
      if WeekOf(prices[0].timestamp) == -1 {
        WeeklyIsRunLasts(prices[1..]);
        assert prices[1..][LeadingDropped(prices[1..])..] == prices[LeadingDropped(prices)..];
      } else {
        WeeklyFromOpenWeek(prices);
      }
    }
  }

  /** A first point outside week -1 opens the first week, and nothing is dropped. */
  lemma WeeklyFromOpenWeek(prices: seq<DailyPrice>)
    requires |prices| > 0 && WeekOf(prices[0].timestamp) != -1
    ensures LeadingDropped(prices) == 0
    ensures Weekly(prices) == RunLasts(prices)
  {
    var p := prices[0];
    assert [] + [p] == [p];
    assert Weekly(prices) == WeeklyFold([p], WeekOf(p.timestamp), prices[1..]);
    if |prices| > 1 {
      WeeklyFoldRuns([p], WeekOf(p.timestamp), prices[1..]);
      assert [p][..0] == [];
    }
  }

  /** One point per run: consecutive resampled points lie in different weeks, and none is added. */
  lemma {:induction false} RunLastsWeeksChange(s: seq<DailyPrice>)
    ensures var r := RunLasts(s);
      forall k :: 0 <= k < |r| - 1 ==> WeekOf(r[k].timestamp) != WeekOf(r[k + 1].timestamp)
    ensures |s| > 0 ==> |RunLasts(s)| > 0 && RunLasts(s)[|RunLasts(s)| - 1] == s[|s| - 1]
    ensures |s| > 0 ==> |RunLasts(s)| > 0 && WeekOf(RunLasts(s)[0].timestamp) == WeekOf(s[0].timestamp)
    decreases |s|
  {
    if |s| > 1 {
      RunLastsWeeksChange(s[1..]);
      var r := RunLasts(s);
      var r1 := RunLasts(s[1..]);
      if WeekOf(s[1].timestamp) != WeekOf(s[0].timestamp) {
        assert r == [s[0]] + r1;
        forall k | 0 <= k < |r| - 1 ensures WeekOf(r[k].timestamp) != WeekOf(r[k + 1].timestamp) {
          if k > 0 { assert r[k] == r1[k - 1] && r[k + 1] == r1[k]; }
        }
      }
    }
  }

  predicate AscendingTimestamps(s: seq<DailyPrice>)
  {
    forall i, j :: 0 <= i < j < |s| ==> s[i].timestamp <= s[j].timestamp
  }

  lemma WeekOfMonotone(a: int, b: int)
    requires a <= b
    ensures WeekOf(a) <= WeekOf(b)
  {
    assert SecondsPerWeek == 604800;
  }

  lemma {:induction false} RunLastsAscending(s: seq<DailyPrice>)
    requires AscendingTimestamps(s)
    ensures AscendingTimestamps(RunLasts(s))
    ensures forall x :: x in RunLasts(s) ==> x in s
    decreases |s|
  {
    if |s| > 0 {
      RunLastsAscending(s[1..]);
      var r1 := RunLasts(s[1..]);
      forall x | x in r1 ensures s[0].timestamp <= x.timestamp {
        var m :| 0 <= m < |s[1..]| && s[1..][m] == x;
        assert s[m + 1] == x;
      }
    }
  }

  /** For ascending timestamps, the weekly points' week numbers strictly increase. */
  lemma WeeklyWeeksIncrease(prices: seq<DailyPrice>)
    requires AscendingTimestamps(prices)
    ensures var w := Weekly(prices);
      forall i, j :: 0 <= i < j < |w| ==> WeekOf(w[i].timestamp) < WeekOf(w[j].timestamp)
  {
    WeeklyIsRunLasts(prices);
    var s := prices[LeadingDropped(prices)..];
    assert AscendingTimestamps(s) by {
      forall i, j | 0 <= i < j < |s| ensures s[i].timestamp <= s[j].timestamp {
        assert s[i] == prices[i + LeadingDropped(prices)] && s[j] == prices[j + LeadingDropped(prices)];
      }
    }
    RunLastsAscending(s);
    RunLastsWeeksChange(s);
    var w := RunLasts(s);
    forall i, j | 0 <= i < j < |w| ensures WeekOf(w[i].timestamp) < WeekOf(w[j].timestamp) {
      WeekOfMonotone(w[i].timestamp, w[j - 1].timestamp);
      WeekOfMonotone(w[j - 1].timestamp, w[j].timestamp);
    }
  }

  // ---------------------------------------------------------------------------
  // Signal

  /**
   * Buy at or below the WMA, sell above three times it, else neutral. A
   * zero WMA under a positive price is an infinite ratio, hence sell; a NaN
   * WMA fails both comparisons.
   */
  lemma RatioAbove(a: real, w: real, bound: real)
    ensures w > 0.0 ==> (a / w > bound <==> a > bound * w)
  {
    if w > 0.0 {
      assert a == (a / w) * w;
    }
  }

  function WmaSignal(price: real, wma: Option<real>): (s: Signal)
    ensures wma.None? ==> s == Neutral
    ensures wma.Some? ==> (s == Buy <==> price <= wma.value)
    ensures wma.Some? && wma.value > 0.0 ==> (s == Sell <==> price > 3.0 * wma.value)
  {
    match wma
    case None => Neutral
    case Some(w) =>
      RatioAbove(price, w, 3.0);
      if price <= w then Buy
      else if w == 0.0 then Sell
      else if price / w > 3.0 then Sell
      else Neutral
  }

  // ---------------------------------------------------------------------------
  // Backtest

  /** How long price stayed near the WMA, as the source words it. */
  datatype TimeLabel = Days | Weeks(count: nat) | Months(months: nat)

  datatype WmaRow =
    | Touch(date: Date, wma: real)
    | TouchEnriched(date: Date, wma: real, timeNear: TimeLabel, returnFromTouch: Option<real>, toPrice: real)

  /** The weekly close at `i` lies within `band` of a defined, non-zero WMA. */
  predicate WithinBand(close: real, wma: Option<real>, band: real)
  {
    wma.Some? && wma.value != 0.0 && 1.0 - band <= close / wma.value <= 1.0 + band
  }

  function WmaAt(wma: seq<Option<real>>, i: nat): Option<real>
  {
    if i < |wma| then wma[i] else None
  }

  /** Fires when the WMA is defined and non-zero and the close is within 5% of it. */
  function TouchTrigger(data: seq<DailyPrice>, i: nat, computed: seq<Option<real>>): (r: Option<WmaRow>)
    ensures r.Some? <==> i < |data| && WithinBand(data[i].close, WmaAt(computed, i), 0.05)
    ensures r.Some? ==> r.value == Touch(data[i].date, WmaAt(computed, i).value)
  {
    if i >= |data| then None
    else match WmaAt(computed, i)
      case None => None
      case Some(w) =>
        if w == 0.0 then None
        else
          var ratio := data[i].close / w;
          if ratio > 1.05 || ratio < 0.95 then None else Some(Touch(data[i].date, w))
  }

  /** The count of consecutive weeks from `j` within 10% of the WMA. */
  function WeeksNearSpec(data: seq<DailyPrice>, wma: seq<Option<real>>, j: nat): (n: nat)
    ensures j + n <= |data| || n == 0
    decreases |data| - j
  {
    if j >= |data| || !WithinBand(data[j].close, WmaAt(wma, j), 0.1) then 0
    else 1 + WeeksNearSpec(data, wma, j + 1)
  }

  /** The counted weeks are all near, and the week after them is not (or the data ends). */
  lemma {:induction false} WeeksNearMaximal(data: seq<DailyPrice>, wma: seq<Option<real>>, j: nat)
    requires j <= |data|
    ensures var n := WeeksNearSpec(data, wma, j);
      && j + n <= |data|
      && (forall k :: j <= k < j + n ==> WithinBand(data[k].close, WmaAt(wma, k), 0.1))
      && (j + n < |data| ==> !WithinBand(data[j + n].close, WmaAt(wma, j + n), 0.1))
    decreases |data| - j
  {
    if j < |data| && WithinBand(data[j].close, WmaAt(wma, j), 0.1) {
      WeeksNearMaximal(data, wma, j + 1);
    }
  }

  method WeeksNear(data: seq<DailyPrice>, wma: seq<Option<real>>, from: nat) returns (weeksNear: nat)
    ensures weeksNear == WeeksNearSpec(data, wma, from)
  {
    weeksNear := 0;
    var j := from;
    while j < |data|
      invariant from <= j
      invariant j == from + weeksNear
      invariant WeeksNearSpec(data, wma, from) == weeksNear + WeeksNearSpec(data, wma, j)
      decreases |data| - j
    {
      if !WithinBand(data[j].close, WmaAt(wma, j), 0.1) {
        break;
      }
      weeksNear := weeksNear + 1;
      j := j + 1;
    }
  }

  /** The highest close over `data[lo..hi]`. */
  function MaxClose(data: seq<DailyPrice>, lo: nat, hi: nat): real
    requires lo < hi <= |data|
    decreases hi - lo
  {
    if hi == lo + 1 then data[lo].close
    else
      var m := MaxClose(data, lo, hi - 1);
      if data[hi - 1].close > m then data[hi - 1].close else m
  }

  lemma {:induction false} MaxCloseIsMax(data: seq<DailyPrice>, lo: nat, hi: nat)
    requires lo < hi <= |data|
    ensures forall k :: lo <= k < hi ==> data[k].close <= MaxClose(data, lo, hi)
    ensures exists k :: lo <= k < hi && data[k].close == MaxClose(data, lo, hi)
    decreases hi - lo
  {
    if hi == lo + 1 {
      assert data[lo].close == MaxClose(data, lo, hi);
    } else {
      MaxCloseIsMax(data, lo, hi - 1);
      if data[hi - 1].close > MaxClose(data, lo, hi - 1) {
        assert data[hi - 1].close == MaxClose(data, lo, hi);
      } else {
        var k :| lo <= k < hi - 1 && data[k].close == MaxClose(data, lo, hi - 1);
        assert data[k].close == MaxClose(data, lo, hi);
      }
    }
  }

  /** End of the 52-week look-ahead window. */
  function LookAheadEnd(data: seq<DailyPrice>, t: nat): nat
  {
    if t + 52 < |data| then t + 52 else |data|
  }

  method MaxPrice(data: seq<DailyPrice>, t: nat) returns (maxPrice: real)
    requires t < |data|
    ensures maxPrice == MaxClose(data, t, LookAheadEnd(data, t))
  {
    var lookAhead := LookAheadEnd(data, t);
    maxPrice := data[t].close;
    var j := t;
    while j < lookAhead
      invariant t <= j <= lookAhead
      invariant maxPrice == MaxClose(data, t, if j == t then t + 1 else j)
    {
      if data[j].close > maxPrice {
        maxPrice := data[j].close;
      }
      j := j + 1;
    }
  }

  /** "Days" up to one week, "N weeks" up to four, else months rounded to nearest (halves up). */
  function TimeLabelOf(weeksNear: nat): (l: TimeLabel)
    ensures l == Days <==> weeksNear <= 1
    ensures l.Weeks? <==> 2 <= weeksNear <= 4
    ensures l.Weeks? ==> l.count == weeksNear
    ensures l.Months? ==> 4 * l.months - 2 <= weeksNear < 4 * l.months + 2
  {
    if weeksNear <= 1 then Days
    else if weeksNear <= 4 then Weeks(weeksNear)
    else Months((weeksNear + 2) / 4)
  }

  /** The enrichment closure, over the resampled WMA series it captures. */
  function TouchEnrich(wma: seq<Option<real>>): (WmaRow, nat, seq<DailyPrice>) -> WmaRow
  {
    (row: WmaRow, t: nat, data: seq<DailyPrice>) =>
      if t >= |data| then row
      else
        var maxPrice := MaxClose(data, t, LookAheadEnd(data, t));
        TouchEnriched(row.date, row.wma, TimeLabelOf(WeeksNearSpec(data, wma, t)),
          PctChange(data[t].close, maxPrice), maxPrice)
  }

  function WmaConfig(wma: seq<Option<real>>): Config<DailyPrice, Option<real>, WmaRow>
  {
    Config("Every time BTC touched 200WMA",
      [Column("date", "Date"), Column("wma", "200WMA"), Column("timeNear", "Time There"),
       Column("returnFromTouch", "Return From Touch")],
      TouchTrigger, Some(TouchEnrich(wma)), Some(52))
  }

  /**
   * Every touch row is a week within 5% of a defined WMA, at least 52 weeks
   * after the previous one; price stayed near for at least that week, and
   * the best close of the next 52 weeks is never a loss.
   */
  lemma TouchRows(weekly: seq<DailyPrice>, wma: seq<Option<real>>)
    ensures var e := ScanSpec(EngineTrigger(weekly, wma, WmaConfig(wma)), 52, |weekly|);
      && (forall k :: 0 <= k < |e| ==>
            var t := e[k].index;
            && t < |weekly|
            && WithinBand(weekly[t].close, WmaAt(wma, t), 0.05)
            && WeeksNearSpec(weekly, wma, t) >= 1
            && e[k].row.TouchEnriched?
            && e[k].row.toPrice >= weekly[t].close
            && (weekly[t].close > 0.0 ==> e[k].row.returnFromTouch.Some? && e[k].row.returnFromTouch.value >= 0.0))
      && (forall k, l :: 0 <= k < l < |e| ==> e[l].index - e[k].index >= 52)
  {
    var config := WmaConfig(wma);
    EngineRows(weekly, wma, config);
    var e := ScanSpec(EngineTrigger(weekly, wma, config), 52, |weekly|);
    forall k | 0 <= k < |e|
      ensures var t := e[k].index;
        && WeeksNearSpec(weekly, wma, t) >= 1
        && e[k].row.TouchEnriched?
        && e[k].row.toPrice >= weekly[t].close
    {
      var t := e[k].index;
      assert TouchTrigger(weekly, t, wma).Some?;
      MaxCloseIsMax(weekly, t, LookAheadEnd(weekly, t));
    }
  }

  /** What the indicator reports: the current WMA, the signal, the two chart lines and the touch table. */
  datatype WmaOutcome = WmaOutcome(currentWma: Option<real>, signal: Signal,
    priceLine: seq<(Date, real)>, wmaLine: seq<(Date, real)>, backtest: Table<WmaRow>)

  /**
   * The indicator on a daily series. `None` is the source's crash on an
   * empty weekly series (`weekly[weekly.length - 1].close` of undefined).
   */
  method Calculate(prices: seq<DailyPrice>) returns (result: Option<WmaOutcome>)
    ensures var weekly := Weekly(prices);
      && (result.None? <==> |weekly| == 0)
      && (result.Some? ==>
            var wma := SmaSpec(Closes(weekly), WmaPeriod);
            && result.value.currentWma == wma[|wma| - 1]
            && result.value.signal == WmaSignal(weekly[|weekly| - 1].close, wma[|wma| - 1])
            && |result.value.priceLine| == |weekly|
            && (forall k :: 0 <= k < |weekly| ==> result.value.priceLine[k] == (weekly[k].date, weekly[k].close))
            && result.value.wmaLine == DefinedLineSpec(PriceDates(weekly), wma)
            && result.value.backtest.rows
               == Rows(ScanSpec(EngineTrigger(weekly, wma, WmaConfig(wma)), 52, |weekly|)))
  {
    var weekly := ResampleToWeekly(prices);
    if |weekly| == 0 {
      return None;
    }
    var wma := Sma(Closes(weekly), WmaPeriod);
    var currentWma := wma[|wma| - 1];
    var signal := WmaSignal(weekly[|weekly| - 1].close, currentWma);
    var priceLine := seq(|weekly|, k requires 0 <= k < |weekly| => (weekly[k].date, weekly[k].close));
    var wmaLine := DefinedLine(PriceDates(weekly), wma);
    var backtest := RunBacktest(weekly, wma, WmaConfig(wma));
    result := Some(WmaOutcome(currentWma, signal, priceLine, wmaLine, backtest));
  }
}
