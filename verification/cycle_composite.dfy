/**
 * The cycle composite: per BTC day, the sum of the seven indicator votes and
 * the number of indicators voting; its buy/sell classification, bar shades,
 * halving markers and cycle position; and the backtest of extreme readings,
 * sixty records apart, closed by a row for the current state.
 */
module CycleComposite {
  import opened Common
  import opened Engine
  import opened CompositeSignals
  import MiningFetch
  import StablecoinFetch
  import ExchangeFetch
  import BitfinexFetch
  import DeribitFetch

  const CompositeBuy := 2
  const CompositeSell := -2
  const BacktestCooldown := 60
  const Halvings: seq<Date> := ["2012-11-28", "2016-07-09", "2020-05-11", "2024-04-20"]

  datatype DailyComposite = DailyComposite(date: Date, price: real, score: int, available: nat)

  // ---------------------------------------------------------------------------
  // The daily merge.

  /** Sum of the votes the maps hold for `d`. */
  function ScoreOf(maps: seq<VoteMap>, d: Date): int
  {
    if |maps| == 0 then 0
    else ScoreOf(maps[..|maps| - 1], d) + if d in maps[|maps| - 1] then maps[|maps| - 1][d] else 0
  }

  /** Number of maps holding a vote for `d`. */
  function AvailableOf(maps: seq<VoteMap>, d: Date): nat
  {
    if |maps| == 0 then 0
    else AvailableOf(maps[..|maps| - 1], d) + if d in maps[|maps| - 1] then 1 else 0
  }

  /** Some map holds a vote for `d`. */
  predicate Covered(maps: seq<VoteMap>, d: Date)
  {
    exists m :: 0 <= m < |maps| && d in maps[m]
  }

  /** At most one vote per map, each of size at most one; a count exactly when some map votes. */
  lemma {:induction false} Tally(maps: seq<VoteMap>, d: Date)
    requires forall m :: 0 <= m < |maps| ==> IsVoteMap(maps[m])
    ensures AvailableOf(maps, d) <= |maps|
    ensures -(AvailableOf(maps, d) as int) <= ScoreOf(maps, d) <= AvailableOf(maps, d)
    ensures AvailableOf(maps, d) > 0 <==> Covered(maps, d)
  {
    if |maps| > 0 {
      var init := maps[..|maps| - 1];
      Tally(init, d);
      if Covered(init, d) {
        var m :| 0 <= m < |init| && d in init[m];
        assert d in maps[m];
      }
      if Covered(maps, d) && d !in maps[|maps| - 1] {
        var m :| 0 <= m < |maps| && d in maps[m];
        assert d in init[m];
      }
    }
  }

  function RecordAt(prices: seq<DailyPrice>, maps: seq<VoteMap>, i: nat): DailyComposite
    requires i < |prices|
  {
    DailyComposite(prices[i].date, prices[i].close, ScoreOf(maps, prices[i].date), AvailableOf(maps, prices[i].date))
  }

  /** The records of the first `n` days: one per day with at least one vote, in day order. */
  function Merged(prices: seq<DailyPrice>, maps: seq<VoteMap>, n: nat): seq<DailyComposite>
    requires n <= |prices|
  {
    if n == 0 then []
    else Merged(prices, maps, n - 1) + if AvailableOf(maps, prices[n - 1].date) > 0 then [RecordAt(prices, maps, n - 1)] else []
  }

  /** The days that get a record, in order. */
  function Kept(prices: seq<DailyPrice>, maps: seq<VoteMap>, n: nat): (ks: seq<nat>)
    requires n <= |prices|
    ensures forall k :: 0 <= k < |ks| ==> ks[k] < n
  {
    if n == 0 then []
    else Kept(prices, maps, n - 1) + if AvailableOf(maps, prices[n - 1].date) > 0 then [n - 1] else []
  }

  /**
   * The records are exactly those of the days some map votes on, in
   * strictly increasing day order.
   */
  lemma MergedIsKept(prices: seq<DailyPrice>, maps: seq<VoteMap>, n: nat)
    requires n <= |prices|
    requires forall m :: 0 <= m < |maps| ==> IsVoteMap(maps[m])
    ensures var ks := Kept(prices, maps, n);
      && |Merged(prices, maps, n)| == |ks|
      && (forall k :: 0 <= k < |ks| ==> Merged(prices, maps, n)[k] == RecordAt(prices, maps, ks[k]))
      && (forall k, l :: 0 <= k < l < |ks| ==> ks[k] < ks[l])
      && (forall i :: 0 <= i < n ==> (i in ks <==> Covered(maps, prices[i].date)))
  {
    MergedRecords(prices, maps, n);
    KeptDays(prices, maps, n);
  }

  /** Record `k` is the record of the `k`-th kept day. */
  lemma {:induction false} MergedRecords(prices: seq<DailyPrice>, maps: seq<VoteMap>, n: nat)
    requires n <= |prices|
    ensures var ks := Kept(prices, maps, n);
      && |Merged(prices, maps, n)| == |ks|
      && (forall k :: 0 <= k < |ks| ==> Merged(prices, maps, n)[k] == RecordAt(prices, maps, ks[k]))
  {
    if n > 0 {
      MergedRecords(prices, maps, n - 1);
    }
  }

  /** The kept days increase strictly and are exactly the days some map votes on. */
  lemma KeptDays(prices: seq<DailyPrice>, maps: seq<VoteMap>, n: nat)
    requires n <= |prices|
    requires forall m :: 0 <= m < |maps| ==> IsVoteMap(maps[m])
    ensures var ks := Kept(prices, maps, n);
      && (forall k, l :: 0 <= k < l < |ks| ==> ks[k] < ks[l])
      && (forall i :: 0 <= i < n ==> (i in ks <==> Covered(maps, prices[i].date)))
  {
    KeptIncreasing(prices, maps, n);
    KeptMembers(prices, maps, n);
    forall i | 0 <= i < n ensures AvailableOf(maps, prices[i].date) > 0 <==> Covered(maps, prices[i].date) {
      Tally(maps, prices[i].date);
    }
  }

  lemma {:induction false} KeptIncreasing(prices: seq<DailyPrice>, maps: seq<VoteMap>, n: nat)
    requires n <= |prices|
    ensures forall k, l :: 0 <= k < l < |Kept(prices, maps, n)| ==> Kept(prices, maps, n)[k] < Kept(prices, maps, n)[l]
  {
    if n > 0 {
      KeptIncreasing(prices, maps, n - 1);
      var ks := Kept(prices, maps, n - 1);
      if AvailableOf(maps, prices[n - 1].date) > 0 {
        var ks' := ks + [n - 1];
        assert Kept(prices, maps, n) == ks';
        forall k, l | 0 <= k < l < |ks'| ensures ks'[k] < ks'[l] {
          assert ks'[k] == ks[k];
          if l < |ks| { assert ks'[l] == ks[l]; } else { assert ks'[l] == n - 1 && ks[k] < n - 1; }
        }
      } else {
        assert Kept(prices, maps, n) == ks;
      }
    }
  }

  /** Day `i` is kept exactly when it is among the first `n` and some map holds a vote for it. */
  lemma {:induction false} KeptMembers(prices: seq<DailyPrice>, maps: seq<VoteMap>, n: nat)
    requires n <= |prices|
    ensures forall i :: 0 <= i < n ==> (i in Kept(prices, maps, n) <==> AvailableOf(maps, prices[i].date) > 0)
  {
    if n > 0 {
      KeptMembers(prices, maps, n - 1);
      var ks := Kept(prices, maps, n - 1);
      if AvailableOf(maps, prices[n - 1].date) > 0 {
        assert Kept(prices, maps, n) == ks + [n - 1];
      } else {
        assert Kept(prices, maps, n) == ks;
      }
    }
  }

  /** Every record has between one and seven votes and a score no larger in size than its count. */
  lemma {:induction false} MergedBounds(prices: seq<DailyPrice>, maps: seq<VoteMap>, n: nat)
    requires n <= |prices|
    requires forall m :: 0 <= m < |maps| ==> IsVoteMap(maps[m])
    ensures forall r :: r in Merged(prices, maps, n) ==>
      1 <= r.available <= |maps| && -(r.available as int) <= r.score <= r.available
  {
    if n > 0 {
      MergedBounds(prices, maps, n - 1);
      Tally(maps, prices[n - 1].date);
    }
  }

  /** The merge loop: for each day, the inner loop over the maps, then a record when any voted. */
  method Merge(prices: seq<DailyPrice>, maps: seq<VoteMap>) returns (composite: seq<DailyComposite>)
    ensures composite == Merged(prices, maps, |prices|)
  {
    composite := [];
    for i := 0 to |prices|
      invariant composite == Merged(prices, maps, i)
    {
      var p := prices[i];
      var score, available := 0, 0;
      for m := 0 to |maps|
        invariant score == ScoreOf(maps[..m], p.date)
        invariant available == AvailableOf(maps[..m], p.date)
      {
        assert maps[..m + 1][..m] == maps[..m];
        if p.date in maps[m] {
          score := score + maps[m][p.date];
          available := available + 1;
        }
      }
      assert maps[..|maps|] == maps;
      if available > 0 {
        composite := composite + [DailyComposite(p.date, p.close, score, available)];
      }
    }
  }

  // ---------------------------------------------------------------------------
  // Classification and bar colours.

  function CompositeSignal(score: int): (s: Signal)
    ensures s == Buy <==> score >= CompositeBuy
    ensures s == Sell <==> score <= CompositeSell
  {
    if score >= CompositeBuy then Buy else if score <= CompositeSell then Sell else Neutral
  }

  datatype BarColor = DeepGreen | Green | LightGreen | Gray | LightRed | Red | DeepRed

  /** A shade per colour, +3 for deep green down to -3 for deep red. */
  function Shade(c: BarColor): int
  {
    match c
    case DeepGreen => 3
    case Green => 2
    case LightGreen => 1
    case Gray => 0
    case LightRed => -1
    case Red => -2
    case DeepRed => -3
  }

  /** The bar colour of a score, from deep green at +3 and above to deep red at -3 and below. */
  function CompositeColor(score: int): (c: BarColor)
    ensures (c == DeepGreen || c == Green) <==> CompositeSignal(score) == Buy
    ensures (c == Red || c == DeepRed) <==> CompositeSignal(score) == Sell
    ensures c == Gray <==> score == 0
    ensures Shade(c) == if score > 3 then 3 else if score < -3 then -3 else score
  {
    if score >= 3 then DeepGreen
    else if score >= 2 then Green
    else if score >= 1 then LightGreen
    else if score == 0 then Gray
    else if score >= -1 then LightRed
    else if score >= -2 then Red
    else DeepRed
  }

  // ---------------------------------------------------------------------------
  // Halvings.

  /** How many of the first `n` halvings fall on or before `date`. */
  function HalvingCount(date: Date, n: nat): nat
    requires n <= |Halvings|
  {
    if n == 0 then 0 else HalvingCount(date, n - 1) + if DateLe(Halvings[n - 1], date) then 1 else 0
  }

  /** The last of the first `n` halvings, in list order, on or before `date`. */
  function LastHalving(date: Date, n: nat): Option<Date>
    requires n <= |Halvings|
  {
    if n == 0 then None
    else if DateLe(Halvings[n - 1], date) then Some(Halvings[n - 1])
    else LastHalving(date, n - 1)
  }

  /** Halving `k` is on or before `date` and none after it in the list is. */
  predicate LastBefore(date: Date, n: nat, k: nat)
    requires n <= |Halvings|
  {
    k < n && DateLe(Halvings[k], date) && forall j :: k < j < n ==> !DateLe(Halvings[j], date)
  }

  lemma {:induction false} LastHalvingFacts(date: Date, n: nat)
    requires n <= |Halvings|
    ensures LastHalving(date, n).None? <==> HalvingCount(date, n) == 0
    ensures LastHalving(date, n).Some? ==> exists k: nat :: LastBefore(date, n, k) && Halvings[k] == LastHalving(date, n).value
  {
    if n > 0 {
      LastHalvingFacts(date, n - 1);
      if !DateLe(Halvings[n - 1], date) && LastHalving(date, n).Some? {
        var k: nat :| LastBefore(date, n - 1, k) && Halvings[k] == LastHalving(date, n - 1).value;
        assert LastBefore(date, n, k);
      } else if DateLe(Halvings[n - 1], date) {
        assert LastBefore(date, n, n - 1);
      }
    }
  }

  /** Days since the last halving are calendar arithmetic and are not part of this model. */
  datatype CyclePosition = PreHalving | InCycle(cycle: nat, since: Date)

  /**
   * The halving loop: the cycle number is one more than the halvings on or
   * before the date, counted from the first cycle.
   */
  method CyclePositionOf(date: Date) returns (pos: CyclePosition)
    ensures pos.PreHalving? <==> HalvingCount(date, |Halvings|) == 0
    ensures pos.InCycle? ==> (pos.cycle == 1 + HalvingCount(date, |Halvings|) && Some(pos.since) == LastHalving(date, |Halvings|))
  {
    var lastHalving: Date := "";
    var cycleNum := 1;
    for k := 0 to |Halvings|
      invariant cycleNum == 1 + HalvingCount(date, k)
      invariant LastHalving(date, k).None? ==> lastHalving == ""
      invariant LastHalving(date, k).Some? ==> Some(lastHalving) == LastHalving(date, k) && |lastHalving| == 10
    {
      assert |Halvings[k]| == 10;
      if DateLe(Halvings[k], date) {
        lastHalving := Halvings[k];
        cycleNum := cycleNum + 1;
      }
    }
    LastHalvingFacts(date, |Halvings|);
    if lastHalving == "" {
      return PreHalving;
    }
    pos := InCycle(cycleNum, lastHalving);
  }

  datatype Marker = Marker(date: Date, number: nat)

  /** The dates of `hs` that lie in [first, last], numbered from 1 in list order. */
  function Markers(hs: seq<Date>, first: Date, last: Date): (ms: seq<Marker>)
    ensures forall k :: 0 <= k < |ms| ==> ms[k].number == k + 1
  {
    if |hs| == 0 then []
    else
      var ms := Markers(hs[..|hs| - 1], first, last);
      var h := hs[|hs| - 1];
      if WithinChart(first, last, h) then ms + [Marker(h, |ms| + 1)] else ms
  }

  predicate WithinChart(first: Date, last: Date, h: Date)
  {
    DateLe(first, h) && DateLe(h, last)
  }

  /** The markers are exactly the dates in range, in list order. */
  lemma {:induction false} MarkersExact(hs: seq<Date>, first: Date, last: Date)
    ensures forall k :: 0 <= k < |Markers(hs, first, last)| ==>
      Markers(hs, first, last)[k].date in hs && WithinChart(first, last, Markers(hs, first, last)[k].date)
    ensures forall j :: 0 <= j < |hs| && WithinChart(first, last, hs[j]) ==> Marked(Markers(hs, first, last), hs[j])
  {
    if |hs| > 0 {
      var init := hs[..|hs| - 1];
      MarkersExact(init, first, last);
      var ms := Markers(init, first, last);
      forall j | 0 <= j < |hs| && WithinChart(first, last, hs[j]) ensures Marked(Markers(hs, first, last), hs[j]) {
        if j < |hs| - 1 {
          assert init[j] == hs[j];
          var k :| 0 <= k < |ms| && ms[k].date == init[j];
          assert Markers(hs, first, last)[k] == ms[k];
        } else {
          assert Markers(hs, first, last)[|ms|].date == hs[j];
        }
      }
    }
  }

  /** Some marker is at date `h`. */
  predicate Marked(ms: seq<Marker>, h: Date)
  {
    exists k :: 0 <= k < |ms| && ms[k].date == h
  }

  // ---------------------------------------------------------------------------
  // The backtest.

  datatype CompositeRow =
    | Extreme(date: Date, kind: Signal, score: int, available: nat, btcPrice: real,
              ret1m: Option<real>, ret3m: Option<real>, ret6m: Option<real>)
    | Current(date: Date, kind: Signal, score: int, available: nat, btcPrice: real)

  /** The last index of a date among the BTC prices. */
  function IndexOf(prices: seq<DailyPrice>, date: Date): (r: Option<nat>)
    ensures r.Some? <==> date in PriceIndex(prices)
    ensures r.Some? ==> r.value < |prices| && prices[r.value].date == date
    ensures r.Some? ==> forall j :: r.value < j < |prices| ==> prices[j].date != date
  {
    PriceIndexIsLast(prices, date);
    if date in PriceIndex(prices) then Some(PriceIndex(prices)[date]) else None
  }

  /**
   * Fires on a record scoring at least +2 or at most -2 whose date is a BTC
   * date, with the returns 30, 90 and 180 days on from that date's index.
   */
  function ExtremeTrigger(composite: seq<DailyComposite>, prices: seq<DailyPrice>): nat -> Option<CompositeRow>
  {
    (i: nat) =>
      if i >= |composite| then None
      else
        var d := composite[i];
        if d.score < CompositeBuy && d.score > CompositeSell then None
        else
          match IndexOf(prices, d.date)
          case None => None
          case Some(t) =>
            Some(Extreme(d.date, if d.score >= CompositeBuy then Buy else Sell, d.score, d.available, d.price,
              OffsetReturn(prices, t, 30), OffsetReturn(prices, t, 90), OffsetReturn(prices, t, 180)))
  }

  function CurrentRow(d: DailyComposite): (r: CompositeRow)
    ensures r.Current? && r.kind == CompositeSignal(d.score)
  {
    Current(d.date, if d.score >= CompositeBuy then Buy else if d.score <= CompositeSell then Sell else Neutral,
      d.score, d.available, d.price)
  }

  /** The composite backtest over a non-empty composite: the extreme rows, then the current state. */
  method CompositeBacktest(composite: seq<DailyComposite>, prices: seq<DailyPrice>) returns (rows: seq<CompositeRow>)
    requires |composite| > 0
    ensures rows == Rows(ScanSpec(ExtremeTrigger(composite, prices), BacktestCooldown, |composite|))
      + [CurrentRow(composite[|composite| - 1])]
  {
    var events := Scan(ExtremeTrigger(composite, prices), BacktestCooldown, |composite|);
    rows := Rows(events) + [CurrentRow(composite[|composite| - 1])];
  }

  /**
   * One row per fired record, at least sixty records apart, each extreme
   * and found among the BTC dates, with a return missing exactly past the
   * end of the prices (or from a zero close); then exactly one current row.
   */
  lemma CompositeRows(composite: seq<DailyComposite>, prices: seq<DailyPrice>)
    requires |composite| > 0
    ensures var e := ScanSpec(ExtremeTrigger(composite, prices), BacktestCooldown, |composite|);
      var rows := Rows(e) + [CurrentRow(composite[|composite| - 1])];
      && |rows| == |e| + 1
      && rows[|e|] == CurrentRow(composite[|composite| - 1])
      && (forall k, l :: 0 <= k < l < |e| ==> e[l].index - e[k].index >= BacktestCooldown)
      && (forall k :: 0 <= k < |e| ==> e[k].index < |composite|)
      && (forall k :: 0 <= k < |e| ==>
            var d := composite[e[k].index];
            && e[k].row.Extreme? && e[k].row.date == d.date && e[k].row.score == d.score
            && (e[k].row.kind == Buy <==> d.score >= CompositeBuy)
            && (e[k].row.kind == Sell <==> d.score <= CompositeSell)
            && (exists t :: 0 <= t < |prices| && prices[t].date == d.date))
  {
    var trigger := ExtremeTrigger(composite, prices);
    var e := ScanSpec(trigger, BacktestCooldown, |composite|);
    ScanSpaced(trigger, BacktestCooldown, |composite|);
    assert |Rows(e)| == |e|;
    forall k | 0 <= k < |e|
      ensures e[k].index < |composite|
      ensures var d := composite[e[k].index];
        && e[k].row.Extreme? && e[k].row.date == d.date && e[k].row.score == d.score
        && (e[k].row.kind == Buy <==> d.score >= CompositeBuy)
        && (e[k].row.kind == Sell <==> d.score <= CompositeSell)
        && (exists t :: 0 <= t < |prices| && prices[t].date == d.date)
    {
      assert trigger(e[k].index) == Some(e[k].row);
      var t := IndexOf(prices, composite[e[k].index].date).value;
      assert prices[t].date == composite[e[k].index].date;
    }
  }

  // ---------------------------------------------------------------------------
  // The indicator.

  datatype Bar = Bar(date: Date, score: int, color: BarColor)

  datatype CompositeResult =
    | NoData
    | CompositeState(score: int, available: nat, signal: Signal, position: CyclePosition,
                     priceLine: seq<(Date, real)>, bars: seq<Bar>, markers: seq<Marker>, backtest: seq<CompositeRow>)
  {
    /** The empty result reads neutral. */
    function Signal(): Signal
    {
      if NoData? then Neutral else signal
    }
  }

  /**
   * The result for a non-empty composite: the latest record's score, count
   * and signal, one price point and one coloured bar per record, the halving
   * markers within the records' dates, and the backtest.
   */
  method Present(composite: seq<DailyComposite>, prices: seq<DailyPrice>) returns (result: CompositeResult)
    requires |composite| > 0
    ensures var latest := composite[|composite| - 1];
      && result.CompositeState?
      && result.score == latest.score && result.available == latest.available
      && result.signal == CompositeSignal(latest.score)
      && |result.priceLine| == |result.bars| == |composite|
      && (forall k :: 0 <= k < |composite| ==> result.priceLine[k] == (composite[k].date, composite[k].price))
      && (forall k :: 0 <= k < |composite| ==>
            result.bars[k] == Bar(composite[k].date, composite[k].score, CompositeColor(composite[k].score)))
      && result.markers == Markers(Halvings, composite[0].date, latest.date)
      && (result.position.PreHalving? <==> HalvingCount(latest.date, |Halvings|) == 0)
      && (result.position.InCycle? ==>
            result.position.cycle == 1 + HalvingCount(latest.date, |Halvings|)
            && Some(result.position.since) == LastHalving(latest.date, |Halvings|))
      && result.backtest == Rows(ScanSpec(ExtremeTrigger(composite, prices), BacktestCooldown, |composite|)) + [CurrentRow(latest)]
  {
    var latest := composite[|composite| - 1];
    var priceLine := seq(|composite|, k requires 0 <= k < |composite| => (composite[k].date, composite[k].price));
    var bars := seq(|composite|, k requires 0 <= k < |composite| =>
      Bar(composite[k].date, composite[k].score, CompositeColor(composite[k].score)));
    var markers := Markers(Halvings, composite[0].date, latest.date);
    var backtest := CompositeBacktest(composite, prices);
    var position := CyclePositionOf(latest.date);
    result := CompositeState(latest.score, latest.available, CompositeSignal(latest.score), position,
      priceLine, bars, markers, backtest);
  }

  /** Over seven vote maps, the latest record has between one and seven votes. */
  lemma LatestAvailable(prices: seq<DailyPrice>, maps: seq<VoteMap>)
    requires |maps| == 7 && forall m :: 0 <= m < |maps| ==> IsVoteMap(maps[m])
    requires |Merged(prices, maps, |prices|)| > 0
    ensures var composite := Merged(prices, maps, |prices|);
      1 <= composite[|composite| - 1].available <= 7
  {
    var composite := Merged(prices, maps, |prices|);
    MergedBounds(prices, maps, |prices|);
    assert composite[|composite| - 1] in composite;
  }

  /**
   * The whole composite. Each data source that fails reaches this as an
   * empty list, and a failed put/call request as `None`.
   */
  method Calculate(prices: seq<DailyPrice>, mining: seq<MiningFetch.MiningPoint>, stablecoin: seq<StablecoinFetch.StablecoinPoint>,
                   binance: seq<ExchangeFetch.ExchangePrice>, coinbase: seq<ExchangeFetch.ExchangePrice>,
                   bitfinex: seq<BitfinexFetch.LongsPoint>, dvol: seq<DeribitFetch.DvolPoint>, livePcr: Option<real>)
    returns (result: CompositeResult)
    ensures var composite := Merged(prices, AllMaps(prices, mining, stablecoin, binance, coinbase, bitfinex, dvol, livePcr), |prices|);
      && (result.NoData? <==> |composite| == 0)
      && (result.CompositeState? ==>
            var latest := composite[|composite| - 1];
            && result.score == latest.score && result.available == latest.available
            && result.signal == CompositeSignal(latest.score)
            && 1 <= result.available <= 7
            && |result.priceLine| == |result.bars| == |composite|
            && (forall k :: 0 <= k < |composite| ==> result.priceLine[k] == (composite[k].date, composite[k].price))
            && (forall k :: 0 <= k < |composite| ==>
                  result.bars[k] == Bar(composite[k].date, composite[k].score, CompositeColor(composite[k].score)))
            && result.markers == Markers(Halvings, composite[0].date, latest.date)
            && (result.position.PreHalving? <==> HalvingCount(latest.date, |Halvings|) == 0)
            && (result.position.InCycle? ==>
                  result.position.cycle == 1 + HalvingCount(latest.date, |Halvings|)
                  && Some(result.position.since) == LastHalving(latest.date, |Halvings|))
            && result.backtest == Rows(ScanSpec(ExtremeTrigger(composite, prices), BacktestCooldown, |composite|)) + [CurrentRow(latest)])
  {
    var maps := AllSignals(prices, mining, stablecoin, binance, coinbase, bitfinex, dvol, livePcr);
    var composite := Merge(prices, maps);
    if |composite| == 0 {
      return NoData;
    }
    AllVoteMaps(prices, mining, stablecoin, binance, coinbase, bitfinex, dvol, livePcr);
    LatestAvailable(prices, maps);
    result := Present(composite, prices);
  }
}
