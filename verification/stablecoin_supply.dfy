/**
 * Combined USDT + USDC supply: its 30-day rate of change and signal, the
 * supply label buckets, and the "new all-time high after a pullback"
 * backtest, a small state machine over the supply series.
 */
module StablecoinSupply {
  import opened Common
  import opened Engine
  import opened StablecoinFetch

  const MomentumPeriod: nat := 30
  const BullishThreshold: real := 3.0
  const BearishThreshold: real := -1.0
  const BacktestCooldown: nat := 90

  // ---------------------------------------------------------------------------
  // formatSupply, as the magnitude bucket and the scaled number it prints.

  datatype SupplyLabel = Trillions(t: real) | Billions(b: real) | Millions(m: real) | Dollars(d: real)

  function FormatSupply(value: real): (l: SupplyLabel)
    ensures l.Trillions? <==> value >= 1000000000000.0
    ensures l.Billions? <==> 1000000000.0 <= value < 1000000000000.0
    ensures l.Millions? <==> 1000000.0 <= value < 1000000000.0
    ensures l.Dollars? <==> value < 1000000.0
    ensures l.Trillions? ==> l.t * 1000000000000.0 == value
    ensures l.Billions? ==> l.b * 1000000000.0 == value
    ensures l.Millions? ==> l.m * 1000000.0 == value
    ensures l.Dollars? ==> l.d == value
  {
    if value >= 1000000000000.0 then Trillions(value / 1000000000000.0)
    else if value >= 1000000000.0 then Billions(value / 1000000000.0)
    else if value >= 1000000.0 then Millions(value / 1000000.0)
    else Dollars(value)
  }

  // ---------------------------------------------------------------------------
  // computeRateOfChange

  /** The percentage change over `period` points; missing before `period` and over a non-positive base. */
  function RocAt(data: seq<real>, period: nat, i: nat): (r: Option<real>)
    requires i < |data|
    ensures r.Some? <==> i >= period && data[i - period] > 0.0
    ensures r.Some? ==> Some(r.value) == PctChange(data[i - period], data[i])
    ensures r.Some? ==> (r.value > 0.0 <==> data[i] > data[i - period])
  {
    if i >= period && data[i - period] > 0.0 then
      var base := data[i - period];
      assert (data[i] - base) / base > 0.0 <==> data[i] - base > 0.0 by {
        assert data[i] - base == ((data[i] - base) / base) * base;
      }
      Some((data[i] - base) / base * 100.0)
    else None
  }

  method ComputeRateOfChange(data: seq<real>, period: nat) returns (result: seq<Option<real>>)
    ensures |result| == |data|
    ensures forall i :: 0 <= i < |data| ==> result[i] == RocAt(data, period, i)
  {
    var out := new Option<real>[|data|](_ => None);
    var i := period;
    while i < |data|
      invariant forall k :: 0 <= k < |data| && (k < period || k < i) ==> out[k] == RocAt(data, period, k)
      invariant forall k :: 0 <= k < |data| && k >= period && k >= i ==> out[k] == None
    {
      if data[i - period] > 0.0 {
        out[i] := Some((data[i] - data[i - period]) / data[i - period] * 100.0);
      }
      i := i + 1;
    }
    result := out[..];
  }

  /** Buy above +3%, sell below -1%, neutral otherwise and for a missing change. */
  function RocSignal(roc: Option<real>): (s: Signal)
    ensures s == Buy <==> roc.Some? && roc.value > BullishThreshold
    ensures s == Sell <==> roc.Some? && roc.value < BearishThreshold
    ensures roc.None? ==> s == Neutral
  {
    match roc
    case None => Neutral
    case Some(r) => if r > BullishThreshold then Buy else if r < BearishThreshold then Sell else Neutral
  }

  // ---------------------------------------------------------------------------
  // buildNewAthBacktest

  datatype AthRow = AthRow(date: Date, supply: real, btcPrice: real, return6m: Option<real>)

  /** The machine's variables; `lastTrigger` is `None` for the source's `-Infinity`. */
  datatype AthState = AthState(ath: real, hadPullback: bool, lastTrigger: Option<nat>)

  /** `plus180` maps a supply timestamp to the ISO date 180 calendar days later. */
  function AthRowAt(p: StablecoinPoint, btcByDate: map<Date, real>, plus180: int -> Date): AthRow
    requires p.date in btcByDate
  {
    var price := btcByDate[p.date];
    AthRow(p.date, p.supply, price, DateReturn(btcByDate, price, plus180(p.timestamp)))
  }

  /** One iteration: the new state and the row it emits, if any. */
  function AthStep(st: AthState, i: nat, p: StablecoinPoint, btcByDate: map<Date, real>, plus180: int -> Date)
    : (AthState, Option<AthRow>)
  {
    if p.supply > st.ath then
      if st.hadPullback && (st.lastTrigger.None? || i - st.lastTrigger.value >= BacktestCooldown)
         && TruthyAt(btcByDate, p.date)
      then (AthState(p.supply, false, Some(i)), Some(AthRowAt(p, btcByDate, plus180)))
      else (AthState(p.supply, false, st.lastTrigger), None)
    else if p.supply < st.ath * 0.95 then (AthState(st.ath, true, st.lastTrigger), None)
    else (st, None)
  }

  /** The state and the emitted rows after the first `n` points. */
  function AthRun(points: seq<StablecoinPoint>, btcByDate: map<Date, real>, plus180: int -> Date, n: nat)
    : (AthState, seq<Event<AthRow>>)
    requires n <= |points|
  {
    if n == 0 then (AthState(0.0, false, None), [])
    else
      var (st, events) := AthRun(points, btcByDate, plus180, n - 1);
      var (st', row) := AthStep(st, n - 1, points[n - 1], btcByDate, plus180);
      (st', if row.Some? then events + [Event(n - 1, row.value)] else events)
  }

  method BuildNewAthBacktest(points: seq<StablecoinPoint>, btcPrices: seq<DailyPrice>, plus180: int -> Date)
    returns (rows: seq<AthRow>)
    ensures rows == Rows(AthRun(points, CloseByDate(btcPrices), plus180, |points|).1)
  {
    var btcByDate := CloseByDate(btcPrices);
    var events: seq<Event<AthRow>> := [];
    var ath := 0.0;
    var hadPullback := false;
    var lastTrigger: Option<nat> := None;
    var i := 0;
    while i < |points|
      invariant 0 <= i <= |points|
      invariant (AthState(ath, hadPullback, lastTrigger), events) == AthRun(points, btcByDate, plus180, i)
    {
      var supply := points[i].supply;
      if supply > ath {
        if hadPullback && (lastTrigger.None? || i - lastTrigger.value >= BacktestCooldown) {
          if TruthyAt(btcByDate, points[i].date) {
            events := events + [Event(i, AthRowAt(points[i], btcByDate, plus180))];
            lastTrigger := Some(i);
          }
        }
        ath := supply;
        hadPullback := false;
      } else if supply < ath * 0.95 {
        hadPullback := true;
      }
      i := i + 1;
    }
    rows := Rows(events);
  }

  // What the machine computes, stated over the supply series alone.

  /** `max(0, supply[0..n))`: the all-time high before point `n`. */
  function AthBefore(points: seq<StablecoinPoint>, n: nat): (a: real)
    requires n <= |points|
    ensures a >= 0.0
  {
    if n == 0 then 0.0
    else
      var a := AthBefore(points, n - 1);
      if points[n - 1].supply > a then points[n - 1].supply else a
  }

  /** The running high bounds every earlier supply and is 0 or one of them. */
  lemma {:induction false} AthBeforeIsMax(points: seq<StablecoinPoint>, n: nat)
    requires n <= |points|
    ensures forall k :: 0 <= k < n ==> points[k].supply <= AthBefore(points, n)
    ensures AthBefore(points, n) == 0.0 || exists k :: 0 <= k < n && points[k].supply == AthBefore(points, n)
  {
    if n > 0 {
      AthBeforeIsMax(points, n - 1);
    }
  }

  predicate NewAth(points: seq<StablecoinPoint>, k: nat)
    requires k < |points|
  {
    points[k].supply > AthBefore(points, k)
  }

  /** Point `j` is more than 5% below the high before it. */
  predicate PullbackAt(points: seq<StablecoinPoint>, j: nat)
    requires j < |points|
  {
    points[j].supply < AthBefore(points, j) * 0.95
  }

  ghost predicate NoNewAthBetween(points: seq<StablecoinPoint>, j: nat, n: nat)
    requires n <= |points|
  {
    forall k :: j < k < n ==> !NewAth(points, k)
  }

  /** Some point before `n` fell 5% below the high of its day, and no new high followed it. */
  ghost predicate PullbackPending(points: seq<StablecoinPoint>, n: nat)
    requires n <= |points|
  {
    exists j :: 0 <= j < n && PullbackAt(points, j) && NoNewAthBetween(points, j, n)
  }

  /** The events are emitted at strict new highs after a pending pullback, on dates BTC has a (truthy) close. */
  ghost predicate Justified(points: seq<StablecoinPoint>, btcByDate: map<Date, real>, plus180: int -> Date,
    events: seq<Event<AthRow>>)
  {
    forall k :: 0 <= k < |events| ==>
      var j := events[k].index;
      && j < |points| && NewAth(points, j) && PullbackPending(points, j) && TruthyAt(btcByDate, points[j].date)
      && events[k].row == AthRowAt(points[j], btcByDate, plus180)
  }

  ghost predicate Spaced(events: seq<Event<AthRow>>, gap: nat)
  {
    forall k, l :: 0 <= k < l < |events| ==> events[k].index < events[l].index && events[l].index - events[k].index >= gap
  }

  lemma PullbackClearedByNewAth(points: seq<StablecoinPoint>, n: nat)
    requires n < |points| && NewAth(points, n)
    ensures !PullbackPending(points, n + 1)
  {
    assert !PullbackAt(points, n);
    assert NewAth(points, n);
  }

  lemma PullbackKept(points: seq<StablecoinPoint>, n: nat)
    requires n < |points| && !NewAth(points, n)
    ensures PullbackPending(points, n + 1) <==> PullbackAt(points, n) || PullbackPending(points, n)
  {
    if PullbackPending(points, n) {
      var j :| 0 <= j < n && PullbackAt(points, j) && NoNewAthBetween(points, j, n);
      assert NoNewAthBetween(points, j, n + 1);
    }
    if PullbackAt(points, n) {
      assert NoNewAthBetween(points, n, n + 1);
    }
    if PullbackPending(points, n + 1) && !PullbackAt(points, n) {
      var j :| 0 <= j < n + 1 && PullbackAt(points, j) && NoNewAthBetween(points, j, n + 1);
      assert j < n;
      assert NoNewAthBetween(points, j, n);
    }
  }

  lemma StateStep(points: seq<StablecoinPoint>, btcByDate: map<Date, real>, plus180: int -> Date, n: nat,
    st: AthState)
    requires n < |points|
    requires st.ath == AthBefore(points, n) && (st.hadPullback <==> PullbackPending(points, n))
    ensures var st' := AthStep(st, n, points[n], btcByDate, plus180).0;
      st'.ath == AthBefore(points, n + 1) && (st'.hadPullback <==> PullbackPending(points, n + 1))
  {
    if NewAth(points, n) {
      PullbackClearedByNewAth(points, n);
    } else {
      PullbackKept(points, n);
    }
  }

  /**
   * After `n` points: `ath` is the running high, `hadPullback` says a 5%
   * pullback is pending, `lastTrigger` is the last emitted index, and every
   * emitted row is justified and at least 90 points after the previous one.
   */
  ghost predicate RunInvariant(points: seq<StablecoinPoint>, btcByDate: map<Date, real>, plus180: int -> Date, n: nat,
    st: AthState, events: seq<Event<AthRow>>)
    requires n <= |points|
  {
    && st.ath == AthBefore(points, n)
    && (st.hadPullback <==> PullbackPending(points, n))
    && (st.lastTrigger.None? <==> |events| == 0)
    && (st.lastTrigger.Some? ==> st.lastTrigger.value == events[|events| - 1].index)
    && (forall k :: 0 <= k < |events| ==> events[k].index < n)
    && Justified(points, btcByDate, plus180, events)
    && Spaced(events, BacktestCooldown)
  }

  /** One iteration keeps the invariant. */
  lemma InvariantStep(points: seq<StablecoinPoint>, btcByDate: map<Date, real>, plus180: int -> Date, n: nat)
    requires n < |points|
    requires RunInvariant(points, btcByDate, plus180, n, AthRun(points, btcByDate, plus180, n).0, AthRun(points, btcByDate, plus180, n).1)
    ensures RunInvariant(points, btcByDate, plus180, n + 1,
      AthRun(points, btcByDate, plus180, n + 1).0, AthRun(points, btcByDate, plus180, n + 1).1)
  {
    var st := AthRun(points, btcByDate, plus180, n).0;
    var events := AthRun(points, btcByDate, plus180, n).1;
    StateStep(points, btcByDate, plus180, n, st);
    var step := AthStep(st, n, points[n], btcByDate, plus180);
    var st', row := step.0, step.1;
    if row.Some? {
      var events' := events + [Event(n, row.value)];
      assert AthRun(points, btcByDate, plus180, n + 1) == (st', events');
      assert NewAth(points, n) && PullbackPending(points, n) && TruthyAt(btcByDate, points[n].date);
      assert row.value == AthRowAt(points[n], btcByDate, plus180) && st'.lastTrigger == Some(n);
      assert events'[|events'| - 1].index == n;
      JustifiedAppend(points, btcByDate, plus180, events, n);
      SpacedAppend(events, Event(n, row.value));
    } else {
      assert AthRun(points, btcByDate, plus180, n + 1) == (st', events);
      assert st'.lastTrigger == st.lastTrigger;
    }
  }

  lemma {:induction false} AthRunInvariant(points: seq<StablecoinPoint>, btcByDate: map<Date, real>, plus180: int -> Date, n: nat)
    requires n <= |points|
    ensures RunInvariant(points, btcByDate, plus180, n, AthRun(points, btcByDate, plus180, n).0, AthRun(points, btcByDate, plus180, n).1)
  {
    if n > 0 {
      AthRunInvariant(points, btcByDate, plus180, n - 1);
      InvariantStep(points, btcByDate, plus180, n - 1);
    }
  }

  lemma JustifiedAppend(points: seq<StablecoinPoint>, btcByDate: map<Date, real>, plus180: int -> Date,
    events: seq<Event<AthRow>>, j: nat)
    requires j < |points| && NewAth(points, j) && PullbackPending(points, j) && TruthyAt(btcByDate, points[j].date)
    requires Justified(points, btcByDate, plus180, events)
    ensures Justified(points, btcByDate, plus180, events + [Event(j, AthRowAt(points[j], btcByDate, plus180))])
  {
    var events' := events + [Event(j, AthRowAt(points[j], btcByDate, plus180))];
    forall k | 0 <= k < |events'| ensures
      var i := events'[k].index;
      && i < |points| && NewAth(points, i) && PullbackPending(points, i) && TruthyAt(btcByDate, points[i].date)
      && events'[k].row == AthRowAt(points[i], btcByDate, plus180)
    {
      if k < |events| { assert events'[k] == events[k]; }
    }
  }

  lemma SpacedAppend(events: seq<Event<AthRow>>, e: Event<AthRow>)
    requires Spaced(events, BacktestCooldown)
    requires |events| > 0 ==> events[|events| - 1].index < e.index && e.index - events[|events| - 1].index >= BacktestCooldown
    ensures Spaced(events + [e], BacktestCooldown)
  {
    var events' := events + [e];
    forall k, l | 0 <= k < l < |events'|
      ensures events'[k].index < events'[l].index && events'[l].index - events'[k].index >= BacktestCooldown
    {
      assert events'[k] == events[k];
      if l < |events| {
        assert events'[l] == events[l];
      } else if k < |events| - 1 {
        assert events[k].index < events[|events| - 1].index;
      }
    }
  }

  /**
   * Completeness: a strict new high after a pending pullback, on a date BTC
   * has a close, at least 90 points after every earlier row, is emitted.
   */
  lemma AthEmitted(points: seq<StablecoinPoint>, btcByDate: map<Date, real>, plus180: int -> Date, j: nat)
    requires j < |points|
    requires NewAth(points, j) && PullbackPending(points, j) && TruthyAt(btcByDate, points[j].date)
    requires var events := AthRun(points, btcByDate, plus180, j).1;
      forall k :: 0 <= k < |events| ==> j - events[k].index >= BacktestCooldown
    ensures AthRun(points, btcByDate, plus180, j + 1).1
      == AthRun(points, btcByDate, plus180, j).1 + [Event(j, AthRowAt(points[j], btcByDate, plus180))]
  {
    AthRunInvariant(points, btcByDate, plus180, j);
  }

  /** The rows of the whole run are justified and at least 90 points apart. */
  lemma AthRows(points: seq<StablecoinPoint>, btcByDate: map<Date, real>, plus180: int -> Date)
    ensures var events := AthRun(points, btcByDate, plus180, |points|).1;
      Justified(points, btcByDate, plus180, events) && Spaced(events, BacktestCooldown)
  {
    AthRunInvariant(points, btcByDate, plus180, |points|);
  }

  // ---------------------------------------------------------------------------

  datatype SupplyOutcome = SupplyOutcome(
    currentSupply: Option<real>, currentRoc: Option<real>, signal: Signal, backtest: seq<AthRow>)

  function Supplies(points: seq<StablecoinPoint>): (s: seq<real>)
    ensures |s| == |points|
    ensures forall i :: 0 <= i < |points| ==> s[i] == points[i].supply
  {
    seq(|points|, i requires 0 <= i < |points| => points[i].supply)
  }

  /** The indicator over the merged supply series (the fetch is a parameter). */
  method Calculate(points: seq<StablecoinPoint>, btcPrices: seq<DailyPrice>, plus180: int -> Date)
    returns (result: SupplyOutcome)
    ensures |points| == 0 ==> result.currentSupply.None? && result.signal == Neutral
    ensures |points| > 0 ==>
      result.currentSupply == Some(points[|points| - 1].supply)
      && result.currentRoc == RocAt(Supplies(points), MomentumPeriod, |points| - 1)
    ensures result.signal == RocSignal(result.currentRoc)
    ensures result.backtest == Rows(AthRun(points, CloseByDate(btcPrices), plus180, |points|).1)
  {
    var supplies := Supplies(points);
    var roc := ComputeRateOfChange(supplies, MomentumPeriod);
    var currentSupply := if |points| == 0 then None else Some(supplies[|supplies| - 1]);
    var currentRoc := if |points| == 0 then None else roc[|roc| - 1];
    var rows := BuildNewAthBacktest(points, btcPrices, plus180);
    result := SupplyOutcome(currentSupply, currentRoc, RocSignal(currentRoc), rows);
  }
}
