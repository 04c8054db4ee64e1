/**
 * Deribit options: the put/call ratio's contrarian signal (a failed summary
 * request reads as all zeros), the open-interest label's unit, and a
 * backtest of every DVOL jump of at least 5 points over 7 points, 21 points
 * apart, with the BTC return to the calendar date 30 days later.
 */
module DeribitOptions {
  import opened Common
  import opened Engine
  import opened DeribitFetch

  const FearThreshold := 0.7
  const GreedThreshold := 0.4
  const DvolWeeklyJump := 5.0
  const DvolCooldown := 21
  const JumpLookback := 7

  /** The summary the indicator reads: the fetched one, or all zeros when the request was rejected. */
  function Opts(summary: Option<Summary>): (s: Summary)
    ensures summary.Some? ==> s == summary.value
    ensures summary.None? ==> s == EmptySummary
  {
    summary.GetOr(EmptySummary)
  }

  function PcrSignal(pcr: real): (s: Signal)
    ensures s == Buy <==> pcr >= FearThreshold
    ensures s == Sell <==> pcr <= GreedThreshold
  {
    if pcr >= FearThreshold then Buy
    else if pcr <= GreedThreshold then Sell
    else Neutral
  }

  /** A rejected summary request reads a ratio of 0, which is the greed (sell) reading. */
  lemma RejectedSummaryIsSell()
    ensures PcrSignal(Opts(None).putCallRatio) == Sell
  {
  }

  /** The unit the open interest is shown in. */
  datatype OiUnit = Millions | Thousands | Units

  function OiLabelUnit(totalOi: real): (u: OiUnit)
    ensures u == Millions <==> totalOi >= 1000000.0
    ensures u == Thousands <==> 1000.0 <= totalOi < 1000000.0
    ensures u == Units <==> totalOi < 1000.0
  {
    if totalOi >= 1000000.0 then Millions
    else if totalOi >= 1000.0 then Thousands
    else Units
  }

  datatype VolJumpRow = VolJumpRow(date: Date, iv: real, change: real, btcPrice: real, ret: Option<real>)

  /** The row at index `i` (from 7 on), if DVOL rose by at least 5 points over 7 points and BTC has a close. */
  function JumpTrigger(dvol: seq<DvolPoint>, btc: map<Date, real>, plus30: Date -> Date): nat -> Option<VolJumpRow>
  {
    (i: nat) =>
      if i < JumpLookback || i >= |dvol| then None
      else
        var change := dvol[i].iv - dvol[i - JumpLookback].iv;
        if change < DvolWeeklyJump || !TruthyAt(btc, dvol[i].date) then None
        else
          var p := btc[dvol[i].date];
          Some(VolJumpRow(dvol[i].date, dvol[i].iv, change, p, DateReturn(btc, p, plus30(dvol[i].date))))
  }

  /**
   * `buildVolJump`: the cooldown loop from index 7. Indices before 7 never
   * fire and the cooldown only moves on a firing, so it is the scan from 0.
   */
  method VolJump(dvol: seq<DvolPoint>, btc: map<Date, real>, plus30: Date -> Date) returns (rows: seq<VolJumpRow>)
    ensures rows == Rows(ScanSpec(JumpTrigger(dvol, btc, plus30), DvolCooldown, |dvol|))
  {
    var events := Scan(JumpTrigger(dvol, btc, plus30), DvolCooldown, |dvol|);
    rows := Rows(events);
  }

  /**
   * Every fired index is at least 7, DVOL rose there by at least 5 points
   * over the 7 before, BTC has a non-zero close that day, and fired indices
   * are at least 21 apart.
   */
  lemma JumpRows(dvol: seq<DvolPoint>, btc: map<Date, real>, plus30: Date -> Date)
    ensures var e := ScanSpec(JumpTrigger(dvol, btc, plus30), DvolCooldown, |dvol|);
      && (forall k :: 0 <= k < |e| ==>
            var i := e[k].index;
            && JumpLookback <= i < |dvol|
            && e[k].row.change == dvol[i].iv - dvol[i - JumpLookback].iv >= DvolWeeklyJump
            && TruthyAt(btc, dvol[i].date) && e[k].row.btcPrice == btc[dvol[i].date]
            && e[k].row.ret == DateReturn(btc, e[k].row.btcPrice, plus30(dvol[i].date)))
      && (forall k, l :: 0 <= k < l < |e| ==> e[l].index - e[k].index >= DvolCooldown)
  {
    ScanSpaced(JumpTrigger(dvol, btc, plus30), DvolCooldown, |dvol|);
  }

  /** The first qualifying jump always fires. */
  lemma FirstJumpFires(dvol: seq<DvolPoint>, btc: map<Date, real>, plus30: Date -> Date, j: nat)
    requires JumpLookback <= j < |dvol|
    requires dvol[j].iv - dvol[j - JumpLookback].iv >= DvolWeeklyJump && TruthyAt(btc, dvol[j].date)
    requires forall i :: 0 <= i < j ==> JumpTrigger(dvol, btc, plus30)(i).None?
    ensures j in Indices(ScanSpec(JumpTrigger(dvol, btc, plus30), DvolCooldown, |dvol|))
  {
    ScanFirstTriggerFires(JumpTrigger(dvol, btc, plus30), DvolCooldown, |dvol|, j);
  }

  datatype OptionsOutcome = OptionsOutcome(pcr: real, signal: Signal, oiUnit: OiUnit, rows: seq<VolJumpRow>)

  /** The indicator; `dvol` is empty when its request was rejected. */
  method Calculate(summary: Option<Summary>, dvol: seq<DvolPoint>, prices: seq<DailyPrice>, plus30: Date -> Date)
    returns (out: OptionsOutcome)
    ensures out.pcr == Opts(summary).putCallRatio
    ensures out.signal == PcrSignal(out.pcr)
    ensures out.oiUnit == OiLabelUnit(Opts(summary).totalOpenInterest)
    ensures out.rows == Rows(ScanSpec(JumpTrigger(dvol, CloseByDate(prices), plus30), DvolCooldown, |dvol|))
  {
    var opts := Opts(summary);
    var rows := VolJump(dvol, CloseByDate(prices), plus30);
    out := OptionsOutcome(opts.putCallRatio, PcrSignal(opts.putCallRatio), OiLabelUnit(opts.totalOpenInterest), rows);
  }
}
