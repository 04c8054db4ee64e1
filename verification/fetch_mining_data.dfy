/**
 * The mining-cost estimate: each hash-rate sample converted to a cost per
 * mined BTC under fixed assumptions (25 J/TH, $0.05/kWh, 450 BTC a day),
 * joined with the difficulty sample of the same date. The chart requests
 * are left out; their samples are parameters.
 */
module MiningFetch {
  import opened Common

  const JoulesPerTh := 25.0
  const ElectricityRate := 0.05
  const DailyBtcMined := 450.0

  /** One chart sample: Unix seconds, its date, and the charted value. */
  datatype ChartPoint = ChartPoint(timestamp: int, date: Date, value: real)

  datatype MiningPoint = MiningPoint(timestamp: int, date: Date, hashrate: real, difficulty: real, estimatedCost: real)

  /** Network watts, a day's kWh, their cost, spread over a day's coins: one dollar per 15000 TH/s. */
  function CostPerBtc(hashrateTh: real): (c: real)
    ensures c * 15000.0 == hashrateTh
    ensures hashrateTh >= 0.0 ==> c >= 0.0
  {
    var networkWatts := hashrateTh * JoulesPerTh;
    var dailyKwh := networkWatts * 24.0 / 1000.0;
    var dailyCost := dailyKwh * ElectricityRate;
    dailyCost / DailyBtcMined
  }

  /** The cost is linear in the hash rate. */
  lemma CostLinear(a: real, b: real, k: real)
    ensures CostPerBtc(k * a + b) == k * CostPerBtc(a) + CostPerBtc(b)
  {
    var ca, cb := CostPerBtc(a), CostPerBtc(b);
    assert (k * ca + cb) * 15000.0 == k * (ca * 15000.0) + cb * 15000.0;
  }

  /** `new Map(diffData.map(d => [d.date, d.value]))`. */
  function DifficultyByDate(diffData: seq<ChartPoint>): map<Date, real>
  {
    LastWins(seq(|diffData|, k requires 0 <= k < |diffData| => (diffData[k].date, diffData[k].value)))
  }

  /** `diffByDate.get(date) ?? 0`. */
  function DifficultyOn(diffByDate: map<Date, real>, date: Date): real
  {
    if date in diffByDate then diffByDate[date] else 0.0
  }

  /** One point per hash-rate sample, in order, with its timestamp, date and rate copied. */
  function MiningCost(hashData: seq<ChartPoint>, diffData: seq<ChartPoint>): (r: seq<MiningPoint>)
    ensures |r| == |hashData|
    ensures forall k :: 0 <= k < |r| ==>
      && r[k].timestamp == hashData[k].timestamp && r[k].date == hashData[k].date
      && r[k].hashrate == hashData[k].value
      && r[k].estimatedCost == CostPerBtc(hashData[k].value)
      && r[k].difficulty == DifficultyOn(DifficultyByDate(diffData), hashData[k].date)
  {
    var diffByDate := DifficultyByDate(diffData);
    seq(|hashData|, k requires 0 <= k < |hashData| =>
      var h := hashData[k];
      MiningPoint(h.timestamp, h.date, h.value, DifficultyOn(diffByDate, h.date), CostPerBtc(h.value)))
  }

  /** Sample `k` is the last one dated `date`. */
  predicate LastSampleOf(diffData: seq<ChartPoint>, k: nat, date: Date)
  {
    k < |diffData| && diffData[k].date == date && forall j :: k < j < |diffData| ==> diffData[j].date != date
  }

  /** The difficulty of a date no sample has is 0. */
  lemma DifficultyMissing(diffData: seq<ChartPoint>, date: Date)
    requires forall k :: 0 <= k < |diffData| ==> diffData[k].date != date
    ensures DifficultyOn(DifficultyByDate(diffData), date) == 0.0
  {
    var pairs := seq(|diffData|, k requires 0 <= k < |diffData| => (diffData[k].date, diffData[k].value));
    LastWinsLookup(pairs, date);
  }

  /** The difficulty of a date is the value of the last sample that has it. */
  lemma DifficultyOfLastSample(diffData: seq<ChartPoint>, k: nat, date: Date)
    requires LastSampleOf(diffData, k, date)
    ensures DifficultyOn(DifficultyByDate(diffData), date) == diffData[k].value
  {
    var pairs := seq(|diffData|, k requires 0 <= k < |diffData| => (diffData[k].date, diffData[k].value));
    LastWinsLookup(pairs, date);
    assert pairs[k].0 == date;
    var i :| 0 <= i < |pairs| && pairs[i].0 == date && pairs[i].1 == LastWins(pairs)[date]
      && forall j :: i < j < |pairs| ==> pairs[j].0 != date;
    assert diffData[i].date == date;
    assert i == k;
  }

  /** The cost ignores the difficulty: two joins over the same hash rates carry the same costs. */
  lemma CostIgnoresDifficulty(hashData: seq<ChartPoint>, diffA: seq<ChartPoint>, diffB: seq<ChartPoint>)
    ensures forall k :: 0 <= k < |hashData| ==>
      MiningCost(hashData, diffA)[k].estimatedCost == MiningCost(hashData, diffB)[k].estimatedCost
  {
  }
}
