/**
 * The post-fetch part of the stablecoin supply loader: mapping DefiLlama
 * chart entries to points, and merging the USDT and USDC series by date.
 */
module StablecoinFetch {
  import opened Common
  import opened Sorting

  /** One day of combined stablecoin supply; timestamps are Unix seconds. */
  datatype StablecoinPoint = StablecoinPoint(timestamp: int, date: Date, supply: real)

  /** A DefiLlama chart entry: its (already parsed) timestamp and `totalCirculatingUSD?.peggedUSD`. */
  datatype ChartEntry = ChartEntry(timestamp: int, peggedUsd: Option<real>)

  /** `dateOf` is `new Date(ts * 1000).toISOString().split("T")[0]`. */
  function ToPoint(e: ChartEntry, dateOf: int -> Date): (p: StablecoinPoint)
    ensures p.timestamp == e.timestamp && p.date == dateOf(e.timestamp)
    ensures e.peggedUsd.None? ==> p.supply == 0.0
    ensures e.peggedUsd.Some? ==> p.supply == e.peggedUsd.value
  {
    StablecoinPoint(e.timestamp, dateOf(e.timestamp), e.peggedUsd.GetOr(0.0))
  }

  // ---------------------------------------------------------------------------
  // The per-date merge: USDT sets each date (last point wins), USDC adds to
  // an existing date or inserts it, and the Map's entries are sorted by
  // timestamp.

  datatype Combined = Combined(timestamp: int, supply: real)

  function DatesOf(points: seq<StablecoinPoint>): (ds: seq<Date>)
    ensures |ds| == |points|
    ensures forall i :: 0 <= i < |points| ==> ds[i] == points[i].date
  {
    seq(|points|, i requires 0 <= i < |points| => points[i].date)
  }

  /** The USDT table: date to the last USDT point of that date. */
  function UsdtTable(usdt: seq<StablecoinPoint>): map<Date, Combined>
  {
    LastWins(UsdtPairs(usdt))
  }

  /** Total USDC supply over the first `n` USDC points dated `d`. */
  function UsdcSum(usdc: seq<StablecoinPoint>, n: nat, d: Date): real
    requires n <= |usdc|
  {
    if n == 0 then 0.0
    else UsdcSum(usdc, n - 1, d) + (if usdc[n - 1].date == d then usdc[n - 1].supply else 0.0)
  }

  /** Timestamp of the first of the first `n` USDC points dated `d`. */
  function UsdcFirstTs(usdc: seq<StablecoinPoint>, n: nat, d: Date): (r: Option<int>)
    requires n <= |usdc|
    ensures r.None? ==> UsdcSum(usdc, n, d) == 0.0
  {
    if n == 0 then None
    else
      var f := UsdcFirstTs(usdc, n - 1, d);
      if f.Some? then f else if usdc[n - 1].date == d then Some(usdc[n - 1].timestamp) else None
  }

  lemma {:induction false} UsdcFirstTsPresent(usdc: seq<StablecoinPoint>, n: nat, d: Date)
    requires n <= |usdc|
    ensures UsdcFirstTs(usdc, n, d).Some? <==> d in DatesOf(usdc[..n])
  {
    if n > 0 {
      UsdcFirstTsPresent(usdc, n - 1, d);
      assert DatesOf(usdc[..n]) == DatesOf(usdc[..n - 1]) + [usdc[n - 1].date];
    }
  }

  /**
   * The combined record of date `d` once the first `n` USDC points are in:
   * the last USDT point plus the USDC supply of that date, or, for a date
   * USDT lacks, the first USDC timestamp with the USDC supply.
   */
  function MergedAt(usdt: seq<StablecoinPoint>, usdc: seq<StablecoinPoint>, n: nat, d: Date): Option<Combined>
    requires n <= |usdc|
  {
    var table := UsdtTable(usdt);
    if d in table then Some(Combined(table[d].timestamp, table[d].supply + UsdcSum(usdc, n, d)))
    else match UsdcFirstTs(usdc, n, d)
      case None => None
      case Some(ts) => Some(Combined(ts, UsdcSum(usdc, n, d)))
  }

  /** The Map's entries before sorting, in insertion order. */
  function MergedEntries(usdt: seq<StablecoinPoint>, usdc: seq<StablecoinPoint>): seq<StablecoinPoint>
  {
    var keys := FirstAppearance(DatesOf(usdt) + DatesOf(usdc));
    seq(|keys|, k requires 0 <= k < |keys| =>
      var c := MergedAt(usdt, usdc, |usdc|, keys[k]).GetOr(Combined(0, 0.0));
      StablecoinPoint(c.timestamp, keys[k], c.supply))
  }

  function Timestamp(p: StablecoinPoint): real
  {
    p.timestamp as real
  }

  function UsdtPairs(usdt: seq<StablecoinPoint>): (r: seq<(Date, Combined)>)
    ensures |r| == |usdt|
    ensures forall i :: 0 <= i < |usdt| ==> r[i] == (usdt[i].date, Combined(usdt[i].timestamp, usdt[i].supply))
  {
    seq(|usdt|, i requires 0 <= i < |usdt| => (usdt[i].date, Combined(usdt[i].timestamp, usdt[i].supply)))
  }

  method InsertUsdt(usdt: seq<StablecoinPoint>) returns (keys: seq<Date>, combined: map<Date, Combined>)
    ensures keys == FirstAppearance(DatesOf(usdt))
    ensures combined == LastWins(UsdtPairs(usdt))
    ensures forall d :: d in combined <==> d in keys
  {
    keys := [];
    combined := map[];
    var i := 0;
    while i < |usdt|
      invariant 0 <= i <= |usdt|
      invariant keys == FirstAppearance(DatesOf(usdt[..i]))
      invariant combined == LastWins(UsdtPairs(usdt[..i]))
      invariant forall d :: d in combined <==> d in keys
    {
      var p := usdt[i];
      assert DatesOf(usdt[..i + 1]) == DatesOf(usdt[..i]) + [p.date];
      assert DatesOf(usdt[..i + 1])[..i] == DatesOf(usdt[..i]);
      assert UsdtPairs(usdt[..i + 1])[..i] == UsdtPairs(usdt[..i]);
      if p.date !in combined {
        keys := keys + [p.date];
      }
      combined := combined[p.date := Combined(p.timestamp, p.supply)];
      i := i + 1;
    }
    assert usdt[..|usdt|] == usdt;
  }

  lemma {:induction false} UsdtTableKeys(usdt: seq<StablecoinPoint>, d: Date)
    ensures d in UsdtTable(usdt) <==> d in DatesOf(usdt)
  {
    if |usdt| > 0 {
      var n := |usdt|;
      UsdtTableKeys(usdt[..n - 1], d);
      assert UsdtPairs(usdt)[..n - 1] == UsdtPairs(usdt[..n - 1]);
      assert DatesOf(usdt) == DatesOf(usdt[..n - 1]) + [usdt[n - 1].date];
    }
  }

  /** `k` is the last USDT point dated `d`. */
  predicate LastOfDate(points: seq<StablecoinPoint>, k: nat, d: Date)
  {
    k < |points| && points[k].date == d && forall j :: k < j < |points| ==> points[j].date != d
  }

  /** `k` is the first of the first `n` USDC points dated `d`. */
  predicate FirstOfDate(points: seq<StablecoinPoint>, n: nat, k: nat, d: Date)
    requires n <= |points|
  {
    k < n && points[k].date == d && forall j :: 0 <= j < k ==> points[j].date != d
  }

  /** The USDT table holds, for each date, its last USDT point. */
  lemma {:induction false} UsdtTableLast(usdt: seq<StablecoinPoint>, d: Date)
    requires d in DatesOf(usdt)
    ensures d in UsdtTable(usdt)
    ensures exists k: nat :: LastOfDate(usdt, k, d) && UsdtTable(usdt)[d] == Combined(usdt[k].timestamp, usdt[k].supply)
  {
    UsdtTableKeys(usdt, d);
    var n := |usdt|;
    var init := usdt[..n - 1];
    assert UsdtPairs(usdt)[..n - 1] == UsdtPairs(init);
    assert DatesOf(usdt) == DatesOf(init) + [usdt[n - 1].date];
    if usdt[n - 1].date != d {
      UsdtTableLast(init, d);
      var k: nat :| LastOfDate(init, k, d) && UsdtTable(init)[d] == Combined(init[k].timestamp, init[k].supply);
      assert usdt[k] == init[k];
      forall j | k < j < n ensures usdt[j].date != d {
        if j < n - 1 { assert usdt[j] == init[j]; }
      }
      assert LastOfDate(usdt, k, d);
    } else {
      assert LastOfDate(usdt, n - 1, d);
    }
  }

  /** The records after one more USDC point: add to an existing date, or create it. */
  function AddPoint(combined: map<Date, Combined>, p: StablecoinPoint): map<Date, Combined>
  {
    if p.date in combined then combined[p.date := Combined(combined[p.date].timestamp, combined[p.date].supply + p.supply)]
    else combined[p.date := Combined(p.timestamp, p.supply)]
  }

  ghost predicate HoldsMerged(usdt: seq<StablecoinPoint>, usdc: seq<StablecoinPoint>, j: nat, combined: map<Date, Combined>)
    requires j <= |usdc|
  {
    forall d :: MergedAt(usdt, usdc, j, d) == if d in combined then Some(combined[d]) else None
  }

  /** One USDC point changes only its own date's record. */
  lemma AddPointMerges(usdt: seq<StablecoinPoint>, usdc: seq<StablecoinPoint>, j: nat, combined: map<Date, Combined>)
    requires j < |usdc| && HoldsMerged(usdt, usdc, j, combined)
    ensures HoldsMerged(usdt, usdc, j + 1, AddPoint(combined, usdc[j]))
  {
    var c' := AddPoint(combined, usdc[j]);
    forall d ensures MergedAt(usdt, usdc, j + 1, d) == if d in c' then Some(c'[d]) else None {
      if d == usdc[j].date {
        assert MergedAt(usdt, usdc, j, d) == if d in combined then Some(combined[d]) else None;
      } else {
        assert MergedAt(usdt, usdc, j, d) == if d in combined then Some(combined[d]) else None;
      }
    }
  }

  ghost predicate AddUsdcInvariant(usdt: seq<StablecoinPoint>, usdc: seq<StablecoinPoint>, j: nat,
    keys: seq<Date>, combined: map<Date, Combined>)
    requires j <= |usdc|
  {
    && keys == FirstAppearance(DatesOf(usdt) + DatesOf(usdc[..j]))
    && (forall d :: d in combined <==> d in keys)
    && HoldsMerged(usdt, usdc, j, combined)
  }

  lemma AddUsdcStart(usdt: seq<StablecoinPoint>, usdc: seq<StablecoinPoint>, keys: seq<Date>, combined: map<Date, Combined>)
    requires keys == FirstAppearance(DatesOf(usdt))
    requires combined == UsdtTable(usdt)
    requires forall d :: d in combined <==> d in keys
    ensures AddUsdcInvariant(usdt, usdc, 0, keys, combined)
  {
    assert DatesOf(usdt) + DatesOf(usdc[..0]) == DatesOf(usdt);
    forall d ensures MergedAt(usdt, usdc, 0, d) == if d in combined then Some(combined[d]) else None {
      UsdtTableKeys(usdt, d);
    }
  }

  lemma AddUsdcStep(usdt: seq<StablecoinPoint>, usdc: seq<StablecoinPoint>, j: nat, keys: seq<Date>, combined: map<Date, Combined>)
    requires j < |usdc| && AddUsdcInvariant(usdt, usdc, j, keys, combined)
    ensures AddUsdcInvariant(usdt, usdc, j + 1,
      if usdc[j].date in combined then keys else keys + [usdc[j].date], AddPoint(combined, usdc[j]))
  {
    var p := usdc[j];
    assert DatesOf(usdt) + DatesOf(usdc[..j + 1]) == DatesOf(usdt) + DatesOf(usdc[..j]) + [p.date] by {
      assert DatesOf(usdc[..j + 1]) == DatesOf(usdc[..j]) + [p.date];
    }
    FirstAppearanceSnoc(DatesOf(usdt) + DatesOf(usdc[..j]), p.date);
    AddPointMerges(usdt, usdc, j, combined);
  }

  method AddUsdc(usdt: seq<StablecoinPoint>, usdc: seq<StablecoinPoint>, keys0: seq<Date>, combined0: map<Date, Combined>)
    returns (keys: seq<Date>, combined: map<Date, Combined>)
    requires keys0 == FirstAppearance(DatesOf(usdt))
    requires combined0 == UsdtTable(usdt)
    requires forall d :: d in combined0 <==> d in keys0
    ensures keys == FirstAppearance(DatesOf(usdt) + DatesOf(usdc))
    ensures forall d :: d in combined <==> d in keys
    ensures HoldsMerged(usdt, usdc, |usdc|, combined)
  {
    keys, combined := keys0, combined0;
    AddUsdcStart(usdt, usdc, keys, combined);
    var j := 0;
    while j < |usdc|
      invariant 0 <= j <= |usdc|
      invariant AddUsdcInvariant(usdt, usdc, j, keys, combined)
    {
      var p := usdc[j];
      AddUsdcStep(usdt, usdc, j, keys, combined);
      if p.date !in combined {
        keys := keys + [p.date];
      }
      combined := AddPoint(combined, p);
      j := j + 1;
    }
    assert usdc[..|usdc|] == usdc;
  }

  /** `fetchStablecoinSupply` after its two fetches. */
  method MergeSupply(usdt: seq<StablecoinPoint>, usdc: seq<StablecoinPoint>) returns (out: seq<StablecoinPoint>)
    ensures out == SortBy(MergedEntries(usdt, usdc), Timestamp)
  {
    var keys, combined := InsertUsdt(usdt);
    keys, combined := AddUsdc(usdt, usdc, keys, combined);
    forall k | 0 <= k < |keys| ensures MergedAt(usdt, usdc, |usdc|, keys[k]) == Some(combined[keys[k]]) {
      assert keys[k] in keys;
    }
    var entries := seq(|keys|, k requires 0 <= k < |keys| =>
      StablecoinPoint(combined[keys[k]].timestamp, keys[k], combined[keys[k]].supply));
    assert entries == MergedEntries(usdt, usdc);
    out := SortBy(entries, Timestamp);
  }

  // What the merged series is.

  lemma MergedAtPresent(usdt: seq<StablecoinPoint>, usdc: seq<StablecoinPoint>, d: Date)
    ensures MergedAt(usdt, usdc, |usdc|, d).Some? <==> d in DatesOf(usdt) || d in DatesOf(usdc)
  {
    UsdtTableKeys(usdt, d);
    UsdcFirstTsPresent(usdc, |usdc|, d);
    assert usdc[..|usdc|] == usdc;
  }

  /** Each entry is its date's merged record, and no date appears twice. */
  lemma EntriesFacts(usdt: seq<StablecoinPoint>, usdc: seq<StablecoinPoint>)
    ensures var entries := MergedEntries(usdt, usdc);
      && NoDuplicates(entries)
      && (forall k :: 0 <= k < |entries| ==>
            MergedAt(usdt, usdc, |usdc|, entries[k].date) == Some(Combined(entries[k].timestamp, entries[k].supply)))
      && (forall d :: d in DatesOf(usdt) || d in DatesOf(usdc) ==> exists k :: 0 <= k < |entries| && entries[k].date == d)
  {
    var entries := MergedEntries(usdt, usdc);
    var keys := FirstAppearance(DatesOf(usdt) + DatesOf(usdc));
    forall k | 0 <= k < |keys| ensures MergedAt(usdt, usdc, |usdc|, keys[k]).Some? {
      assert keys[k] in keys;
      MergedAtPresent(usdt, usdc, keys[k]);
    }
    assert forall k :: 0 <= k < |entries| ==> entries[k].date == keys[k];
    forall d | d in DatesOf(usdt) || d in DatesOf(usdc) ensures exists k :: 0 <= k < |entries| && entries[k].date == d {
      assert d in DatesOf(usdt) + DatesOf(usdc);
      var m :| 0 <= m < |keys| && keys[m] == d;
      assert entries[m].date == d;
    }
  }

  /**
   * The merged series: sorted by timestamp, a permutation of the Map's
   * entries, one record per date, a date present iff either series has it,
   * and each record the merge of its date.
   */
  lemma MergeFacts(usdt: seq<StablecoinPoint>, usdc: seq<StablecoinPoint>)
    ensures var out := SortBy(MergedEntries(usdt, usdc), Timestamp);
      && SortedBy(out, Timestamp)
      && multiset(out) == multiset(MergedEntries(usdt, usdc))
      && (forall k, l :: 0 <= k < l < |out| ==> out[k].date != out[l].date)
      && (forall d :: (exists k :: 0 <= k < |out| && out[k].date == d) <==> d in DatesOf(usdt) || d in DatesOf(usdc))
      && (forall k :: 0 <= k < |out| ==>
            MergedAt(usdt, usdc, |usdc|, out[k].date) == Some(Combined(out[k].timestamp, out[k].supply)))
  {
    var entries := MergedEntries(usdt, usdc);
    var out := SortBy(entries, Timestamp);
    SortByFacts(entries, Timestamp);
    EntriesFacts(usdt, usdc);
    PermutationNoDuplicates(entries, out);
    forall k | 0 <= k < |out|
      ensures MergedAt(usdt, usdc, |usdc|, out[k].date) == Some(Combined(out[k].timestamp, out[k].supply))
    {
      assert out[k] in multiset(entries);
    }
    forall d ensures (exists k :: 0 <= k < |out| && out[k].date == d) <==> d in DatesOf(usdt) || d in DatesOf(usdc) {
      MergedAtPresent(usdt, usdc, d);
      if d in DatesOf(usdt) || d in DatesOf(usdc) {
        var m :| 0 <= m < |entries| && entries[m].date == d;
        assert entries[m] in multiset(out);
        var k :| 0 <= k < |out| && out[k] == entries[m];
      }
    }
    forall k, l | 0 <= k < l < |out| ensures out[k].date != out[l].date {
      assert out[k] != out[l];
    }
  }

  /**
   * A date both series have: the timestamp of its last USDT point, and that
   * point's supply plus every USDC supply of the date.
   */
  lemma MergedBoth(usdt: seq<StablecoinPoint>, usdc: seq<StablecoinPoint>, d: Date)
    requires d in DatesOf(usdt)
    ensures exists k: nat ::
      LastOfDate(usdt, k, d)
      && MergedAt(usdt, usdc, |usdc|, d) == Some(Combined(usdt[k].timestamp, usdt[k].supply + UsdcSum(usdc, |usdc|, d)))
  {
    UsdtTableKeys(usdt, d);
    UsdtTableLast(usdt, d);
  }

  /** A date only USDC has: the timestamp of its first USDC point and the sum of its USDC supplies. */
  lemma {:induction false} MergedUsdcOnly(usdt: seq<StablecoinPoint>, usdc: seq<StablecoinPoint>, n: nat, d: Date)
    requires n <= |usdc|
    requires d !in DatesOf(usdt) && d in DatesOf(usdc[..n])
    ensures exists k: nat :: FirstOfDate(usdc, n, k, d) && MergedAt(usdt, usdc, n, d) == Some(Combined(usdc[k].timestamp, UsdcSum(usdc, n, d)))
  {
    UsdtTableKeys(usdt, d);
    assert DatesOf(usdc[..n]) == DatesOf(usdc[..n - 1]) + [usdc[n - 1].date];
    UsdcFirstTsPresent(usdc, n - 1, d);
    if d in DatesOf(usdc[..n - 1]) {
      MergedUsdcOnly(usdt, usdc, n - 1, d);
      var k: nat :| FirstOfDate(usdc, n - 1, k, d) && MergedAt(usdt, usdc, n - 1, d) == Some(Combined(usdc[k].timestamp, UsdcSum(usdc, n - 1, d)));
      assert FirstOfDate(usdc, n, k, d);
    } else {
      forall j | 0 <= j < n - 1 ensures usdc[j].date != d {
        assert DatesOf(usdc[..n - 1])[j] == usdc[j].date;
      }
      assert FirstOfDate(usdc, n, n - 1, d);
    }
  }
}
