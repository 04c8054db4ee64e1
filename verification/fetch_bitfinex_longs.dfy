/**
 * Bitfinex margin-long history: the request windows walked back from now
 * in hourly-resolution spans, then the hourly points reduced to the first
 * point seen per date, sorted by timestamp. The requests are left out; a
 * response body is a parameter, `None` where it is not a JSON array, and
 * each of its entries is the `[timestamp in ms, longs]` pair.
 */
module BitfinexFetch {
  import opened Common
  import opened Sorting
  import opened Tables

  const MsPerDay := 86400 * 1000
  const PointsPerChunk := 10000
  /** Ten thousand hourly points, about 417 days. */
  const ChunkSpanMs := PointsPerChunk * 3600 * 1000

  datatype Range = Range(start: int, end: int)

  function Max(a: int, b: int): int { if a >= b then a else b }

  /** The windows from `cursor` back to `startMs`: each as long as the span allows, the next ending 1 ms earlier. */
  function ChunksFrom(cursor: int, startMs: int): seq<Range>
    decreases cursor - startMs
  {
    if cursor <= startMs then []
    else
      var chunkStart := Max(cursor - ChunkSpanMs, startMs);
      [Range(chunkStart, cursor)] + ChunksFrom(chunkStart - 1, startMs)
  }

  /** The `while (cursor > startMs)` loop. */
  method ChunkRanges(now: int, days: int) returns (chunks: seq<Range>)
    ensures chunks == ChunksFrom(now, now - days * MsPerDay)
  {
    var startMs := now - days * MsPerDay;
    chunks := [];
    var cursor := now;
    while cursor > startMs
      invariant chunks + ChunksFrom(cursor, startMs) == ChunksFrom(now, startMs)
      decreases cursor - startMs
    {
      var chunkStart := Max(cursor - ChunkSpanMs, startMs);
      chunks := chunks + [Range(chunkStart, cursor)];
      cursor := chunkStart - 1;
    }
  }

  /**
   * There are windows iff `cursor > startMs`; the first ends at `cursor`;
   * every window lies in `[startMs, cursor]` and spans at most the chunk
   * span; each next window ends 1 ms before the previous one starts.
   */
  lemma {:induction false} ChunksFacts(cursor: int, startMs: int)
    ensures var c := ChunksFrom(cursor, startMs);
      && (|c| > 0 <==> cursor > startMs)
      && (|c| > 0 ==> c[0].end == cursor)
      && (forall k :: 0 <= k < |c| ==>
            startMs <= c[k].start <= c[k].end <= cursor && c[k].end - c[k].start <= ChunkSpanMs)
      && (forall k :: 0 <= k < |c| - 1 ==> c[k + 1].end == c[k].start - 1)
    decreases cursor - startMs
  {
    if cursor > startMs {
      var chunkStart := Max(cursor - ChunkSpanMs, startMs);
      ChunksFacts(chunkStart - 1, startMs);
      var rest := ChunksFrom(chunkStart - 1, startMs);
      var c := ChunksFrom(cursor, startMs);
      assert c == [Range(chunkStart, cursor)] + rest;
      forall k | 0 <= k < |c| - 1 ensures c[k + 1].end == c[k].start - 1 {
        if k > 0 { assert c[k] == rest[k - 1] && c[k + 1] == rest[k]; }
      }
    }
  }

  predicate Covered(c: seq<Range>, t: int)
  {
    exists k :: 0 <= k < |c| && c[k].start <= t <= c[k].end
  }

  /** Every millisecond after `startMs` up to `cursor` lies in some window. */
  lemma {:induction false} ChunksCover(cursor: int, startMs: int, t: int)
    requires startMs < t <= cursor
    ensures Covered(ChunksFrom(cursor, startMs), t)
    decreases cursor - startMs
  {
    var chunkStart := Max(cursor - ChunkSpanMs, startMs);
    var rest := ChunksFrom(chunkStart - 1, startMs);
    var c := ChunksFrom(cursor, startMs);
    assert c == [Range(chunkStart, cursor)] + rest;
    if t >= chunkStart {
      assert c[0].start <= t <= c[0].end;
    } else {
      ChunksCover(chunkStart - 1, startMs, t);
      var k :| 0 <= k < |rest| && rest[k].start <= t <= rest[k].end;
      assert c[k + 1] == rest[k];
      assert 0 <= k + 1 < |c| && c[k + 1].start <= t <= c[k + 1].end;
    }
  }

  datatype LongsPoint = LongsPoint(timestamp: int, date: Date, longs: real)

  /** An hourly entry: the date of its millisecond timestamp, the timestamp in whole seconds. */
  function PointOf(entry: (int, real), dateOfMs: int -> Date): (p: LongsPoint)
    ensures p.timestamp * 1000 <= entry.0 < (p.timestamp + 1) * 1000
    ensures p.date == dateOfMs(entry.0) && p.longs == entry.1
  {
    LongsPoint(entry.0 / 1000, dateOfMs(entry.0), entry.1)
  }

  function Points(data: seq<(int, real)>, dateOfMs: int -> Date): (ps: seq<LongsPoint>)
    ensures |ps| == |data|
    ensures forall k :: 0 <= k < |data| ==> ps[k] == PointOf(data[k], dateOfMs)
  {
    seq(|data|, k requires 0 <= k < |data| => PointOf(data[k], dateOfMs))
  }

  /** Every entry of every array body, in response order. */
  function AllPoints(responses: seq<Option<seq<(int, real)>>>, dateOfMs: int -> Date): seq<LongsPoint>
  {
    if |responses| == 0 then []
    else
      var body := responses[|responses| - 1];
      AllPoints(responses[..|responses| - 1], dateOfMs) + if body.None? then [] else Points(body.value, dateOfMs)
  }

  function DateOf(p: LongsPoint): Date { p.date }

  function TimestampOf(p: LongsPoint): real { p.timestamp as real }

  function DailySpec(responses: seq<Option<seq<(int, real)>>>, dateOfMs: int -> Date): seq<LongsPoint>
  {
    SortBy(FirstPerKey(AllPoints(responses, dateOfMs), DateOf), TimestampOf)
  }

  /** The state of the `dailyMap` loop after the points `seen`: its keys in insertion order, and the map. */
  ghost predicate DailyState(seen: seq<LongsPoint>, keys: seq<Date>, dailyMap: map<Date, LongsPoint>)
  {
    && keys == FirstAppearance(KeysOf(seen, DateOf))
    && dailyMap == FirstWins(seen, DateOf)
    && forall d :: d in dailyMap <==> d in keys
  }

  lemma DailyStep(seen: seq<LongsPoint>, keys: seq<Date>, dailyMap: map<Date, LongsPoint>, p: LongsPoint)
    requires DailyState(seen, keys, dailyMap)
    ensures p.date !in dailyMap ==> DailyState(seen + [p], keys + [p.date], dailyMap[p.date := p])
    ensures p.date in dailyMap ==> DailyState(seen + [p], keys, dailyMap)
  {
    FirstWinsAppend(seen, p, DateOf);
    FirstAppearanceSnoc(KeysOf(seen, DateOf), p.date);
  }

  lemma DailyKeysPresent(seen: seq<LongsPoint>, keys: seq<Date>, dailyMap: map<Date, LongsPoint>)
    requires DailyState(seen, keys, dailyMap)
    ensures forall k :: 0 <= k < |keys| ==> keys[k] in dailyMap
  {
    forall k | 0 <= k < |keys| ensures keys[k] in dailyMap {
      assert keys[k] in keys;
    }
  }

  /** The inner loop: one response body's entries into `dailyMap`, first point per date kept. */
  method AddEntries(data: seq<(int, real)>, dateOfMs: int -> Date, keys0: seq<Date>, map0: map<Date, LongsPoint>,
                    ghost seen0: seq<LongsPoint>)
    returns (keys: seq<Date>, dailyMap: map<Date, LongsPoint>, ghost seen: seq<LongsPoint>)
    requires DailyState(seen0, keys0, map0)
    ensures seen == seen0 + Points(data, dateOfMs)
    ensures DailyState(seen, keys, dailyMap)
  {
    keys, dailyMap, seen := keys0, map0, seen0;
    var j := 0;
    while j < |data|
      invariant 0 <= j <= |data|
      invariant seen == seen0 + Points(data[..j], dateOfMs)
      invariant DailyState(seen, keys, dailyMap)
    {
      var p := PointOf(data[j], dateOfMs);
      assert Points(data[..j + 1], dateOfMs) == Points(data[..j], dateOfMs) + [p];
      DailyStep(seen, keys, dailyMap, p);
      if p.date !in dailyMap {
        keys := keys + [p.date];
        dailyMap := dailyMap[p.date := p];
      }
      seen := seen + [p];
      j := j + 1;
    }
    assert data[..|data|] == data;
  }

  /** The loop over the responses filling `dailyMap`, then the sort of its values. */
  method DailyLongs(responses: seq<Option<seq<(int, real)>>>, dateOfMs: int -> Date) returns (out: seq<LongsPoint>)
    ensures out == DailySpec(responses, dateOfMs)
  {
    var keys: seq<Date> := [];
    var dailyMap: map<Date, LongsPoint> := map[];
    ghost var seen: seq<LongsPoint> := [];
    var i := 0;
    while i < |responses|
      invariant 0 <= i <= |responses|
      invariant seen == AllPoints(responses[..i], dateOfMs)
      invariant DailyState(seen, keys, dailyMap)
    {
      assert responses[..i + 1][..i] == responses[..i];
      var body := responses[i];
      if body.Some? {
        keys, dailyMap, seen := AddEntries(body.value, dateOfMs, keys, dailyMap, seen);
      }
      i := i + 1;
    }
    assert responses[..|responses|] == responses;
    DailyKeysPresent(seen, keys, dailyMap);
    var values := seq(|keys|, k requires 0 <= k < |keys| => dailyMap[keys[k]]);
    assert values == FirstPerKey(seen, DateOf);
    out := SortBy(values, TimestampOf);
  }

  /**
   * The daily series is sorted by timestamp, has one point per date, has a
   * date iff some entry has it, and keeps the first entry of each date.
   */
  lemma DailyFacts(responses: seq<Option<seq<(int, real)>>>, dateOfMs: int -> Date)
    ensures var all := AllPoints(responses, dateOfMs);
      var out := DailySpec(responses, dateOfMs);
      && SortedBy(out, TimestampOf)
      && DistinctKeys(out, DateOf)
      && (forall d :: HasKey(out, DateOf, d) <==> HasKey(all, DateOf, d))
      && (forall k :: 0 <= k < |out| ==> exists i: nat :: IsFirstOfKey(all, DateOf, i, out[k].date) && out[k] == all[i])
  {
    var all := AllPoints(responses, dateOfMs);
    var values := FirstPerKey(all, DateOf);
    var out := DailySpec(responses, dateOfMs);
    FirstPerKeyFacts(all, DateOf);
    SortKeepsKeys(values, DateOf, TimestampOf);
    forall k | 0 <= k < |out|
      ensures exists i: nat :: IsFirstOfKey(all, DateOf, i, out[k].date) && out[k] == all[i]
    {
      assert out[k] in values;
      var j :| 0 <= j < |values| && values[j] == out[k];
      assert out[k].date == DateOf(values[j]);
    }
  }
}
