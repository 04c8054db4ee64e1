/**
 * Daily BTC candles from Binance (one request) and Coinbase (300-day
 * chunks, merged, deduplicated by date, sorted by timestamp). The HTTP
 * requests are left out: a response body is a parameter, `None` where it
 * is not a JSON array. A candle is `None` where it is not an array and
 * otherwise holds its numeric fields (Binance's string close already parsed).
 */
module ExchangeFetch {
  import opened Common
  import opened Sorting
  import opened Tables

  datatype ExchangePrice = ExchangePrice(timestamp: int, date: Date, close: real)

  type Candle = Option<seq<real>>

  const CoinbaseChunkDays := 300

  /** The filter both exchanges apply: an array of at least five fields. */
  predicate UsableCandle(c: Candle)
  {
    c.Some? && |c.value| >= 5
  }

  /** A Binance kline: open time in milliseconds (field 0), close (field 4). */
  function FromKline(k: seq<real>, dateOf: int -> Date): (p: ExchangePrice)
    requires |k| >= 5
    ensures p.timestamp as real * 1000.0 <= k[0] < (p.timestamp + 1) as real * 1000.0
    ensures p.date == dateOf(p.timestamp) && p.close == k[4]
  {
    var ts := (k[0] / 1000.0).Floor;
    ExchangePrice(ts, dateOf(ts), k[4])
  }

  /** `data.filter(usable).map(FromKline)`; a body that is not an array gives no prices. */
  function BinancePrices(data: Option<seq<Candle>>, dateOf: int -> Date): (r: seq<ExchangePrice>)
  {
    if data.None? then [] else BinanceRows(data.value, dateOf)
  }

  function BinanceRows(data: seq<Candle>, dateOf: int -> Date): (r: seq<ExchangePrice>)
    ensures |r| <= |data|
  {
    if |data| == 0 then []
    else
      var init := BinanceRows(data[..|data| - 1], dateOf);
      var c := data[|data| - 1];
      if UsableCandle(c) then init + [FromKline(c.value, dateOf)] else init
  }

  /** Every usable kline gives a price, and every price comes from a usable kline. */
  lemma {:induction false} BinanceRowsFaithful(data: seq<Candle>, dateOf: int -> Date)
    ensures forall k :: 0 <= k < |data| && UsableCandle(data[k]) ==>
      FromKline(data[k].value, dateOf) in BinanceRows(data, dateOf)
    ensures forall p :: p in BinanceRows(data, dateOf) ==>
      exists k :: 0 <= k < |data| && UsableCandle(data[k]) && p == FromKline(data[k].value, dateOf)
  {
    if |data| > 0 {
      var n := |data|;
      var init := data[..n - 1];
      BinanceRowsFaithful(init, dateOf);
      forall k | 0 <= k < n - 1 ensures data[k] == init[k] { }
      forall p | p in BinanceRows(data, dateOf)
        ensures exists k :: 0 <= k < n && UsableCandle(data[k]) && p == FromKline(data[k].value, dateOf)
      {
        if p !in BinanceRows(init, dateOf) {
          assert UsableCandle(data[n - 1]) && p == FromKline(data[n - 1].value, dateOf);
        } else {
          var k :| 0 <= k < n - 1 && UsableCandle(init[k]) && p == FromKline(init[k].value, dateOf);
          assert data[k] == init[k];
        }
      }
    }
  }

  // Coinbase.

  /** One request window, in days before now: from `start` days ago to `end` days ago. */
  datatype Chunk = Chunk(end: int, start: int)

  /** How many windows the offset loop makes: ceil(days / 300), none for a non-positive span. */
  function ChunkCount(days: int): (c: nat)
    ensures days > 0 ==> CoinbaseChunkDays * (c - 1) < days <= CoinbaseChunkDays * c
    ensures days <= 0 ==> c == 0
  {
    if days <= 0 then 0 else (days + CoinbaseChunkDays - 1) / CoinbaseChunkDays
  }

  /** `for (offset = 0; offset < days; offset += 300)`: windows ending `offset` days ago. */
  method ChunkRanges(days: int) returns (chunks: seq<Chunk>)
    ensures |chunks| == ChunkCount(days)
    ensures forall k :: 0 <= k < |chunks| ==>
      chunks[k] == Chunk(k * CoinbaseChunkDays, k * CoinbaseChunkDays + CoinbaseChunkDays)
  {
    chunks := [];
    var offset := 0;
    while offset < days
      invariant offset == |chunks| * CoinbaseChunkDays
      invariant days > 0 ==> offset <= CoinbaseChunkDays * ChunkCount(days)
      invariant days <= 0 ==> offset == 0
      invariant forall k :: 0 <= k < |chunks| ==>
        chunks[k] == Chunk(k * CoinbaseChunkDays, k * CoinbaseChunkDays + CoinbaseChunkDays)
      decreases days - offset
    {
      chunks := chunks + [Chunk(offset, offset + CoinbaseChunkDays)];
      offset := offset + CoinbaseChunkDays;
    }
  }

  /** The windows cover every day of the span: day `d` lies in window `d / 300`. */
  lemma ChunksCover(days: int, d: int)
    requires 0 <= d < days
    ensures var k := d / CoinbaseChunkDays;
      k < ChunkCount(days) && k * CoinbaseChunkDays <= d < k * CoinbaseChunkDays + CoinbaseChunkDays
  {
  }

  /** A Coinbase candle: `[time, low, high, open, close, volume]`, time in seconds. */
  function FromCandle(c: seq<real>, dateOf: int -> Date): (p: ExchangePrice)
    requires |c| >= 5
    ensures p.close == c[4] && p.date == dateOf(p.timestamp)
    ensures p.timestamp as real <= c[0] < p.timestamp as real + 1.0
    ensures c[0] == c[0].Floor as real ==> p.timestamp as real == c[0]
  {
    ExchangePrice(c[0].Floor, dateOf(c[0].Floor), c[4])
  }

  function CandleRows(data: seq<Candle>, dateOf: int -> Date): (r: seq<ExchangePrice>)
    ensures |r| <= |data|
  {
    if |data| == 0 then []
    else
      var init := CandleRows(data[..|data| - 1], dateOf);
      var c := data[|data| - 1];
      if UsableCandle(c) then init + [FromCandle(c.value, dateOf)] else init
  }

  /** Every usable candle of every array body, in response order. */
  function ResponseRows(responses: seq<Option<seq<Candle>>>, dateOf: int -> Date): seq<ExchangePrice>
  {
    if |responses| == 0 then []
    else
      var init := ResponseRows(responses[..|responses| - 1], dateOf);
      var body := responses[|responses| - 1];
      if body.None? then init else init + CandleRows(body.value, dateOf)
  }

  /** The nested loop pushing each usable candle of each array response. */
  method CollectCandles(responses: seq<Option<seq<Candle>>>, dateOf: int -> Date) returns (results: seq<ExchangePrice>)
    ensures results == ResponseRows(responses, dateOf)
  {
    results := [];
    var i := 0;
    while i < |responses|
      invariant 0 <= i <= |responses|
      invariant results == ResponseRows(responses[..i], dateOf)
    {
      assert responses[..i + 1][..i] == responses[..i];
      var body := responses[i];
      if body.Some? {
        var data := body.value;
        var j := 0;
        ghost var before := results;
        while j < |data|
          invariant 0 <= j <= |data|
          invariant results == before + CandleRows(data[..j], dateOf)
        {
          assert data[..j + 1][..j] == data[..j];
          var c := data[j];
          if UsableCandle(c) {
            results := results + [FromCandle(c.value, dateOf)];
          }
          j := j + 1;
        }
        assert data[..|data|] == data;
      }
      i := i + 1;
    }
    assert responses[..|responses|] == responses;
  }

  function DateOf(p: ExchangePrice): Date { p.date }

  function TimestampOf(p: ExchangePrice): real { p.timestamp as real }

  /** The specification of the Coinbase result: the last candle per date, sorted by timestamp. */
  function CoinbaseSpec(responses: seq<Option<seq<Candle>>>, dateOf: int -> Date): seq<ExchangePrice>
  {
    SortBy(LastPerKey(ResponseRows(responses, dateOf), DateOf), TimestampOf)
  }

  method CoinbasePrices(responses: seq<Option<seq<Candle>>>, dateOf: int -> Date) returns (out: seq<ExchangePrice>)
    ensures out == CoinbaseSpec(responses, dateOf)
  {
    var results := CollectCandles(responses, dateOf);
    var values := DedupeLast(results, DateOf);
    out := SortBy(values, TimestampOf);
  }

  /**
   * The Coinbase series is sorted, has one price per date, has a date iff
   * some usable candle has it, and keeps the last candle of each date.
   */
  lemma CoinbaseFacts(responses: seq<Option<seq<Candle>>>, dateOf: int -> Date)
    ensures var rows := ResponseRows(responses, dateOf);
      var out := CoinbaseSpec(responses, dateOf);
      && SortedBy(out, TimestampOf)
      && DistinctKeys(out, DateOf)
      && (forall d :: HasKey(out, DateOf, d) <==> HasKey(rows, DateOf, d))
      && (forall k :: 0 <= k < |out| ==> exists i: nat :: IsLastOfKey(rows, DateOf, i, out[k].date) && out[k] == rows[i])
  {
    var rows := ResponseRows(responses, dateOf);
    var values := LastPerKey(rows, DateOf);
    var out := CoinbaseSpec(responses, dateOf);
    LastPerKeyFacts(rows, DateOf);
    SortKeepsKeys(values, DateOf, TimestampOf);
    forall k | 0 <= k < |out|
      ensures exists i: nat :: IsLastOfKey(rows, DateOf, i, out[k].date) && out[k] == rows[i]
    {
      assert out[k] in values;
      var j :| 0 <= j < |values| && values[j] == out[k];
      assert out[k].date == DateOf(values[j]);
    }
  }
}
