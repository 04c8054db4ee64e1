/**
 * Deribit's option book summary reduced to a put/call ratio, total open
 * interest, an open-interest-weighted implied volatility and the last
 * underlying price; and the DVOL history rows mapped to daily points. The
 * requests are left out: the parsed bodies are parameters.
 */
module DeribitFetch {
  import opened Common

  /** One option's summary; `openInterest` is `None` where the field is missing (read as 0). */
  datatype BookEntry = BookEntry(instrumentName: string, openInterest: Option<real>, markIv: real, underlyingPrice: real)

  datatype Summary = Summary(putCallRatio: real, totalOpenInterest: real, aggregateIv: real, underlyingPrice: real)

  const EmptySummary := Summary(0.0, 0.0, 0.0, 0.0)

  predicate IsPut(e: BookEntry) { EndsWith(e.instrumentName, "-P") }

  predicate IsCall(e: BookEntry) { EndsWith(e.instrumentName, "-C") }

  /** `e.open_interest || 0`. */
  function Oi(e: BookEntry): real { e.openInterest.GetOr(0.0) }

  /** An entry counts towards the volatility average when both its IV and its open interest are positive. */
  predicate WeighsIv(e: BookEntry) { e.markIv > 0.0 && Oi(e) > 0.0 }

  // Reference sums over the entries, each defined on its own.

  function TotalOi(es: seq<BookEntry>): real
  {
    if |es| == 0 then 0.0 else TotalOi(es[..|es| - 1]) + Oi(es[|es| - 1])
  }

  function PutOi(es: seq<BookEntry>): real
  {
    if |es| == 0 then 0.0 else PutOi(es[..|es| - 1]) + (if IsPut(es[|es| - 1]) then Oi(es[|es| - 1]) else 0.0)
  }

  function CallOi(es: seq<BookEntry>): real
  {
    if |es| == 0 then 0.0 else CallOi(es[..|es| - 1]) + (if IsCall(es[|es| - 1]) then Oi(es[|es| - 1]) else 0.0)
  }

  function IvWeight(es: seq<BookEntry>): real
  {
    if |es| == 0 then 0.0 else IvWeight(es[..|es| - 1]) + (if WeighsIv(es[|es| - 1]) then Oi(es[|es| - 1]) else 0.0)
  }

  function IvSum(es: seq<BookEntry>): real
  {
    if |es| == 0 then 0.0
    else
      var e := es[|es| - 1];
      IvSum(es[..|es| - 1]) + (if WeighsIv(e) then e.markIv * Oi(e) else 0.0)
  }

  /** The last positive underlying price, 0 if none. */
  function LastUnderlying(es: seq<BookEntry>): real
  {
    if |es| == 0 then 0.0
    else if es[|es| - 1].underlyingPrice > 0.0 then es[|es| - 1].underlyingPrice
    else LastUnderlying(es[..|es| - 1])
  }

  function SummaryOf(es: seq<BookEntry>): Summary
  {
    Summary(
      if CallOi(es) > 0.0 then PutOi(es) / CallOi(es) else 0.0,
      TotalOi(es),
      if IvWeight(es) > 0.0 then IvSum(es) / IvWeight(es) else 0.0,
      LastUnderlying(es))
  }

  /** The accumulator loop; a body that is not an array, or an empty one, gives the all-zero summary. */
  method Summarize(entries: Option<seq<BookEntry>>) returns (s: Summary)
    ensures entries.None? || |entries.value| == 0 ==> s == EmptySummary
    ensures entries.Some? && |entries.value| > 0 ==> s == SummaryOf(entries.value)
  {
    if entries.None? || |entries.value| == 0 {
      return EmptySummary;
    }
    var es := entries.value;
    var putOi, callOi, totalOi, ivSum, ivCount, underlying := 0.0, 0.0, 0.0, 0.0, 0.0, 0.0;
    var i := 0;
    while i < |es|
      invariant 0 <= i <= |es|
      invariant putOi == PutOi(es[..i]) && callOi == CallOi(es[..i]) && totalOi == TotalOi(es[..i])
      invariant ivSum == IvSum(es[..i]) && ivCount == IvWeight(es[..i])
      invariant underlying == LastUnderlying(es[..i])
    {
      assert es[..i + 1][..i] == es[..i];
      var e := es[i];
      var isPut := EndsWith(e.instrumentName, "-P");
      var isCall := EndsWith(e.instrumentName, "-C");
      var oi := if e.openInterest.Some? then e.openInterest.value else 0.0;
      totalOi := totalOi + oi;
      if isPut { putOi := putOi + oi; }
      if isCall { callOi := callOi + oi; }
      if e.markIv > 0.0 && oi > 0.0 {
        ivSum := ivSum + e.markIv * oi;
        ivCount := ivCount + oi;
      }
      if e.underlyingPrice > 0.0 {
        underlying := e.underlyingPrice;
      }
      i := i + 1;
    }
    assert es[..|es|] == es;
    s := Summary(if callOi > 0.0 then putOi / callOi else 0.0, totalOi,
      if ivCount > 0.0 then ivSum / ivCount else 0.0, underlying);
  }

  predicate NonNegativeOi(es: seq<BookEntry>)
  {
    forall k :: 0 <= k < |es| ==> Oi(es[k]) >= 0.0
  }

  /** No name ends in both "-P" and "-C", so with non-negative interest puts and calls never exceed the total. */
  lemma {:induction false} PutCallWithinTotal(es: seq<BookEntry>)
    requires NonNegativeOi(es)
    ensures 0.0 <= PutOi(es) && 0.0 <= CallOi(es)
    ensures PutOi(es) + CallOi(es) <= TotalOi(es)
  {
    if |es| > 0 {
      var e := es[|es| - 1];
      PutCallWithinTotal(es[..|es| - 1]);
      PutOrCall(e.instrumentName);
    }
  }

  lemma PutOrCall(s: string)
    ensures !(EndsWith(s, "-P") && EndsWith(s, "-C"))
  {
    if EndsWith(s, "-P") {
      assert s[|s| - 2..][1] == 'P';
    }
  }

  /** Only positive IVs and interests are weighed: the weight and the sum are non-negative, and positive together. */
  lemma {:induction false} IvNonNegative(es: seq<BookEntry>)
    ensures IvWeight(es) >= 0.0 && IvSum(es) >= 0.0
    ensures IvWeight(es) > 0.0 <==> IvSum(es) > 0.0
  {
    if |es| > 0 {
      IvNonNegative(es[..|es| - 1]);
      var e := es[|es| - 1];
      if WeighsIv(e) {
        PositiveProduct(e.markIv, Oi(e));
      }
    }
  }

  lemma PositiveProduct(a: real, b: real)
    requires a > 0.0 && b > 0.0
    ensures a * b > 0.0
  {
  }

  /** The aggregate IV is positive exactly when some entry has both a positive IV and positive interest. */
  lemma AggregateIvPositive(es: seq<BookEntry>)
    ensures SummaryOf(es).aggregateIv >= 0.0
    ensures SummaryOf(es).aggregateIv > 0.0 <==> IvWeight(es) > 0.0
  {
    IvNonNegative(es);
    if IvWeight(es) > 0.0 {
      var q := IvSum(es) / IvWeight(es);
      assert q * IvWeight(es) == IvSum(es);
      PositiveQuotient(IvSum(es), IvWeight(es));
    }
  }

  lemma PositiveQuotient(s: real, w: real)
    requires s > 0.0 && w > 0.0
    ensures s / w > 0.0
  {
  }

  predicate AllAfterNonPositive(es: seq<BookEntry>, k: nat)
  {
    forall j :: k < j < |es| ==> es[j].underlyingPrice <= 0.0
  }

  /** The underlying price is 0 exactly when no entry has a positive one, and otherwise the last such entry's. */
  lemma {:induction false} LastUnderlyingIsLast(es: seq<BookEntry>)
    ensures LastUnderlying(es) == 0.0 <==> forall k :: 0 <= k < |es| ==> es[k].underlyingPrice <= 0.0
    ensures LastUnderlying(es) != 0.0 ==>
      exists k :: 0 <= k < |es| && es[k].underlyingPrice == LastUnderlying(es) > 0.0 && AllAfterNonPositive(es, k)
  {
    if |es| > 0 {
      var n := |es|;
      var init := es[..n - 1];
      LastUnderlyingIsLast(init);
      if es[n - 1].underlyingPrice <= 0.0 {
        forall k | 0 <= k < n - 1 ensures es[k] == init[k] { }
        if LastUnderlying(init) != 0.0 {
          var k :| 0 <= k < n - 1 && init[k].underlyingPrice == LastUnderlying(init) > 0.0 && AllAfterNonPositive(init, k);
          assert es[k] == init[k];
          assert AllAfterNonPositive(es, k);
        }
      }
    }
  }

  // The DVOL history.

  /** A DVOL candle: `[time in ms, open, high, low, close]`. */
  datatype DvolCandle = DvolCandle(ms: int, open: real, high: real, low: real, close: real)

  datatype DvolPoint = DvolPoint(timestamp: int, date: Date, iv: real)

  function DvolPointOf(d: DvolCandle, dateOfMs: int -> Date): (p: DvolPoint)
    ensures p.timestamp * 1000 <= d.ms < (p.timestamp + 1) * 1000
    ensures p.date == dateOfMs(d.ms) && p.iv == d.close
  {
    DvolPoint(d.ms / 1000, dateOfMs(d.ms), d.close)
  }

  /** One point per candle, in order; a body that is not an array gives none. */
  function DvolHistory(data: Option<seq<DvolCandle>>, dateOfMs: int -> Date): (r: seq<DvolPoint>)
    ensures data.None? ==> r == []
    ensures data.Some? ==> |r| == |data.value|
    ensures data.Some? ==> forall k :: 0 <= k < |r| ==> r[k] == DvolPointOf(data.value[k], dateOfMs)
  {
    if data.None? then []
    else seq(|data.value|, k requires 0 <= k < |data.value| => DvolPointOf(data.value[k], dateOfMs))
  }
}
