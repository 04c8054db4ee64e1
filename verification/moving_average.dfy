/**
 * The running-sum simple moving average every indicator builds on.
 */
module MovingAverage {
  import opened Common

  /** The mean of the `period` values ending at index `i`, missing while the window is not full. */
  function SmaAt(data: seq<real>, period: nat, i: nat): Option<real>
    requires period > 0 && i < |data|
  {
    if i + 1 >= period then Some(Sum(data[i + 1 - period..i + 1]) / period as real) else None
  }

  /** The reference definition: every position holds its own window mean. */
  function SmaSpec(data: seq<real>, period: nat): (r: seq<Option<real>>)
    requires period > 0
    ensures |r| == |data|
  {
    seq(|data|, i requires 0 <= i < |data| => SmaAt(data, period, i))
  }

  /** Start of the running window after `i` values have been added. */
  function WindowStart(i: nat, period: nat): nat
  {
    if i > period then i - period else 0
  }

  /** The sum of the running window after `i` values have been added. */
  function WindowSum(data: seq<real>, period: nat, i: nat): real
    requires i <= |data|
  {
    Sum(data[WindowStart(i, period)..i])
  }

  /** One step of the running window: add `data[i]`, drop `data[i - period]` once the window is full. */
  lemma WindowStep(data: seq<real>, period: nat, i: nat)
    requires period > 0 && i < |data|
    ensures WindowSum(data, period, i) + data[i] - (if i >= period then data[i - period] else 0.0)
            == WindowSum(data, period, i + 1)
  {
    var lo := WindowStart(i, period);
    SumAppend(data[lo..i], data[i]);
    assert data[lo..i] + [data[i]] == data[lo..i + 1];
    if i >= period {
      SumFront(data[lo..i + 1]);
      assert data[lo..i + 1][1..] == data[lo + 1..i + 1];
    }
  }

  /** The mean at `i` is the window sum over the period once the window is full, and missing before. */
  lemma SmaAtWindow(data: seq<real>, period: nat, i: nat, sum: real)
    requires period > 0 && i < |data| && sum == WindowSum(data, period, i + 1)
    ensures SmaAt(data, period, i) == if i + 1 >= period then Some(sum / period as real) else None
  {
  }

  /**
   * The source's O(n) running sum: add the incoming value, subtract the one
   * leaving the window, write the mean once the window is full.
   */
  method Sma(data: seq<real>, period: nat) returns (result: seq<Option<real>>)
    requires period > 0
    ensures result == SmaSpec(data, period)
    ensures forall i :: 0 <= i < |data| ==> (result[i].None? <==> i < period - 1)
  {
    var out := new Option<real>[|data|](_ => None);
    var sum := 0.0;
    var i := 0;
    while i < |data|
      invariant 0 <= i <= |data|
      invariant sum == WindowSum(data, period, i)
      invariant forall k :: 0 <= k < i ==> out[k] == SmaAt(data, period, k)
      invariant forall k :: i <= k < |data| ==> out[k] == None
    {
      WindowStep(data, period, i);
      sum := sum + data[i];
      if i >= period {
        sum := sum - data[i - period];
      }
      SmaAtWindow(data, period, i, sum);
      if i + 1 >= period {
        out[i] := Some(sum / period as real);
      }
      i := i + 1;
    }
    result := out[..];
    assert forall k :: 0 <= k < |data| ==> result[k] == SmaSpec(data, period)[k];
    SmaMissing(data, period);
  }

  /** A position has no mean exactly while fewer than `period` values have been seen. */
  lemma SmaMissing(data: seq<real>, period: nat)
    requires period > 0
    ensures forall i :: 0 <= i < |data| ==> (SmaSpec(data, period)[i].None? <==> i < period - 1)
  {
  }

  // ---------------------------------------------------------------------------
  // The chart line of an average: only its defined entries are plotted.

  /** The dated entries where the average is defined, in order. */
  function DefinedLineSpec(dates: seq<Date>, avg: seq<Option<real>>): (line: seq<(Date, real)>)
    requires |dates| == |avg|
    ensures |line| <= |dates|
  {
    if |dates| == 0 then []
    else
      var n := |dates| - 1;
      var init := DefinedLineSpec(dates[..n], avg[..n]);
      if avg[n].Some? then init + [(dates[n], avg[n].value)] else init
  }

  /** The charting loop that skips the NaN entries of an average. */
  method DefinedLine(dates: seq<Date>, avg: seq<Option<real>>) returns (line: seq<(Date, real)>)
    requires |dates| == |avg|
    ensures line == DefinedLineSpec(dates, avg)
  {
    line := [];
    for i := 0 to |dates|
      invariant line == DefinedLineSpec(dates[..i], avg[..i])
    {
      assert dates[..i + 1][..i] == dates[..i] && avg[..i + 1][..i] == avg[..i];
      if avg[i].Some? {
        line := line + [(dates[i], avg[i].value)];
      }
    }
    assert dates[..|dates|] == dates && avg[..|avg|] == avg;
  }

  /** A point is on the line iff some position has that date and that defined average. */
  lemma {:induction false} DefinedLineExact(dates: seq<Date>, avg: seq<Option<real>>, d: Date, v: real)
    requires |dates| == |avg|
    ensures (d, v) in DefinedLineSpec(dates, avg) <==>
      exists k :: 0 <= k < |dates| && dates[k] == d && avg[k] == Some(v)
  {
    if |dates| > 0 {
      var n := |dates| - 1;
      DefinedLineExact(dates[..n], avg[..n], d, v);
      if exists k :: 0 <= k < n && dates[..n][k] == d && avg[..n][k] == Some(v) {
        var k :| 0 <= k < n && dates[..n][k] == d && avg[..n][k] == Some(v);
        assert dates[k] == d && avg[k] == Some(v);
      }
      if exists k :: 0 <= k < |dates| && dates[k] == d && avg[k] == Some(v) {
        var k :| 0 <= k < |dates| && dates[k] == d && avg[k] == Some(v);
        if k < n {
          assert dates[..n][k] == d && avg[..n][k] == Some(v);
        }
      }
    }
  }

  /** An average undefined exactly before `start` plots one point per date from `start` on. */
  lemma {:induction false} LineFromOffset(dates: seq<Date>, avg: seq<Option<real>>, start: nat)
    requires |dates| == |avg|
    requires forall i :: 0 <= i < |avg| ==> (avg[i].Some? <==> i >= start)
    ensures var line := DefinedLineSpec(dates, avg);
      && |line| == (if |avg| < start then 0 else |avg| - start)
      && forall k :: 0 <= k < |line| ==>
           start + k < |avg| && avg[start + k].Some? && line[k] == (dates[start + k], avg[start + k].value)
  {
    if |dates| > 0 {
      var n := |dates| - 1;
      LineFromOffset(dates[..n], avg[..n], start);
    }
  }

  /**
   * The line of a `period`-day average starts at the `period`-th date and
   * from there has one point per date, carrying that date's window mean.
   */
  lemma SmaLine(dates: seq<Date>, data: seq<real>, period: nat)
    requires period > 0 && |dates| == |data|
    ensures var line := DefinedLineSpec(dates, SmaSpec(data, period));
      && |line| == (if |data| < period then 0 else |data| - period + 1)
      && forall k :: 0 <= k < |line| ==>
           period - 1 + k < |data| && line[k] == (dates[period - 1 + k], SmaAt(data, period, period - 1 + k).value)
  {
    SmaMissing(data, period);
    LineFromOffset(dates, SmaSpec(data, period), period - 1);
  }

  /** `sma([1, 2, 3, 4, 5], 3) = [NaN, NaN, 2, 3, 4]`. */
  lemma SmaExample()
    ensures SmaSpec([1.0, 2.0, 3.0, 4.0, 5.0], 3) == [None, None, Some(2.0), Some(3.0), Some(4.0)]
  {
    var d := [1.0, 2.0, 3.0, 4.0, 5.0];
    var r := SmaSpec(d, 3);
    assert r[2] == Some(2.0) by {
      assert d[0..3] == [1.0, 2.0, 3.0];
      Sum3(1.0, 2.0, 3.0);
    }
    assert r[3] == Some(3.0) by {
      assert d[1..4] == [2.0, 3.0, 4.0];
      Sum3(2.0, 3.0, 4.0);
    }
    assert r[4] == Some(4.0) by {
      assert d[2..5] == [3.0, 4.0, 5.0];
      Sum3(3.0, 4.0, 5.0);
    }
  }

  lemma Sum3(a: real, b: real, c: real)
    ensures Sum([a, b, c]) == a + b + c
  {
    assert [a][..0] == [];
    assert Sum([a]) == a;
    assert [a, b][..1] == [a];
    assert Sum([a, b]) == a + b;
    assert [a, b, c][..2] == [a, b];
  }

  /** Sum of `n` copies of `c`. */
  lemma {:induction false} SumConstant(s: seq<real>, c: real)
    requires forall k :: 0 <= k < |s| ==> s[k] == c
    ensures Sum(s) == |s| as real * c
  {
    if |s| > 0 {
      SumConstant(s[..|s| - 1], c);
    }
  }

  /** Over a window where the series is flat, the average equals that level. */
  lemma SmaOfFlatWindow(data: seq<real>, period: nat, i: nat, c: real)
    requires period > 0 && period - 1 <= i < |data|
    requires forall k :: i + 1 - period <= k <= i ==> data[k] == c
    ensures SmaSpec(data, period)[i] == Some(c)
  {
    var w := data[i + 1 - period..i + 1];
    assert |w| == period;
    assert forall k :: 0 <= k < |w| ==> w[k] == data[i + 1 - period + k];
    SumConstant(w, c);
    assert (period as real * c) / period as real == c;
    assert Sum(w) == period as real * c;
    assert SmaAt(data, period, i) == Some(Sum(w) / period as real);
    assert SmaSpec(data, period)[i] == SmaAt(data, period, i);
  }
}
