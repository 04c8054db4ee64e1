/**
 * Shared vocabulary of the indicator core: optional values (the NaN slots of
 * the source's number arrays), the ternary signal, the daily price record,
 * dates with the string order the source compares them by, last-wins lookup
 * tables built from lists, and the arithmetic helpers every indicator uses.
 */
module Common {

  /** A value that may be missing; `None` stands for the source's NaN or undefined. */
  datatype Option<T> = None | Some(value: T) {
    function GetOr(default: T): T {
      match this
      case Some(v) => v
      case None => default
    }
  }

  /** Ternary classification of an indicator reading. */
  datatype Signal = Buy | Neutral | Sell

  /** The composite's vote for a signal: buy +1, neutral 0, sell -1. */
  function Vote(s: Signal): (v: int)
    ensures -1 <= v <= 1
    ensures (v == 1 <==> s == Buy) && (v == -1 <==> s == Sell)
  {
    match s
    case Buy => 1
    case Neutral => 0
    case Sell => -1
  }

  /** Calendar dates in the source's `YYYY-MM-DD` string form. */
  type Date = string

  /** One day of BTC history; timestamps are Unix seconds. */
  datatype DailyPrice = DailyPrice(
    timestamp: int, date: Date,
    open: real, high: real, low: real, close: real, volume: real)

  /** The closes of a price series, in order. */
  function Closes(prices: seq<DailyPrice>): (cs: seq<real>)
    ensures |cs| == |prices|
    ensures forall i :: 0 <= i < |prices| ==> cs[i] == prices[i].close
  {
    seq(|prices|, i requires 0 <= i < |prices| => prices[i].close)
  }

  function PriceDates(prices: seq<DailyPrice>): (ds: seq<Date>)
    ensures |ds| == |prices| && forall i :: 0 <= i < |prices| ==> ds[i] == prices[i].date
  {
    seq(|prices|, i requires 0 <= i < |prices| => prices[i].date)
  }

  // ---------------------------------------------------------------------------
  // Dates are compared as strings, character by character (JavaScript's `<=`
  // on strings). Dafny's own `<=` on sequences means "is a prefix of", so the
  // lexicographic order is written out.

  predicate DateLe(a: Date, b: Date)
    decreases |a|
  {
    if |a| == 0 then true
    else if |b| == 0 then false
    else if a[0] != b[0] then a[0] < b[0]
    else DateLe(a[1..], b[1..])
  }

  lemma {:induction false} DateLeReflexive(a: Date)
    ensures DateLe(a, a)
  {
    if |a| > 0 {
      DateLeReflexive(a[1..]);
    }
  }

  lemma {:induction false} DateLeTotal(a: Date, b: Date)
    ensures DateLe(a, b) || DateLe(b, a)
    decreases |a|
  {
    if |a| > 0 && |b| > 0 && a[0] == b[0] {
      DateLeTotal(a[1..], b[1..]);
    }
  }

  lemma {:induction false} DateLeAntisymmetric(a: Date, b: Date)
    requires DateLe(a, b) && DateLe(b, a)
    ensures a == b
    decreases |a|
  {
    if |a| > 0 && |b| > 0 {
      DateLeAntisymmetric(a[1..], b[1..]);
      assert a == [a[0]] + a[1..] && b == [b[0]] + b[1..];
    }
  }

  lemma {:induction false} DateLeTransitive(a: Date, b: Date, c: Date)
    requires DateLe(a, b) && DateLe(b, c)
    ensures DateLe(a, c)
    decreases |a|
  {
    if |a| > 0 && |b| > 0 && |c| > 0 && a[0] == b[0] && b[0] == c[0] {
      DateLeTransitive(a[1..], b[1..], c[1..]);
    }
  }

  // ---------------------------------------------------------------------------
  // Lookup tables. `new Map(list.map(x => [key, value]))` and a loop of
  // `map.set(key, value)` both keep the LAST value seen for a key.

  function LastWins<K, V>(entries: seq<(K, V)>): map<K, V>
  {
    if |entries| == 0 then map[]
    else LastWins(entries[..|entries| - 1])[entries[|entries| - 1].0 := entries[|entries| - 1].1]
  }

  /** A key is in the table iff some entry has it, and its value is that of the last such entry. */
  lemma LastWinsLookup<K, V>(entries: seq<(K, V)>, key: K)
    ensures key in LastWins(entries) <==> exists k :: 0 <= k < |entries| && entries[k].0 == key
    ensures key in LastWins(entries) ==>
      exists k :: 0 <= k < |entries| && entries[k].0 == key && entries[k].1 == LastWins(entries)[key]
        && forall j :: k < j < |entries| ==> entries[j].0 != key
  {
    LastWinsHas(entries, key);
    LastWinsLast(entries, key);
  }

  lemma {:induction false} LastWinsHas<K, V>(entries: seq<(K, V)>, key: K)
    ensures key in LastWins(entries) <==> exists k :: 0 <= k < |entries| && entries[k].0 == key
  {
    if |entries| > 0 {
      var init := entries[..|entries| - 1];
      LastWinsHas(init, key);
      if exists k :: 0 <= k < |init| && init[k].0 == key {
        var k :| 0 <= k < |init| && init[k].0 == key;
        assert entries[k] == init[k];
      }
      if exists k :: 0 <= k < |entries| && entries[k].0 == key {
        var k :| 0 <= k < |entries| && entries[k].0 == key;
        if k < |init| { assert init[k] == entries[k]; }
      }
    }
  }

  lemma {:induction false} LastWinsLast<K, V>(entries: seq<(K, V)>, key: K)
    ensures key in LastWins(entries) ==>
      exists k :: 0 <= k < |entries| && entries[k].0 == key && entries[k].1 == LastWins(entries)[key]
        && forall j :: k < j < |entries| ==> entries[j].0 != key
  {
    if |entries| > 0 {
      var n := |entries| - 1;
      var init := entries[..n];
      if key == entries[n].0 {
        assert entries[n].1 == LastWins(entries)[key];
      } else if key in LastWins(init) {
        LastWinsLast(init, key);
        var k :| 0 <= k < |init| && init[k].0 == key && init[k].1 == LastWins(init)[key]
          && forall j :: k < j < |init| ==> init[j].0 != key;
        assert entries[k] == init[k];
        assert forall j :: k < j < |entries| ==> entries[j].0 != key by {
          forall j | k < j < |entries| ensures entries[j].0 != key {
            if j < n { assert entries[j] == init[j]; }
          }
        }
      }
    }
  }

  /** A `for ... map.set(key, value)` loop over the entries. */
  method BuildMap<K, V>(entries: seq<(K, V)>) returns (m: map<K, V>)
    ensures m == LastWins(entries)
  {
    m := map[];
    for i := 0 to |entries|
      invariant m == LastWins(entries[..i])
    {
      assert entries[..i + 1][..i] == entries[..i];
      m := m[entries[i].0 := entries[i].1];
    }
    assert entries[..|entries|] == entries;
  }

  /** No element occurs twice. */
  predicate NoDuplicates<K(==)>(s: seq<K>)
  {
    forall i, j :: 0 <= i < j < |s| ==> s[i] != s[j]
  }

  /**
   * The keys of a JavaScript `Map` filled from `keys` in order: each key
   * once, at the position where it was first set.
   */
  function FirstAppearance<K(==, !new)>(keys: seq<K>): (r: seq<K>)
    ensures NoDuplicates(r)
    ensures forall k :: k in r <==> k in keys
  {
    if |keys| == 0 then []
    else
      var r := FirstAppearance(keys[..|keys| - 1]);
      assert forall k :: k in keys <==> k in keys[..|keys| - 1] || k == keys[|keys| - 1] by {
        assert keys == keys[..|keys| - 1] + [keys[|keys| - 1]];
      }
      if keys[|keys| - 1] in r then r else r + [keys[|keys| - 1]]
  }

  lemma FirstAppearanceSnoc<K(!new)>(keys: seq<K>, x: K)
    ensures FirstAppearance(keys + [x]) == if x in FirstAppearance(keys) then FirstAppearance(keys) else FirstAppearance(keys) + [x]
  {
    assert (keys + [x])[..|keys|] == keys;
  }

  /** `new Map(prices.map(p => [p.date, p.close]))`, or the same built by a `set` loop. */
  function CloseByDate(prices: seq<DailyPrice>): map<Date, real>
  {
    LastWins(seq(|prices|, i requires 0 <= i < |prices| => (prices[i].date, prices[i].close)))
  }

  /** `new Map(prices.map((p, i) => [p.date, i]))`: the last index of each date. */
  function PriceIndex(prices: seq<DailyPrice>): map<Date, nat>
  {
    LastWins(seq(|prices|, i requires 0 <= i < |prices| => (prices[i].date, i as nat)))
  }

  lemma {:induction false} PriceIndexIsLast(prices: seq<DailyPrice>, date: Date)
    ensures date in PriceIndex(prices) <==> exists i :: 0 <= i < |prices| && prices[i].date == date
    ensures date in PriceIndex(prices) ==>
      var i := PriceIndex(prices)[date];
      i < |prices| && prices[i].date == date && forall j :: i < j < |prices| ==> prices[j].date != date
  {
    var pairs := seq(|prices|, i requires 0 <= i < |prices| => (prices[i].date, i as nat));
    LastWinsLookup(pairs, date);
    if exists i :: 0 <= i < |prices| && prices[i].date == date {
      var i :| 0 <= i < |prices| && prices[i].date == date;
      assert pairs[i].0 == date;
      var k :| 0 <= k < |pairs| && pairs[k].0 == date && pairs[k].1 == LastWins(pairs)[date]
        && forall j :: k < j < |pairs| ==> pairs[j].0 != date;
      assert pairs[k].1 == k;
      forall j | k < j < |prices| ensures prices[j].date != date {
        assert pairs[j].0 == prices[j].date;
      }
    }
  }

  // ---------------------------------------------------------------------------
  // String helpers.

  /** `s.startsWith(prefix)`. */
  predicate StartsWith(s: string, prefix: string)
  {
    |prefix| <= |s| && s[..|prefix|] == prefix
  }

  /** `s.endsWith(suffix)`. */
  predicate EndsWith(s: string, suffix: string)
  {
    |suffix| <= |s| && s[|s| - |suffix|..] == suffix
  }

  /** `part` occurs in `s` starting at index `i`. */
  predicate OccursAt(s: string, part: string, i: int)
  {
    0 <= i && i + |part| <= |s| && s[i..i + |part|] == part
  }

  /** `s.includes(part)`, by a scan from the front. */
  predicate Contains(s: string, part: string)
    decreases |s|
  {
    |part| <= |s| && (s[..|part|] == part || Contains(s[1..], part))
  }

  /** The scan finds `part` exactly when it occurs at some index. */
  lemma {:induction false} ContainsOccurs(s: string, part: string)
    ensures Contains(s, part) <==> exists i :: OccursAt(s, part, i)
    decreases |s|
  {
    if |part| <= |s| {
      if s[..|part|] == part {
        assert OccursAt(s, part, 0);
      } else {
        ContainsOccurs(s[1..], part);
        if exists i :: OccursAt(s[1..], part, i) {
          var i :| OccursAt(s[1..], part, i);
          assert s[i + 1..i + 1 + |part|] == s[1..][i..i + |part|];
          assert OccursAt(s, part, i + 1);
        }
        if exists i :: OccursAt(s, part, i) {
          var i :| OccursAt(s, part, i);
          assert i != 0;
          assert s[1..][i - 1..i - 1 + |part|] == s[i..i + |part|];
          assert OccursAt(s[1..], part, i - 1);
        }
      }
    }
  }

  /** `s.replace(pattern, "")`: the first occurrence of a non-empty pattern removed, if any. */
  function RemoveFirst(s: string, pattern: string): (r: string)
    requires |pattern| > 0
    ensures StartsWith(s, pattern) ==> r == s[|pattern|..]
    ensures !Contains(s, pattern) ==> r == s
    ensures Contains(s, pattern) ==> |r| == |s| - |pattern|
    decreases |s|
  {
    if |s| < |pattern| then s
    else if s[..|pattern|] == pattern then s[|pattern|..]
    else [s[0]] + RemoveFirst(s[1..], pattern)
  }

  /** `toUpperCase` on ASCII letters; other characters are kept. */
  function AsciiUpper(s: string): (r: string)
    ensures |r| == |s|
    ensures forall i :: 0 <= i < |s| ==> r[i] == if 'a' <= s[i] <= 'z' then (s[i] as int - 32) as char else s[i]
  {
    seq(|s|, i requires 0 <= i < |s| => if 'a' <= s[i] <= 'z' then (s[i] as int - 32) as char else s[i])
  }

  /** JavaScript truthiness of a looked-up number: present and non-zero. */
  predicate TruthyAt(m: map<Date, real>, d: Date)
  {
    d in m && m[d] != 0.0
  }

  // ---------------------------------------------------------------------------
  // Arithmetic helpers.

  /** Sum of a list of reals, built from the end as the running sums of the source are. */
  function Sum(s: seq<real>): real
  {
    if |s| == 0 then 0.0 else Sum(s[..|s| - 1]) + s[|s| - 1]
  }

  lemma SumAppend(s: seq<real>, x: real)
    ensures Sum(s + [x]) == Sum(s) + x
  {
    assert (s + [x])[..|s|] == s;
  }

  lemma {:induction false} SumFront(s: seq<real>)
    requires |s| > 0
    ensures Sum(s) == s[0] + Sum(s[1..])
  {
    if |s| > 1 {
      SumFront(s[..|s| - 1]);
      assert s[..|s| - 1][1..] == s[1..][..|s[1..]| - 1];
    }
  }

  /**
   * The `(to - from) / from * 100` percentage change used for every
   * forward return; a zero base has no finite change.
   */
  function PctChange(from: real, to: real): (r: Option<real>)
    ensures r.Some? <==> from != 0.0
    ensures r.Some? && from > 0.0 ==> (r.value >= 0.0 <==> to >= from)
  {
    if from == 0.0 then None else Some((to - from) / from * 100.0)
  }

  /** Percentage change to a target close at array offset `days`, missing past the end. */
  function OffsetReturn(prices: seq<DailyPrice>, from: nat, days: nat): (r: Option<real>)
    requires from < |prices|
    ensures from + days >= |prices| ==> r.None?
    ensures from + days < |prices| && prices[from].close != 0.0 ==>
      r == Some((prices[from + days].close - prices[from].close) / prices[from].close * 100.0)
  {
    if from + days < |prices| then PctChange(prices[from].close, prices[from + days].close) else None
  }

  /**
   * Forward return by a date lookup: the source computes it only when the
   * future close is truthy, and shows "?" otherwise.
   */
  function DateReturn(btcByDate: map<Date, real>, base: real, target: Date): (r: Option<real>)
    ensures r.Some? <==> TruthyAt(btcByDate, target) && base != 0.0
  {
    if TruthyAt(btcByDate, target) then PctChange(base, btcByDate[target]) else None
  }
}
