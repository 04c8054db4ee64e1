/**
 * Per-date deduplication through a JavaScript `Map` keyed by date: the
 * Map's values come out in first-insertion order of their keys, holding
 * either the last item set for the key (`map.set` every time) or the first
 * (`if (!map.has(key)) map.set(...)`).
 */
module Tables {
  import opened Common
  import opened Sorting

  /** Some item has key `d`. */
  predicate HasKey<T>(s: seq<T>, key: T -> Date, d: Date)
  {
    exists k :: 0 <= k < |s| && key(s[k]) == d
  }

  /** No two items share a key. */
  predicate DistinctKeys<T>(s: seq<T>, key: T -> Date)
  {
    forall k, l :: 0 <= k < l < |s| ==> key(s[k]) != key(s[l])
  }

  function KeysOf<T>(items: seq<T>, key: T -> Date): (ks: seq<Date>)
    ensures |ks| == |items|
    ensures forall i :: 0 <= i < |items| ==> ks[i] == key(items[i])
  {
    seq(|items|, i requires 0 <= i < |items| => key(items[i]))
  }

  function Keyed<T>(items: seq<T>, key: T -> Date): (r: seq<(Date, T)>)
    ensures |r| == |items|
    ensures forall i :: 0 <= i < |items| ==> r[i] == (key(items[i]), items[i])
  {
    seq(|items|, i requires 0 <= i < |items| => (key(items[i]), items[i]))
  }

  /** The first item of each key, a `has`-guarded `set` loop. */
  function FirstWins<T>(items: seq<T>, key: T -> Date): map<Date, T>
  {
    if |items| == 0 then map[]
    else
      var m := FirstWins(items[..|items| - 1], key);
      var x := items[|items| - 1];
      if key(x) in m then m else m[key(x) := x]
  }

  /** `Array.from(map.values())` after `map.set` for every item: one item per key, the last. */
  function LastPerKey<T>(items: seq<T>, key: T -> Date): seq<T>
  {
    var keys := FirstAppearance(KeysOf(items, key));
    var table := LastWins(Keyed(items, key));
    seq(|keys|, k requires 0 <= k < |keys| => if keys[k] in table then table[keys[k]] else items[0])
  }

  /** `Array.from(map.values())` after a `has`-guarded `set`: one item per key, the first. */
  function FirstPerKey<T>(items: seq<T>, key: T -> Date): seq<T>
  {
    var keys := FirstAppearance(KeysOf(items, key));
    var table := FirstWins(items, key);
    seq(|keys|, k requires 0 <= k < |keys| => if keys[k] in table then table[keys[k]] else items[0])
  }

  lemma {:induction false} LastWinsKeys<T>(items: seq<T>, key: T -> Date, d: Date)
    ensures d in LastWins(Keyed(items, key)) <==> d in KeysOf(items, key)
  {
    if |items| > 0 {
      var n := |items|;
      LastWinsKeys(items[..n - 1], key, d);
      assert Keyed(items, key)[..n - 1] == Keyed(items[..n - 1], key);
      assert KeysOf(items, key) == KeysOf(items[..n - 1], key) + [key(items[n - 1])];
    }
  }

  lemma {:induction false} FirstWinsKeys<T>(items: seq<T>, key: T -> Date, d: Date)
    ensures d in FirstWins(items, key) <==> d in KeysOf(items, key)
  {
    if |items| > 0 {
      var n := |items|;
      FirstWinsKeys(items[..n - 1], key, d);
      assert KeysOf(items, key) == KeysOf(items[..n - 1], key) + [key(items[n - 1])];
    }
  }

  /** `k` is the last item with key `d`. */
  predicate IsLastOfKey<T>(items: seq<T>, key: T -> Date, k: nat, d: Date)
  {
    k < |items| && key(items[k]) == d && forall j :: k < j < |items| ==> key(items[j]) != d
  }

  /** `k` is the first item with key `d`. */
  predicate IsFirstOfKey<T>(items: seq<T>, key: T -> Date, k: nat, d: Date)
  {
    k < |items| && key(items[k]) == d && forall j :: 0 <= j < k ==> key(items[j]) != d
  }

  lemma {:induction false} FirstWinsValue<T>(items: seq<T>, key: T -> Date, d: Date)
    requires d in FirstWins(items, key)
    ensures exists k: nat :: IsFirstOfKey(items, key, k, d) && FirstWins(items, key)[d] == items[k]
  {
    var n := |items|;
    var init := items[..n - 1];
    if d in FirstWins(init, key) {
      FirstWinsValue(init, key, d);
      var k: nat :| IsFirstOfKey(init, key, k, d) && FirstWins(init, key)[d] == init[k];
      assert items[k] == init[k];
      forall j | 0 <= j < k ensures key(items[j]) != d {
        assert items[j] == init[j];
      }
      assert IsFirstOfKey(items, key, k, d);
    } else {
      FirstWinsKeys(init, key, d);
      forall j | 0 <= j < n - 1 ensures key(items[j]) != d {
        assert KeysOf(init, key)[j] == key(items[j]);
      }
      assert IsFirstOfKey(items, key, n - 1, d);
    }
  }

  lemma {:induction false} LastWinsValue<T>(items: seq<T>, key: T -> Date, d: Date)
    requires d in LastWins(Keyed(items, key))
    ensures exists k: nat :: IsLastOfKey(items, key, k, d) && LastWins(Keyed(items, key))[d] == items[k]
  {
    var n := |items|;
    var init := items[..n - 1];
    assert Keyed(items, key)[..n - 1] == Keyed(init, key);
    if key(items[n - 1]) == d {
      assert IsLastOfKey(items, key, n - 1, d);
    } else {
      LastWinsValue(init, key, d);
      var k: nat :| IsLastOfKey(init, key, k, d) && LastWins(Keyed(init, key))[d] == init[k];
      assert items[k] == init[k];
      forall j | k < j < n ensures key(items[j]) != d {
        if j < n - 1 { assert items[j] == init[j]; }
      }
      assert IsLastOfKey(items, key, k, d);
    }
  }

  /**
   * One item per key, keys in first-appearance order, a key present iff
   * some item has it, and each kept item the last of its key.
   */
  lemma LastPerKeyFacts<T>(items: seq<T>, key: T -> Date)
    ensures var r := LastPerKey(items, key);
      && |r| <= |items|
      && DistinctKeys(r, key)
      && (forall d :: HasKey(r, key, d) <==> HasKey(items, key, d))
      && (forall k :: 0 <= k < |r| ==> exists i: nat :: IsLastOfKey(items, key, i, key(r[k])) && r[k] == items[i])
  {
    var keys := FirstAppearance(KeysOf(items, key));
    var r := LastPerKey(items, key);
    var table := LastWins(Keyed(items, key));
    forall k | 0 <= k < |keys|
      ensures keys[k] in table && key(r[k]) == keys[k]
      ensures exists i: nat :: IsLastOfKey(items, key, i, keys[k]) && r[k] == items[i]
    {
      assert keys[k] in keys;
      LastWinsKeys(items, key, keys[k]);
      LastWinsValue(items, key, keys[k]);
    }
    forall d ensures HasKey(r, key, d) <==> HasKey(items, key, d) {
      if HasKey(items, key, d) {
        var i :| 0 <= i < |items| && key(items[i]) == d;
        assert KeysOf(items, key)[i] == d;
        assert d in keys;
        var k :| 0 <= k < |keys| && keys[k] == d;
        assert key(r[k]) == d;
      }
      if HasKey(r, key, d) {
        var k :| 0 <= k < |r| && key(r[k]) == d;
        assert keys[k] in keys;
        var i :| 0 <= i < |items| && KeysOf(items, key)[i] == d;
      }
    }
    DistinctKeysBound(keys, KeysOf(items, key));
  }

  /** One item per key, keys in first-appearance order, each kept item the first of its key. */
  lemma FirstPerKeyFacts<T>(items: seq<T>, key: T -> Date)
    ensures var r := FirstPerKey(items, key);
      && |r| <= |items|
      && DistinctKeys(r, key)
      && (forall d :: HasKey(r, key, d) <==> HasKey(items, key, d))
      && (forall k :: 0 <= k < |r| ==> exists i: nat :: IsFirstOfKey(items, key, i, key(r[k])) && r[k] == items[i])
  {
    var keys := FirstAppearance(KeysOf(items, key));
    var r := FirstPerKey(items, key);
    var table := FirstWins(items, key);
    forall k | 0 <= k < |keys|
      ensures keys[k] in table && key(r[k]) == keys[k]
      ensures exists i: nat :: IsFirstOfKey(items, key, i, keys[k]) && r[k] == items[i]
    {
      assert keys[k] in keys;
      FirstWinsKeys(items, key, keys[k]);
      FirstWinsValue(items, key, keys[k]);
      var i: nat :| IsFirstOfKey(items, key, i, keys[k]) && table[keys[k]] == items[i];
    }
    forall d ensures HasKey(r, key, d) <==> HasKey(items, key, d) {
      if HasKey(items, key, d) {
        var i :| 0 <= i < |items| && key(items[i]) == d;
        assert KeysOf(items, key)[i] == d;
        assert d in keys;
        var k :| 0 <= k < |keys| && keys[k] == d;
        assert key(r[k]) == d;
      }
      if HasKey(r, key, d) {
        var k :| 0 <= k < |r| && key(r[k]) == d;
        assert keys[k] in keys;
        var i :| 0 <= i < |items| && KeysOf(items, key)[i] == d;
      }
    }
    DistinctKeysBound(keys, KeysOf(items, key));
  }

  /** A list without duplicates drawn from another list is no longer than it. */
  lemma DistinctKeysBound(keys: seq<Date>, from: seq<Date>)
    requires NoDuplicates(keys) && forall k :: k in keys ==> k in from
    ensures |keys| <= |from|
  {
    var s := set k | k in keys;
    var t := set k | k in from;
    assert t == s + (t - s);
    assert s * (t - s) == {};
    DistinctCard(keys);
    CardAtMost(from);
  }

  lemma {:induction false} DistinctCard(keys: seq<Date>)
    requires NoDuplicates(keys)
    ensures |set k | k in keys| == |keys|
  {
    if |keys| > 0 {
      var init := keys[..|keys| - 1];
      DistinctCard(init);
      assert (set k | k in keys) == (set k | k in init) + {keys[|keys| - 1]};
      assert keys[|keys| - 1] !in init;
    }
  }

  lemma {:induction false} CardAtMost(keys: seq<Date>)
    ensures |set k | k in keys| <= |keys|
  {
    if |keys| > 0 {
      var init := keys[..|keys| - 1];
      CardAtMost(init);
      assert (set k | k in keys) == (set k | k in init) + {keys[|keys| - 1]};
    }
  }

  /** A stable sort by another key keeps the items, their keys and their distinctness. */
  lemma SortKeepsKeys<T>(values: seq<T>, key: T -> Date, order: T -> real)
    ensures var out := SortBy(values, order);
      && SortedBy(out, order)
      && multiset(out) == multiset(values)
      && (forall k :: 0 <= k < |out| ==> out[k] in values)
      && (DistinctKeys(values, key) ==> DistinctKeys(out, key))
      && (forall d :: HasKey(out, key, d) <==> HasKey(values, key, d))
  {
    var out := SortBy(values, order);
    SortByFacts(values, order);
    forall k | 0 <= k < |out| ensures out[k] in values {
      assert out[k] in multiset(values);
    }
    if DistinctKeys(values, key) {
      assert NoDuplicates(values);
      PermutationNoDuplicates(values, out);
      forall k, l | 0 <= k < l < |out| ensures key(out[k]) != key(out[l]) {
        var a :| 0 <= a < |values| && out[k] == values[a];
        var b :| 0 <= b < |values| && out[l] == values[b];
        assert a != b;
      }
    }
    forall d ensures HasKey(out, key, d) <==> HasKey(values, key, d) {
      if HasKey(values, key, d) {
        var k :| 0 <= k < |values| && key(values[k]) == d;
        assert values[k] in multiset(out);
      }
      if HasKey(out, key, d) {
        var k :| 0 <= k < |out| && key(out[k]) == d;
        assert out[k] in multiset(values);
      }
    }
  }

  // The loops themselves.

  lemma FirstWinsAppend<T>(seen: seq<T>, x: T, key: T -> Date)
    ensures KeysOf(seen + [x], key) == KeysOf(seen, key) + [key(x)]
    ensures var m := FirstWins(seen, key);
      FirstWins(seen + [x], key) == if key(x) in m then m else m[key(x) := x]
  {
    assert (seen + [x])[..|seen|] == seen;
  }

  lemma FirstWinsSnoc<T>(items: seq<T>, key: T -> Date, i: nat)
    requires i < |items|
    ensures KeysOf(items[..i + 1], key) == KeysOf(items[..i], key) + [key(items[i])]
    ensures var m := FirstWins(items[..i], key);
      FirstWins(items[..i + 1], key) == if key(items[i]) in m then m else m[key(items[i]) := items[i]]
  {
    assert items[..i + 1][..i] == items[..i];
  }

  lemma LastWinsSnoc<T>(items: seq<T>, key: T -> Date, i: nat)
    requires i < |items|
    ensures KeysOf(items[..i + 1], key) == KeysOf(items[..i], key) + [key(items[i])]
    ensures LastWins(Keyed(items[..i + 1], key)) == LastWins(Keyed(items[..i], key))[key(items[i]) := items[i]]
  {
    assert Keyed(items[..i + 1], key)[..i] == Keyed(items[..i], key);
  }

  /** `for (const r of items) byDate.set(key(r), r); Array.from(byDate.values())`. */
  method DedupeLast<T>(items: seq<T>, key: T -> Date) returns (values: seq<T>)
    ensures values == LastPerKey(items, key)
  {
    var keys: seq<Date> := [];
    var byDate: map<Date, T> := map[];
    var i := 0;
    while i < |items|
      invariant 0 <= i <= |items|
      invariant keys == FirstAppearance(KeysOf(items[..i], key))
      invariant byDate == LastWins(Keyed(items[..i], key))
      invariant forall d :: d in byDate <==> d in keys
    {
      var x := items[i];
      LastWinsSnoc(items, key, i);
      FirstAppearanceSnoc(KeysOf(items[..i], key), key(x));
      if key(x) !in byDate {
        keys := keys + [key(x)];
      }
      byDate := byDate[key(x) := x];
      i := i + 1;
    }
    assert items[..|items|] == items;
    LastPerKeyTable(items, key, keys, byDate);
    values := seq(|keys|, k requires 0 <= k < |keys| => byDate[keys[k]]);
  }

  /** Reading the table in first-appearance order of its keys gives one item per key, the last. */
  lemma LastPerKeyTable<T>(items: seq<T>, key: T -> Date, keys: seq<Date>, byDate: map<Date, T>)
    requires keys == FirstAppearance(KeysOf(items, key)) && byDate == LastWins(Keyed(items, key))
    requires forall d :: d in byDate <==> d in keys
    ensures forall k :: 0 <= k < |keys| ==> keys[k] in byDate
    ensures LastPerKey(items, key) == seq(|keys|, k requires 0 <= k < |keys| && keys[k] in byDate => byDate[keys[k]])
  {
    forall k | 0 <= k < |keys| ensures keys[k] in byDate {
      assert keys[k] in keys;
    }
  }

  /** `for (const r of items) if (!byDate.has(key(r))) byDate.set(key(r), r); Array.from(byDate.values())`. */
  method DedupeFirst<T>(items: seq<T>, key: T -> Date) returns (values: seq<T>)
    ensures values == FirstPerKey(items, key)
  {
    var keys: seq<Date> := [];
    var byDate: map<Date, T> := map[];
    var i := 0;
    while i < |items|
      invariant 0 <= i <= |items|
      invariant keys == FirstAppearance(KeysOf(items[..i], key))
      invariant byDate == FirstWins(items[..i], key)
      invariant forall d :: d in byDate <==> d in keys
    {
      var x := items[i];
      FirstWinsSnoc(items, key, i);
      FirstAppearanceSnoc(KeysOf(items[..i], key), key(x));
      if key(x) !in byDate {
        keys := keys + [key(x)];
        byDate := byDate[key(x) := x];
      }
      i := i + 1;
    }
    assert items[..|items|] == items;
    values := seq(|keys|, k requires 0 <= k < |keys| => byDate[keys[k]]);
    forall k | 0 <= k < |keys| ensures keys[k] in byDate {
      assert keys[k] in keys;
    }
  }
}
