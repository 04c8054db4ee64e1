/**
 * `Array.prototype.sort` with a numeric comparator, as the fetch modules and
 * screeners use it: a stable sort by a key. A stable sort by a key has one
 * possible result, so the insertion sort below computes the library's order.
 * Descending sorts (`(a, b) => b.k - a.k`) are sorts by the negated key.
 */
module Sorting {
  import opened Common

  ghost predicate SortedBy<T>(s: seq<T>, key: T -> real)
  {
    forall i, j :: 0 <= i < j < |s| ==> key(s[i]) <= key(s[j])
  }

  /** Insert `x` after every element whose key is not greater than its own. */
  function Insert<T>(x: T, s: seq<T>, key: T -> real): seq<T>
  {
    if |s| == 0 then [x]
    else if key(x) < key(s[0]) then [x] + s
    else [s[0]] + Insert(x, s[1..], key)
  }

  function SortBy<T>(s: seq<T>, key: T -> real): seq<T>
  {
    if |s| == 0 then [] else Insert(s[|s| - 1], SortBy(s[..|s| - 1], key), key)
  }

  /** A bound below `x` and below every element of `s` is below every element of the insertion. */
  lemma {:induction false} InsertBound<T>(b: real, x: T, s: seq<T>, key: T -> real)
    requires b <= key(x)
    requires forall k :: 0 <= k < |s| ==> b <= key(s[k])
    ensures forall k :: 0 <= k < |Insert(x, s, key)| ==> b <= key(Insert(x, s, key)[k])
  {
    if |s| > 0 && key(x) >= key(s[0]) {
      InsertBound(b, x, s[1..], key);
    }
  }

  lemma InsertFacts<T>(x: T, s: seq<T>, key: T -> real)
    requires SortedBy(s, key)
    ensures multiset(Insert(x, s, key)) == multiset(s) + multiset{x}
    ensures SortedBy(Insert(x, s, key), key)
  {
    InsertPermutes(x, s, key);
    InsertSorted(x, s, key);
  }

  lemma {:induction false} InsertPermutes<T>(x: T, s: seq<T>, key: T -> real)
    ensures multiset(Insert(x, s, key)) == multiset(s) + multiset{x}
  {
    if |s| > 0 && key(x) >= key(s[0]) {
      InsertPermutes(x, s[1..], key);
      assert s == [s[0]] + s[1..];
    }
  }

  /** A head no larger than any element of a sorted tail gives a sorted list. */
  lemma ConsSorted<T>(h: T, t: seq<T>, key: T -> real)
    requires SortedBy(t, key) && forall k :: 0 <= k < |t| ==> key(h) <= key(t[k])
    ensures SortedBy([h] + t, key)
  {
    var r := [h] + t;
    forall i, j | 0 <= i < j < |r| ensures key(r[i]) <= key(r[j]) {
      assert r[j] == t[j - 1];
      if i > 0 { assert r[i] == t[i - 1]; }
    }
  }

  lemma {:induction false} InsertSorted<T>(x: T, s: seq<T>, key: T -> real)
    requires SortedBy(s, key)
    ensures SortedBy(Insert(x, s, key), key)
  {
    if |s| > 0 {
      var tail := s[1..];
      assert forall k :: 0 <= k < |tail| ==> key(s[0]) <= key(tail[k]) by {
        forall k | 0 <= k < |tail| ensures key(s[0]) <= key(tail[k]) { assert tail[k] == s[k + 1]; }
      }
      if key(x) >= key(s[0]) {
        assert SortedBy(tail, key) by {
          forall i, j | 0 <= i < j < |tail| ensures key(tail[i]) <= key(tail[j]) { assert tail[i] == s[i + 1] && tail[j] == s[j + 1]; }
        }
        InsertSorted(x, tail, key);
        InsertBound(key(s[0]), x, tail, key);
        ConsSorted(s[0], Insert(x, tail, key), key);
      } else {
        ConsSorted(x, s, key);
      }
    }
  }

  /** The sorted list is ordered by the key and is a permutation of the input. */
  lemma {:induction false} SortByFacts<T>(s: seq<T>, key: T -> real)
    ensures SortedBy(SortBy(s, key), key)
    ensures multiset(SortBy(s, key)) == multiset(s)
    ensures |SortBy(s, key)| == |s|
  {
    if |s| > 0 {
      SortByFacts(s[..|s| - 1], key);
      InsertFacts(s[|s| - 1], SortBy(s[..|s| - 1], key), key);
      assert s == s[..|s| - 1] + [s[|s| - 1]];
      assert |multiset(SortBy(s, key))| == |multiset(s)|;
    }
  }

  /** In a sorted list, nothing after the first `m` elements has a smaller key than any of them. */
  lemma PrefixDominates<T>(s: seq<T>, key: T -> real, m: nat)
    requires SortedBy(s, key) && m <= |s|
    ensures multiset(s[..m]) <= multiset(s)
    ensures forall x :: x in multiset(s) - multiset(s[..m]) ==> forall k :: 0 <= k < m ==> key(s[k]) <= key(x)
  {
    assert s == s[..m] + s[m..];
    assert multiset(s) == multiset(s[..m]) + multiset(s[m..]);
    forall x | x in multiset(s) - multiset(s[..m]) ensures forall k :: 0 <= k < m ==> key(s[k]) <= key(x) {
      assert x in multiset(s[m..]);
      var j :| 0 <= j < |s| - m && s[m..][j] == x;
      assert s[m + j] == x;
    }
  }

  lemma {:induction false} AtMostOnce<T>(s: seq<T>, x: T)
    requires NoDuplicates(s)
    ensures multiset(s)[x] <= 1
  {
    if |s| > 0 {
      var init := s[..|s| - 1];
      assert s == init + [s[|s| - 1]];
      assert NoDuplicates(init);
      AtMostOnce(init, x);
      if x == s[|s| - 1] {
        assert x !in init;
      }
    }
  }

  lemma Twice<T>(s: seq<T>, k: nat, l: nat)
    requires k < l < |s| && s[k] == s[l]
    ensures multiset(s)[s[k]] >= 2
  {
    assert s == s[..l] + [s[l]] + s[l + 1..];
    assert s[k] in s[..l];
  }

  /** A permutation of a list without duplicates has none either. */
  lemma PermutationNoDuplicates<T>(a: seq<T>, b: seq<T>)
    requires multiset(a) == multiset(b) && NoDuplicates(a)
    ensures NoDuplicates(b)
  {
    forall i, j | 0 <= i < j < |b| ensures b[i] != b[j] {
      AtMostOnce(a, b[i]);
      if b[i] == b[j] {
        Twice(b, i, j);
      }
    }
  }
}
