/**
 * Python's `sorted(xs, key=f)` on integer keys: a stable sort.  It is a
 * library call, so it is modelled as a function (insertion from the back,
 * each element placed before every element whose key is not smaller).
 */
module StableSort {

  predicate SortedBy<T>(s: seq<T>, key: T -> int) {
    forall i, j :: 0 <= i < j < |s| ==> key(s[i]) <= key(s[j])
  }

  /** The elements of `s` whose key is `k`, in their order in `s`. */
  function WithKey<T>(s: seq<T>, key: T -> int, k: int): seq<T> {
    if |s| == 0 then []
    else (if key(s[0]) == k then [s[0]] else []) + WithKey(s[1..], key, k)
  }

  lemma SortedCons<T>(h: T, t: seq<T>, key: T -> int)
    requires SortedBy(t, key)
    requires |t| == 0 || key(h) <= key(t[0])
    ensures SortedBy([h] + t, key)
  {
    var s := [h] + t;
    forall i, j | 0 <= i < j < |s| ensures key(s[i]) <= key(s[j]) {
      if i == 0 {
        assert s[j] == t[j - 1];
        assert key(t[0]) <= key(t[j - 1]) || j == 1;
      } else {
        assert s[i] == t[i - 1] && s[j] == t[j - 1];
      }
    }
  }

  lemma SortedTail<T>(s: seq<T>, key: T -> int)
    requires |s| > 0 && SortedBy(s, key)
    ensures SortedBy(s[1..], key)
    ensures forall j :: 0 <= j < |s| ==> key(s[0]) <= key(s[j])
  {
    forall i, j | 0 <= i < j < |s[1..]| ensures key(s[1..][i]) <= key(s[1..][j]) {
      assert s[1..][i] == s[i + 1] && s[1..][j] == s[j + 1];
    }
  }

  function Insert<T>(x: T, s: seq<T>, key: T -> int): (r: seq<T>)
    ensures |r| == |s| + 1
    ensures multiset(r) == multiset(s) + multiset{x}
    ensures r[0] == x || (|s| > 0 && r[0] == s[0])
  {
    if |s| == 0 || key(x) <= key(s[0]) then [x] + s
    else
      assert s == [s[0]] + s[1..];
      [s[0]] + Insert(x, s[1..], key)
  }

  lemma {:induction false} InsertSorted<T>(x: T, s: seq<T>, key: T -> int)
    requires SortedBy(s, key)
    ensures SortedBy(Insert(x, s, key), key)
  {
    if |s| == 0 || key(x) <= key(s[0]) {
      SortedCons(x, s, key);
    } else {
      SortedTail(s, key);
      InsertSorted(x, s[1..], key);
      SortedCons(s[0], Insert(x, s[1..], key), key);
    }
  }

  function SortBy<T>(s: seq<T>, key: T -> int): (r: seq<T>)
    ensures multiset(r) == multiset(s)
    ensures |r| == |s|
  {
    if |s| == 0 then []
    else
      assert s == [s[0]] + s[1..];
      Insert(s[0], SortBy(s[1..], key), key)
  }

  /** The result of `SortBy` is in ascending key order. */
  lemma {:induction false} SortByIsSorted<T>(s: seq<T>, key: T -> int)
    ensures SortedBy(SortBy(s, key), key)
  {
    if |s| > 0 {
      SortByIsSorted(s[1..], key);
      InsertSorted(s[0], SortBy(s[1..], key), key);
    }
  }

  lemma {:induction false} InsertWithKey<T>(x: T, s: seq<T>, key: T -> int, k: int)
    requires SortedBy(s, key)
    ensures WithKey(Insert(x, s, key), key, k)
         == (if key(x) == k then [x] else []) + WithKey(s, key, k)
  {
    if |s| == 0 || key(x) <= key(s[0]) {
      assert ([x] + s)[1..] == s;
    } else {
      var rest := Insert(x, s[1..], key);
      var r := [s[0]] + rest;
      assert r[0] == s[0] && r[1..] == rest;
      var head := if key(s[0]) == k then [s[0]] else [];
      var mine := if key(x) == k then [x] else [];
      assert WithKey(r, key, k) == head + WithKey(rest, key, k);
      assert WithKey(s, key, k) == head + WithKey(s[1..], key, k);
      SortedTail(s, key);
      InsertWithKey(x, s[1..], key, k);
      assert WithKey(rest, key, k) == mine + WithKey(s[1..], key, k);
      assert key(x) == k ==> head == [];
    }
  }

  /**
   * Stability: for every key value, the elements with that key appear in the
   * sorted result in the same relative order as in the input.
   */
  lemma {:induction false} SortByIsStable<T>(s: seq<T>, key: T -> int, k: int)
    ensures WithKey(SortBy(s, key), key, k) == WithKey(s, key, k)
  {
    if |s| > 0 {
      SortByIsStable(s[1..], key, k);
      SortByIsSorted(s[1..], key);
      InsertWithKey(s[0], SortBy(s[1..], key), key, k);
    }
  }
}
