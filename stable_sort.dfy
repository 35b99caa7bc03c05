/**
 * `Array.prototype.sort` with a consistent comparator. The comparators in this
 * program subtract integer keys, first a major key and then, on a tie, a minor
 * key, so every sort is described by a key function into pairs ordered
 * lexicographically. ECMAScript requires the sort to be stable; insertion sort
 * is the reference definition.
 */
module StableSort {
  /** Lexicographic order on (major, minor) keys. */
  predicate KeyLe(a: (int, int), b: (int, int)) {
    a.0 < b.0 || (a.0 == b.0 && a.1 <= b.1)
  }

  predicate SortedBy<T>(s: seq<T>, key: T -> (int, int)) {
    forall i, j :: 0 <= i < j < |s| ==> KeyLe(key(s[i]), key(s[j]))
  }

  /** Places `x` after every element of `t` whose key is not above its own. */
  function Insert<T>(t: seq<T>, x: T, key: T -> (int, int)): (r: seq<T>)
    ensures |r| == |t| + 1
  {
    if t == [] then [x]
    else if KeyLe(key(t[|t| - 1]), key(x)) then t + [x]
    else Insert(t[..|t| - 1], x, key) + [t[|t| - 1]]
  }

  function SortBy<T>(s: seq<T>, key: T -> (int, int)): (r: seq<T>)
    ensures |r| == |s|
  {
    if s == [] then [] else Insert(SortBy(s[..|s| - 1], key), s[|s| - 1], key)
  }

  /** The elements of `s` whose key is `k`, in their order in `s`. */
  function WithKey<T>(s: seq<T>, key: T -> (int, int), k: (int, int)): seq<T> {
    if s == [] then []
    else WithKey(s[..|s| - 1], key, k) + (if key(s[|s| - 1]) == k then [s[|s| - 1]] else [])
  }

  lemma {:induction false} InsertPermutes<T>(t: seq<T>, x: T, key: T -> (int, int))
    ensures multiset(Insert(t, x, key)) == multiset(t) + multiset{x}
  {
    if t != [] && !KeyLe(key(t[|t| - 1]), key(x)) {
      InsertPermutes(t[..|t| - 1], x, key);
      assert t == t[..|t| - 1] + [t[|t| - 1]];
    }
  }

  lemma {:induction false} InsertSorted<T>(t: seq<T>, x: T, key: T -> (int, int))
    requires SortedBy(t, key)
    ensures SortedBy(Insert(t, x, key), key)
  {
    if t != [] && !KeyLe(key(t[|t| - 1]), key(x)) {
      var u := t[..|t| - 1];
      var last := t[|t| - 1];
      InsertSorted(u, x, key);
      InsertPermutes(u, x, key);
      var v := Insert(u, x, key);
      forall i | 0 <= i < |v| ensures KeyLe(key(v[i]), key(last)) {
        assert v[i] in multiset(v);
        if v[i] != x {
          assert v[i] in multiset(u);
          var j :| 0 <= j < |u| && u[j] == v[i];
          assert t[j] == v[i];
        }
      }
    }
  }

  lemma {:induction false} InsertWithKey<T>(t: seq<T>, x: T, key: T -> (int, int), k: (int, int))
    requires SortedBy(t, key)
    ensures WithKey(Insert(t, x, key), key, k) == WithKey(t, key, k) + (if key(x) == k then [x] else [])
  {
    if t != [] && !KeyLe(key(t[|t| - 1]), key(x)) {
      var u := t[..|t| - 1];
      var last := t[|t| - 1];
      assert SortedBy(u, key);
      InsertWithKey(u, x, key, k);
      var v := Insert(u, x, key);
      assert Insert(t, x, key)[..|v|] == v;
      assert key(x) == k ==> key(last) != k;
    } else if t != [] {
      assert (t + [x])[..|t|] == t;
    }
  }

  /** The result is in key order. */
  lemma {:induction false} SortBySorted<T>(s: seq<T>, key: T -> (int, int))
    ensures SortedBy(SortBy(s, key), key)
  {
    if s != [] {
      SortBySorted(s[..|s| - 1], key);
      InsertSorted(SortBy(s[..|s| - 1], key), s[|s| - 1], key);
    }
  }

  /** The result is a permutation of the input. */
  lemma {:induction false} SortByPermutes<T>(s: seq<T>, key: T -> (int, int))
    ensures multiset(SortBy(s, key)) == multiset(s)
  {
    if s != [] {
      SortByPermutes(s[..|s| - 1], key);
      InsertPermutes(SortBy(s[..|s| - 1], key), s[|s| - 1], key);
      assert s == s[..|s| - 1] + [s[|s| - 1]];
    }
  }

  /** Stability: elements with equal keys keep their relative order. */
  lemma {:induction false} SortByStable<T>(s: seq<T>, key: T -> (int, int), k: (int, int))
    ensures WithKey(SortBy(s, key), key, k) == WithKey(s, key, k)
  {
    if s != [] {
      SortByStable(s[..|s| - 1], key, k);
      SortBySorted(s[..|s| - 1], key);
      InsertWithKey(SortBy(s[..|s| - 1], key), s[|s| - 1], key, k);
    }
  }

  /** Sorting input that is already in key order changes nothing. */
  lemma {:induction false} SortBySortedInput<T>(s: seq<T>, key: T -> (int, int))
    requires SortedBy(s, key)
    ensures SortBy(s, key) == s
  {
    if s != [] {
      var u := s[..|s| - 1];
      assert SortedBy(u, key);
      SortBySortedInput(u, key);
      if |u| > 0 {
        assert KeyLe(key(u[|u| - 1]), key(s[|s| - 1]));
      }
      assert u + [s[|s| - 1]] == s;
    }
  }
}
