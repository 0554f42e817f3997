/** Kotlin's `filter`, `sortedBy` and `sortedByDescending` on lists, as pure
    functions on sequences.  Kotlin's sort is stable, so it is modelled by a
    stable insertion sort driven by a "less than or equal" comparison `le`. */
module Sorting {

  /** `le` is total and transitive on the elements of `s`. */
  ghost predicate Preorder<T>(s: seq<T>, le: (T, T) -> bool)
  {
    && (forall a, b | a in s && b in s :: le(a, b) || le(b, a))
    && (forall a, b, c | a in s && b in s && c in s :: le(a, b) && le(b, c) ==> le(a, c))
  }

  /** Non-decreasing under `le`. */
  ghost predicate Sorted<T>(s: seq<T>, le: (T, T) -> bool)
  {
    forall i, j | 0 <= i < j < |s| :: le(s[i], s[j])
  }

  /** `r` is `s` with some elements left out and the rest in their order. */
  ghost predicate Subsequence<T>(r: seq<T>, s: seq<T>)
  {
    if r == [] then true
    else if s == [] then false
    else (r[0] == s[0] && Subsequence(r[1..], s[1..])) || Subsequence(r, s[1..])
  }

  /** Kotlin `filter`: the elements that satisfy `p`, in their order. */
  function Filter<T>(s: seq<T>, p: T -> bool): (r: seq<T>)
    ensures |r| <= |s|
    ensures forall x | x in r :: x in s && p(x)
    ensures forall x | x in s && p(x) :: x in r
  {
    if s == [] then []
    else if p(s[0]) then [s[0]] + Filter(s[1..], p)
    else Filter(s[1..], p)
  }

  /** What `filter` keeps is the input with some elements left out, in order. */
  lemma {:induction false} FilterSubsequence<T>(s: seq<T>, p: T -> bool)
    ensures Subsequence(Filter(s, p), s)
    ensures multiset(Filter(s, p)) <= multiset(s)
  {
    if s != [] {
      FilterSubsequence(s[1..], p);
      assert s == [s[0]] + s[1..];
      var r := Filter(s, p);
      if p(s[0]) {
        assert r[0] == s[0] && r[1..] == Filter(s[1..], p);
      }
    }
  }

  /** Element-wise image of a sequence. */
  function Map<T, U>(f: T -> U, s: seq<T>): (r: seq<U>)
    ensures |r| == |s|
    ensures forall i | 0 <= i < |s| :: r[i] == f(s[i])
  {
    if s == [] then [] else [f(s[0])] + Map(f, s[1..])
  }

  /** Places `x` before the first element it is `le` to: elements tied with
      `x` stay after it, which is what makes the sort stable. */
  function Insert<T>(x: T, s: seq<T>, le: (T, T) -> bool): (r: seq<T>)
    ensures multiset(r) == multiset(s) + multiset{x}
    ensures |r| == |s| + 1
  {
    if s == [] then [x]
    else if le(x, s[0]) then [x] + s
    else
      assert s == [s[0]] + s[1..];
      [s[0]] + Insert(x, s[1..], le)
  }

  /** Kotlin `sortedBy` (with `le` comparing the keys by `<=`) and
      `sortedByDescending` (with `le` comparing them by `>=`). */
  function SortBy<T>(s: seq<T>, le: (T, T) -> bool): (r: seq<T>)
    ensures multiset(r) == multiset(s)
    ensures |r| == |s|
  {
    if s == [] then []
    else
      assert s == [s[0]] + s[1..];
      Insert(s[0], SortBy(s[1..], le), le)
  }

  /** The test "is tied with `x` under `le`". */
  function TiedWith<T>(x: T, le: (T, T) -> bool): T -> bool
  {
    y => le(x, y) && le(y, x)
  }

  /** The elements of `s` tied with `x` under `le`, in the order of `s`. */
  function Peers<T>(s: seq<T>, x: T, le: (T, T) -> bool): seq<T>
  {
    Filter(s, TiedWith(x, le))
  }

  // ---------------------------------------------------------------------------
  // Filter

  lemma {:induction false} FilterAppend<T>(a: seq<T>, b: seq<T>, p: T -> bool)
    ensures Filter(a + b, p) == Filter(a, p) + Filter(b, p)
  {
    if a == [] {
      assert a + b == b;
    } else {
      assert (a + b)[0] == a[0];
      assert (a + b)[1..] == a[1..] + b;
      FilterAppend(a[1..], b, p);
    }
  }

  /** Filtering with `p` and then with `q` keeps exactly what one filter by
      "`p` and `q`" keeps, in the same order. */
  lemma {:induction false} FilterFilter<T>(s: seq<T>, p: T -> bool, q: T -> bool, both: T -> bool)
    requires forall x | x in s :: both(x) == (p(x) && q(x))
    ensures Filter(Filter(s, p), q) == Filter(s, both)
  {
    if s != [] {
      FilterFilter(s[1..], p, q, both);
    }
  }

  /** A filter that every element passes changes nothing. */
  lemma {:induction false} FilterKeepsAll<T>(s: seq<T>, p: T -> bool)
    requires forall x | x in s :: p(x)
    ensures Filter(s, p) == s
  {
    if s != [] {
      FilterKeepsAll(s[1..], p);
    }
  }

  // ---------------------------------------------------------------------------
  // Sortedness

  lemma PreorderOfSubset<T>(s: seq<T>, t: seq<T>, le: (T, T) -> bool)
    requires Preorder(s, le)
    requires forall a | a in t :: a in s
    ensures Preorder(t, le)
  {
  }

  lemma {:induction false} InsertSorted<T>(x: T, s: seq<T>, le: (T, T) -> bool)
    requires Preorder([x] + s, le)
    requires Sorted(s, le)
    ensures Sorted(Insert(x, s, le), le)
  {
    if s == [] {
    } else if le(x, s[0]) {
      var r := [x] + s;
      forall i, j | 0 <= i < j < |r| ensures le(r[i], r[j]) {
        if i == 0 {
          assert r[j] in [x] + s && s[0] in [x] + s && x in [x] + s;
          if j > 1 {
            assert le(s[0], r[j]);
          }
        }
      }
    } else {
      var t := s[1..];
      PreorderOfSubset([x] + s, [x] + t, le);
      InsertSorted(x, t, le);
      var rest := Insert(x, t, le);
      var r := [s[0]] + rest;
      assert x in [x] + s && s[0] in [x] + s;
      assert le(s[0], x);
      forall i, j | 0 <= i < j < |r| ensures le(r[i], r[j]) {
        if i == 0 {
          assert r[j] in multiset(rest);
          assert r[j] == x || r[j] in t;
          if r[j] != x {
            var k :| 0 <= k < |t| && t[k] == r[j];
            assert s[k + 1] == r[j];
          }
        } else {
          assert r[i] == rest[i - 1] && r[j] == rest[j - 1];
        }
      }
    }
  }

  /** `SortBy` returns its input in non-decreasing order. */
  lemma {:induction false} SortBySorted<T>(s: seq<T>, le: (T, T) -> bool)
    requires Preorder(s, le)
    ensures Sorted(SortBy(s, le), le)
  {
    if s != [] {
      PreorderOfSubset(s, s[1..], le);
      SortBySorted(s[1..], le);
      var sorted := SortBy(s[1..], le);
      forall a | a in [s[0]] + sorted ensures a in s {
        if a != s[0] {
          assert a in multiset(sorted);
        }
      }
      PreorderOfSubset(s, [s[0]] + sorted, le);
      InsertSorted(s[0], sorted, le);
    }
  }

  // ---------------------------------------------------------------------------
  // Stability

  lemma {:induction false} PeersInsert<T>(x: T, s: seq<T>, z: T, le: (T, T) -> bool)
    requires Preorder(s + [x, z], le)
    ensures Peers(Insert(x, s, le), z, le)
         == (if le(z, x) && le(x, z) then [x] else []) + Peers(s, z, le)
  {
    if s == [] {
    } else if le(x, s[0]) {
      assert Insert(x, s, le) == [x] + s;
      FilterAppend([x], s, TiedWith(z, le));
    } else {
      var t := s[1..];
      PreorderOfSubset(s + [x, z], t + [x, z], le);
      PeersInsert(x, t, z, le);
      assert Insert(x, s, le) == [s[0]] + Insert(x, t, le);
      FilterAppend([s[0]], Insert(x, t, le), TiedWith(z, le));
      FilterAppend([s[0]], t, TiedWith(z, le));
      assert s == [s[0]] + t;
      var h := s[0];
      if le(z, x) && le(x, z) {
        // h sorts strictly before x, so it cannot be tied with z
        assert x in s + [x, z] && z in s + [x, z] && h in s + [x, z];
        assert !(le(z, h) && le(h, z));
      }
    }
  }

  /** Stability: the elements tied with any `z` appear in the output in
      exactly the order they had in the input. */
  lemma {:induction false} SortByStable<T>(s: seq<T>, z: T, le: (T, T) -> bool)
    requires Preorder(s + [z], le)
    ensures Peers(SortBy(s, le), z, le) == Peers(s, z, le)
  {
    if s != [] {
      var t := s[1..];
      assert s == [s[0]] + t;
      PreorderOfSubset(s + [z], t + [z], le);
      SortByStable(t, z, le);
      var sorted := SortBy(t, le);
      forall a | a in sorted + [s[0], z] ensures a in s + [z] {
        if a in sorted {
          assert a in multiset(sorted);
        }
      }
      PreorderOfSubset(s + [z], sorted + [s[0], z], le);
      PeersInsert(s[0], sorted, z, le);
      assert SortBy(s, le) == Insert(s[0], sorted, le);
      FilterAppend([s[0]], t, TiedWith(z, le));
      assert Peers([s[0]], z, le) == (if le(z, s[0]) && le(s[0], z) then [s[0]] else []);
    }
  }

  // ---------------------------------------------------------------------------
  // Sorting commutes with filtering and with mapping

  lemma SortedTail<T>(s: seq<T>, le: (T, T) -> bool)
    requires Sorted(s, le) && s != []
    ensures Sorted(s[1..], le)
    ensures forall y | y in s[1..] :: le(s[0], y)
  {
    forall y | y in s[1..] ensures le(s[0], y) {
      var k :| 0 <= k < |s| - 1 && s[1..][k] == y;
      assert s[k + 1] == y;
    }
  }

  lemma {:induction false} FilterInsert<T>(x: T, s: seq<T>, le: (T, T) -> bool, p: T -> bool)
    requires Preorder([x] + s, le)
    requires Sorted(s, le)
    ensures Filter(Insert(x, s, le), p)
         == if p(x) then Insert(x, Filter(s, p), le) else Filter(s, p)
  {
    if s == [] {
    } else if le(x, s[0]) {
      SortedTail(s, le);
      var f := Filter(s, p);
      if p(x) && f != [] {
        assert f[0] in s;
        assert x in [x] + s && s[0] in [x] + s && f[0] in [x] + s;
        if f[0] != s[0] {
          assert f[0] in s[1..];
          assert le(s[0], f[0]);
        }
        assert le(x, f[0]);
      }
    } else {
      SortedTail(s, le);
      PreorderOfSubset([x] + s, [x] + s[1..], le);
      FilterInsert(x, s[1..], le, p);
    }
  }

  /** Sorting and then filtering gives what filtering and then sorting gives. */
  lemma {:induction false} FilterSortBy<T>(s: seq<T>, le: (T, T) -> bool, p: T -> bool)
    requires Preorder(s, le)
    ensures Filter(SortBy(s, le), p) == SortBy(Filter(s, p), le)
  {
    if s != [] {
      PreorderOfSubset(s, s[1..], le);
      FilterSortBy(s[1..], le, p);
      SortBySorted(s[1..], le);
      var sorted := SortBy(s[1..], le);
      forall a | a in [s[0]] + sorted ensures a in s {
        if a != s[0] {
          assert a in multiset(sorted);
        }
      }
      PreorderOfSubset(s, [s[0]] + sorted, le);
      FilterInsert(s[0], sorted, le, p);
    }
  }

  lemma {:induction false} MapInsert<T, U>(x: T, s: seq<T>, le: (T, T) -> bool, f: T -> U, leU: (U, U) -> bool)
    requires forall a, b | a in [x] + s && b in [x] + s :: le(a, b) == leU(f(a), f(b))
    ensures Map(f, Insert(x, s, le)) == Insert(f(x), Map(f, s), leU)
  {
    if s != [] {
      assert x in [x] + s && s[0] in [x] + s;
      assert Map(f, s)[0] == f(s[0]);
      assert Map(f, s)[1..] == Map(f, s[1..]);
      if !le(x, s[0]) {
        MapInsert(x, s[1..], le, f, leU);
      }
    }
  }

  /** Sorting objects by a key and then taking an image that keeps the key
      gives the image sorted by that key. */
  lemma {:induction false} MapSortBy<T, U>(s: seq<T>, le: (T, T) -> bool, f: T -> U, leU: (U, U) -> bool)
    requires forall a, b | a in s && b in s :: le(a, b) == leU(f(a), f(b))
    ensures Map(f, SortBy(s, le)) == SortBy(Map(f, s), leU)
  {
    if s != [] {
      MapSortBy(s[1..], le, f, leU);
      var sorted := SortBy(s[1..], le);
      forall a | a in [s[0]] + sorted ensures a in s {
        if a != s[0] {
          assert a in multiset(sorted);
        }
      }
      MapInsert(s[0], sorted, le, f, leU);
      assert Map(f, s)[1..] == Map(f, s[1..]);
    }
  }

  // ---------------------------------------------------------------------------
  // Keys

  /** No two elements of `s` share a key. */
  ghost predicate UniqueBy<T, K>(s: seq<T>, key: T -> K)
  {
    forall i, j | 0 <= i < j < |s| :: key(s[i]) != key(s[j])
  }

  /** Appending an element whose key is new keeps the keys unique. */
  lemma UniqueBySnoc<T, K>(s: seq<T>, x: T, key: T -> K)
    requires UniqueBy(s, key)
    requires forall y | y in s :: key(y) != key(x)
    ensures UniqueBy(s + [x], key)
  {
    forall i, j | 0 <= i < j < |s + [x]| ensures key((s + [x])[i]) != key((s + [x])[j]) {
      if j == |s| {
        assert (s + [x])[i] == s[i];
      }
    }
  }

  lemma UniqueByCons<T, K>(x: T, s: seq<T>, key: T -> K)
    requires UniqueBy(s, key)
    requires forall y | y in s :: key(y) != key(x)
    ensures UniqueBy([x] + s, key)
  {
    var r := [x] + s;
    forall i, j | 0 <= i < j < |r| ensures key(r[i]) != key(r[j]) {
      assert r[j] == s[j - 1];
      if i > 0 {
        assert r[i] == s[i - 1];
      }
    }
  }

  lemma UniqueByTail<T, K>(s: seq<T>, key: T -> K)
    requires UniqueBy(s, key) && s != []
    ensures UniqueBy(s[1..], key)
    ensures forall y | y in s[1..] :: key(y) != key(s[0])
  {
    var t := s[1..];
    forall i, j | 0 <= i < j < |t| ensures key(t[i]) != key(t[j]) {
      assert t[i] == s[i + 1] && t[j] == s[j + 1];
    }
    forall y | y in t ensures key(y) != key(s[0]) {
      var k :| 0 <= k < |t| && t[k] == y;
      assert s[k + 1] == y;
    }
  }

  lemma {:induction false} InsertUniqueBy<T, K>(x: T, s: seq<T>, le: (T, T) -> bool, key: T -> K)
    requires UniqueBy(s, key)
    requires forall y | y in s :: key(y) != key(x)
    ensures UniqueBy(Insert(x, s, le), key)
  {
    if s == [] {
      UniqueByCons(x, s, key);
    } else if le(x, s[0]) {
      assert Insert(x, s, le) == [x] + s;
      UniqueByCons(x, s, key);
    } else {
      var t := Insert(x, s[1..], le);
      UniqueByTail(s, key);
      assert forall y | y in s[1..] :: y in s;
      InsertUniqueBy(x, s[1..], le, key);
      forall y | y in t ensures key(y) != key(s[0]) {
        assert y in multiset(s[1..]) + multiset{x};
      }
      assert Insert(x, s, le) == [s[0]] + t;
      UniqueByCons(s[0], t, key);
    }
  }

  /** Sorting keeps the keys unique. */
  lemma {:induction false} SortByUniqueBy<T, K>(s: seq<T>, le: (T, T) -> bool, key: T -> K)
    requires UniqueBy(s, key)
    ensures UniqueBy(SortBy(s, le), key)
  {
    if s != [] {
      var sorted := SortBy(s[1..], le);
      SortByUniqueBy(s[1..], le, key);
      forall y | y in sorted ensures key(y) != key(s[0]) {
        assert y in multiset(s[1..]);
        var j :| 0 <= j < |s[1..]| && s[1..][j] == y;
        assert s[j + 1] == y;
      }
      InsertUniqueBy(s[0], sorted, le, key);
    }
  }
}
