/**
 * The array operations the core uses: `filter`, `slice(0, n)` and
 * `Array.prototype.sort` with a comparator.  The engine's sort is modelled
 * as an insertion sort that places each element after every earlier one it
 * does not compare below, which is a stable sort; for a comparator of the
 * form `key(a) - key(b)` its output is sorted by `key` and keeps the original
 * order among equal keys, as the standard requires of a stable sort.
 */
module Seqs {

  /** `s.filter(p)`. */
  function Filter<T>(s: seq<T>, p: T -> bool): (r: seq<T>)
    ensures |r| <= |s|
    ensures forall i :: 0 <= i < |r| ==> p(r[i])
    decreases |s|
  {
    if s == [] then [] else Filter(s[..|s| - 1], p) + (if p(s[|s| - 1]) then [s[|s| - 1]] else [])
  }

  /**
   * What `filter` means, independently of how it is computed: it maps the
   * empty list to itself, keeps or drops a single element according to `p`,
   * and distributes over concatenation (so the kept elements stay in order);
   * an element is in the result exactly when it is in `s` and satisfies `p`.
   */
  lemma {:induction false} FilterMeaning<T>(s: seq<T>, p: T -> bool)
    ensures Filter([], p) == []
    ensures forall x :: Filter([x], p) == if p(x) then [x] else []
    ensures forall a, b :: Filter(a + b, p) == Filter(a, p) + Filter(b, p)
    ensures forall x :: x in Filter(s, p) <==> x in s && p(x)
    ensures (forall i :: 0 <= i < |s| ==> p(s[i])) ==> Filter(s, p) == s
  {
    forall x ensures Filter([x], p) == if p(x) then [x] else [] {
      assert [x][..0] == [];
    }
    forall a, b ensures Filter(a + b, p) == Filter(a, p) + Filter(b, p) {
      FilterAppend(a, b, p);
    }
    FilterMembers(s, p);
  }

  lemma {:induction false} FilterMembers<T>(s: seq<T>, p: T -> bool)
    ensures forall x :: x in Filter(s, p) <==> x in s && p(x)
    ensures (forall i :: 0 <= i < |s| ==> p(s[i])) ==> Filter(s, p) == s
    decreases |s|
  {
    if s != [] {
      var init := s[..|s| - 1];
      var last := s[|s| - 1];
      FilterMembers(init, p);
      assert s == init + [last];
      forall x ensures x in s <==> x in init || x == last {
      }
    }
  }

  lemma {:induction false} FilterAppend<T>(a: seq<T>, b: seq<T>, p: T -> bool)
    ensures Filter(a + b, p) == Filter(a, p) + Filter(b, p)
    decreases |b|
  {
    if b == [] {
      assert a + b == a;
    } else {
      var init := b[..|b| - 1];
      var last := b[|b| - 1];
      FilterAppend(a, init, p);
      assert (a + b)[..|a + b| - 1] == a + init;
      assert (a + b)[|a + b| - 1] == last;
      var tail := if p(last) then [last] else [];
      assert Filter(a + b, p) == Filter(a + init, p) + tail;
      assert Filter(b, p) == Filter(init, p) + tail;
      assert Filter(a, p) + Filter(init, p) + tail == Filter(a, p) + (Filter(init, p) + tail);
    }
  }

  /** `s.slice(0, n)`. */
  function Take<T>(s: seq<T>, n: nat): (r: seq<T>)
    ensures |r| == if |s| <= n then |s| else n
    ensures r == s[..|r|]
  {
    if |s| <= n then s else s[..n]
  }

  /** Places `x` after the last element of the sorted `t` that does not compare above it. */
  function Insert<T>(t: seq<T>, x: T, cmp: (T, T) -> int): (r: seq<T>)
    ensures |r| == |t| + 1
    ensures multiset(r) == multiset(t) + multiset{x}
    decreases |t|
  {
    if t == [] || cmp(t[|t| - 1], x) <= 0 then t + [x]
    else
      assert t == t[..|t| - 1] + [t[|t| - 1]];
      Insert(t[..|t| - 1], x, cmp) + [t[|t| - 1]]
  }

  /** `s.sort(cmp)`: a stable sort that only ever asks whether `cmp` is positive. */
  function SortWith<T>(s: seq<T>, cmp: (T, T) -> int): (r: seq<T>)
    ensures |r| == |s|
    ensures multiset(r) == multiset(s)
    decreases |s|
  {
    if s == [] then []
    else
      assert s == s[..|s| - 1] + [s[|s| - 1]];
      Insert(SortWith(s[..|s| - 1], cmp), s[|s| - 1], cmp)
  }

  /**
   * The comparator orders as `key` does: `cmp(a, b) <= 0`, the only test the
   * sort makes, holds exactly when `key(a) <= key(b)`.
   */
  ghost predicate KeyedBy<T(!new)>(cmp: (T, T) -> int, key: T -> int) {
    forall a, b :: cmp(a, b) <= 0 <==> key(a) <= key(b)
  }

  /** Non-decreasing by key. */
  ghost predicate SortedBy<T>(s: seq<T>, key: T -> int) {
    forall i, j :: 0 <= i < j < |s| ==> key(s[i]) <= key(s[j])
  }

  /** The elements whose key is `k`, in order: a stable sort must leave this unchanged for every `k`. */
  function WithKey<T>(s: seq<T>, key: T -> int, k: int): seq<T>
    decreases |s|
  {
    if s == [] then [] else WithKey(s[..|s| - 1], key, k) + (if key(s[|s| - 1]) == k then [s[|s| - 1]] else [])
  }

  lemma WithKeyAppend<T>(s: seq<T>, x: T, key: T -> int, k: int)
    ensures WithKey(s + [x], key, k) == WithKey(s, key, k) + (if key(x) == k then [x] else [])
  {
    assert (s + [x])[..|s|] == s;
  }

  /** `Insert` adds `x` and nothing else. */
  lemma {:induction false} InsertMembers<T>(t: seq<T>, x: T, cmp: (T, T) -> int)
    ensures forall z :: z in Insert(t, x, cmp) ==> z == x || z in t
    decreases |t|
  {
    if !(t == [] || cmp(t[|t| - 1], x) <= 0) {
      InsertMembers(t[..|t| - 1], x, cmp);
      assert t == t[..|t| - 1] + [t[|t| - 1]];
    }
  }

  /** Every element of the inserted sequence stays below a bound that `x` and all of `t` stay below. */
  lemma InsertBounded<T>(t: seq<T>, x: T, cmp: (T, T) -> int, key: T -> int, bound: int)
    requires forall i :: 0 <= i < |t| ==> key(t[i]) <= bound
    requires key(x) <= bound
    ensures forall i :: 0 <= i < |Insert(t, x, cmp)| ==> key(Insert(t, x, cmp)[i]) <= bound
  {
    var u := Insert(t, x, cmp);
    InsertMembers(t, x, cmp);
    forall i | 0 <= i < |u| ensures key(u[i]) <= bound {
      assert u[i] in u;
      if u[i] != x {
        var j :| 0 <= j < |t| && t[j] == u[i];
      }
    }
  }

  lemma SortedAppend<T>(u: seq<T>, y: T, key: T -> int)
    requires SortedBy(u, key)
    requires forall i :: 0 <= i < |u| ==> key(u[i]) <= key(y)
    ensures SortedBy(u + [y], key)
  {
    var v := u + [y];
    forall i, j | 0 <= i < j < |v| ensures key(v[i]) <= key(v[j]) {
      assert v[i] == u[i];
      if j < |u| {
        assert v[j] == u[j];
      }
    }
  }

  lemma {:induction false} InsertSorted<T(!new)>(t: seq<T>, x: T, cmp: (T, T) -> int, key: T -> int)
    requires KeyedBy(cmp, key) && SortedBy(t, key)
    ensures SortedBy(Insert(t, x, cmp), key)
    decreases |t|
  {
    if t == [] || cmp(t[|t| - 1], x) <= 0 {
      if t != [] {
        assert key(t[|t| - 1]) <= key(x);
        forall i | 0 <= i < |t| ensures key(t[i]) <= key(x) {
          assert key(t[i]) <= key(t[|t| - 1]);
        }
      }
      SortedAppend(t, x, key);
    } else {
      var init := t[..|t| - 1];
      var y := t[|t| - 1];
      assert key(x) < key(y);
      assert SortedBy(init, key);
      InsertSorted(init, x, cmp, key);
      var u := Insert(init, x, cmp);
      assert Insert(t, x, cmp) == u + [y];
      InsertBounded(init, x, cmp, key, key(y));
      SortedAppend(u, y, key);
    }
  }

  lemma {:induction false} InsertStable<T(!new)>(t: seq<T>, x: T, cmp: (T, T) -> int, key: T -> int, k: int)
    requires KeyedBy(cmp, key)
    ensures WithKey(Insert(t, x, cmp), key, k) == WithKey(t, key, k) + (if key(x) == k then [x] else [])
    decreases |t|
  {
    if t == [] || cmp(t[|t| - 1], x) <= 0 {
      WithKeyAppend(t, x, key, k);
    } else {
      var init := t[..|t| - 1];
      var y := t[|t| - 1];
      assert t == init + [y];
      assert key(x) < key(y);
      InsertStable(init, x, cmp, key, k);
      var u := Insert(init, x, cmp);
      assert Insert(t, x, cmp) == u + [y];
      WithKeyAppend(u, y, key, k);
      WithKeyAppend(init, y, key, k);
    }
  }

  /**
   * For a comparator that orders as `key` does, the sort's output is ordered by key and
   * is stable: the elements of each key keep their relative order.  With the
   * multiset equality of `SortWith` this says the output is the stable sort.
   */
  lemma {:induction false} SortWithStable<T(!new)>(s: seq<T>, cmp: (T, T) -> int, key: T -> int)
    requires KeyedBy(cmp, key)
    ensures SortedBy(SortWith(s, cmp), key)
    ensures forall k :: WithKey(SortWith(s, cmp), key, k) == WithKey(s, key, k)
    decreases |s|
  {
    if s != [] {
      var init := s[..|s| - 1];
      var last := s[|s| - 1];
      SortWithStable(init, cmp, key);
      InsertSorted(SortWith(init, cmp), last, cmp, key);
      forall k ensures WithKey(SortWith(s, cmp), key, k) == WithKey(s, key, k) {
        InsertStable(SortWith(init, cmp), last, cmp, key, k);
        assert s == init + [last];
        WithKeyAppend(init, last, key, k);
      }
    }
  }
}
