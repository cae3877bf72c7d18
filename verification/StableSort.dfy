/** A stable sort by descending integer key, as `list.sort(key=..., reverse=True)`
    and `Array.prototype.sort` provide it. */
module StableSort {

  function Insert<T>(s: seq<T>, x: T, key: T -> int): seq<T> {
    if s == [] || key(s[|s| - 1]) >= key(x) then s + [x]
    else Insert(s[..|s| - 1], x, key) + [s[|s| - 1]]
  }

  function Sort<T>(s: seq<T>, key: T -> int): seq<T> {
    if s == [] then [] else Insert(Sort(s[..|s| - 1], key), s[|s| - 1], key)
  }

  ghost predicate Descending<T>(s: seq<T>, key: T -> int) {
    forall i, j | 0 <= i < j < |s| :: key(s[i]) >= key(s[j])
  }

  /** The elements with one key, in order. */
  ghost function WithKey<T>(s: seq<T>, key: T -> int, k: int): seq<T> {
    if s == [] then []
    else WithKey(s[..|s| - 1], key, k) + if key(s[|s| - 1]) == k then [s[|s| - 1]] else []
  }

  lemma {:induction false} InsertMembers<T>(s: seq<T>, x: T, key: T -> int)
    ensures multiset(Insert(s, x, key)) == multiset(s) + multiset{x}
    decreases |s|
  {
    if s != [] && key(s[|s| - 1]) < key(x) {
      InsertMembers(s[..|s| - 1], x, key);
      assert s == s[..|s| - 1] + [s[|s| - 1]];
    }
  }

  lemma {:induction false} SortMembers<T>(s: seq<T>, key: T -> int)
    ensures multiset(Sort(s, key)) == multiset(s) && |Sort(s, key)| == |s|
    decreases |s|
  {
    if s != [] {
      var front := s[..|s| - 1];
      SortMembers(front, key);
      InsertMembers(Sort(front, key), s[|s| - 1], key);
      assert s == front + [s[|s| - 1]];
      assert |Sort(s, key)| == |multiset(Sort(s, key))| == |multiset(s)| == |s|;
    }
  }

  lemma {:induction false} InsertDescends<T>(s: seq<T>, x: T, key: T -> int)
    requires Descending(s, key)
    ensures Descending(Insert(s, x, key), key)
    decreases |s|
  {
    if s != [] && key(s[|s| - 1]) < key(x) {
      var front, last := s[..|s| - 1], s[|s| - 1];
      InsertDescends(front, x, key);
      InsertMembers(front, x, key);
      var r := Insert(front, x, key);
      forall i | 0 <= i < |r| ensures key(r[i]) >= key(last) {
        assert r[i] in multiset(r);
        if r[i] != x {
          assert r[i] in multiset(front);
          var j :| 0 <= j < |front| && front[j] == r[i];
        }
      }
    }
  }

  lemma {:induction false} SortDescends<T>(s: seq<T>, key: T -> int)
    ensures Descending(Sort(s, key), key)
    decreases |s|
  {
    if s != [] {
      SortDescends(s[..|s| - 1], key);
      InsertDescends(Sort(s[..|s| - 1], key), s[|s| - 1], key);
    }
  }

  lemma WithKeySnoc<T>(s: seq<T>, x: T, key: T -> int, k: int)
    ensures WithKey(s + [x], key, k) == WithKey(s, key, k) + if key(x) == k then [x] else []
  {
    assert (s + [x])[..|s|] == s;
  }

  lemma {:induction false} InsertIsStable<T>(s: seq<T>, x: T, key: T -> int, k: int)
    requires Descending(s, key)
    ensures WithKey(Insert(s, x, key), key, k) == WithKey(s, key, k) + if key(x) == k then [x] else []
    decreases |s|
  {
    if s == [] || key(s[|s| - 1]) >= key(x) {
      WithKeySnoc(s, x, key, k);
    } else {
      var front, last := s[..|s| - 1], s[|s| - 1];
      InsertIsStable(front, x, key, k);
      WithKeySnoc(Insert(front, x, key), last, key, k);
    }
  }

  /** Elements with equal keys keep their order. */
  lemma {:induction false} SortIsStable<T>(s: seq<T>, key: T -> int, k: int)
    ensures WithKey(Sort(s, key), key, k) == WithKey(s, key, k)
    decreases |s|
  {
    if s != [] {
      var front := s[..|s| - 1];
      SortIsStable(front, key, k);
      SortDescends(front, key);
      InsertIsStable(Sort(front, key), s[|s| - 1], key, k);
    }
  }

  lemma {:induction false} WithKeyFinds<T>(s: seq<T>, key: T -> int, k: int)
    ensures WithKey(s, key, k) != [] <==> exists i :: 0 <= i < |s| && key(s[i]) == k
    decreases |s|
  {
    if s != [] {
      var front, last := s[..|s| - 1], s[|s| - 1];
      WithKeyFinds(front, key, k);
      if i :| 0 <= i < |front| && key(front[i]) == k {
        assert key(s[i]) == k;
      }
      if i :| 0 <= i < |s| && key(s[i]) == k {
        if i < |front| { assert key(front[i]) == k; }
      }
    }
  }

  /** The smallest key of a descending sequence is the one it ends with. */
  lemma LastKeyIsSmallest<T>(a: seq<T>, b: seq<T>, key: T -> int)
    requires Descending(b, key) && a != [] && b != []
    requires forall k :: WithKey(a, key, k) == WithKey(b, key, k)
    ensures key(b[|b| - 1]) <= key(a[|a| - 1])
  {
    hide WithKey;
    var k := key(a[|a| - 1]);
    WithKeyFinds(a, key, k);
    WithKeyFinds(b, key, k);
    assert WithKey(a, key, k) == WithKey(b, key, k);
    var i :| 0 <= i < |b| && key(b[i]) == k;
  }

  lemma EmptyTogether<T>(a: seq<T>, b: seq<T>, key: T -> int)
    requires forall k :: WithKey(a, key, k) == WithKey(b, key, k)
    ensures a == [] ==> b == []
  {
    hide WithKey;
    if b != [] {
      WithKeyFinds(a, key, key(b[0]));
      WithKeyFinds(b, key, key(b[0]));
      assert WithKey(a, key, key(b[0])) == WithKey(b, key, key(b[0]));
    }
  }

  /** A descending arrangement that keeps the order of equal keys is unique, so
      any stable sort computes what Sort does. */
  lemma {:induction false} StableOrderIsUnique<T>(a: seq<T>, b: seq<T>, key: T -> int)
    requires Descending(a, key) && Descending(b, key) && forall k :: WithKey(a, key, k) == WithKey(b, key, k)
    ensures a == b
    decreases |a|
  {
    hide WithKey;
    EmptyTogether(a, b, key);
    EmptyTogether(b, a, key);
    if a != [] {
      LastKeyIsSmallest(a, b, key);
      LastKeyIsSmallest(b, a, key);
      var x, y, fa, fb := a[|a| - 1], b[|b| - 1], a[..|a| - 1], b[..|b| - 1];
      assert a == fa + [x] && b == fb + [y];
      forall k ensures WithKey(fa, key, k) == WithKey(fb, key, k) && (k == key(x) ==> x == y) {
        WithKeySnoc(fa, x, key, k);
        WithKeySnoc(fb, y, key, k);
        assert WithKey(a, key, k) == WithKey(b, key, k);
        if k == key(x) {
          SnocInjective(WithKey(fa, key, k), x, WithKey(fb, key, k), y);
        } else {
          assert WithKey(fa, key, k) + [] == WithKey(fa, key, k) && WithKey(fb, key, k) + [] == WithKey(fb, key, k);
        }
      }
      assert WithKey(fa, key, key(x)) == WithKey(fb, key, key(x));
      StableOrderIsUnique(fa, fb, key);
    }
  }

  lemma SnocInjective<T>(s: seq<T>, x: T, t: seq<T>, y: T)
    requires s + [x] == t + [y]
    ensures s == t && x == y
  {
    assert |s| == |t|;
    assert (s + [x])[..|s|] == s && (t + [y])[..|t|] == t;
    assert (s + [x])[|s|] == x && (t + [y])[|t|] == y;
  }
}
