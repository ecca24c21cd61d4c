/** `Array.prototype.sort` with a consistent numeric comparator, as ECMA-262 (10th
    edition, section 22.1.3.27) requires it: the result is ordered by the comparator
    and stable, i.e. elements the comparator ties keep their original relative order.
    The comparator here is `(a, b) => key(a) - key(b)`. `Sort` is one algorithm that
    meets those requirements (insertion sort); `SortedStableIsUnique` shows that any
    result meeting them is `Sort`'s result, so the choice of algorithm is immaterial. */
module StableSort {

  /** Ascending by `key`. */
  predicate SortedBy<T>(s: seq<T>, key: T -> real)
  {
    forall i, j :: 0 <= i < j < |s| ==> key(s[i]) <= key(s[j])
  }

  /** The elements whose key is `v`, in their order in `s`. */
  function WithKey<T>(s: seq<T>, key: T -> real, v: real): (r: seq<T>)
    ensures |r| <= |s|
    ensures forall e :: e in r ==> e in s && key(e) == v
  {
    if s == [] then []
    else (if key(s[0]) == v then [s[0]] else []) + WithKey(s[1..], key, v)
  }

  /** Places `x` before the first element whose key is not smaller than its own. */
  function Insert<T>(x: T, s: seq<T>, key: T -> real): (r: seq<T>)
    requires SortedBy(s, key)
    ensures SortedBy(r, key)
    ensures multiset(r) == multiset(s) + multiset{x}
  {
    if s == [] || key(x) <= key(s[0]) then [x] + s
    else
      var rest := Insert(x, s[1..], key);
      assert forall i :: 0 <= i < |rest| ==> key(s[0]) <= key(rest[i]) by {
        forall i | 0 <= i < |rest|
          ensures key(s[0]) <= key(rest[i])
        {
          LeastOfSorted(x, s, rest, key, i);
        }
      }
      assert s == [s[0]] + s[1..];
      [s[0]] + rest
  }

  /** Every element of `Insert(x, s[1..], key)` is `x` or an element of `s[1..]`, so
      none has a key below that of `s`'s head when `x`'s key is above it. */
  lemma LeastOfSorted<T>(x: T, s: seq<T>, rest: seq<T>, key: T -> real, i: int)
    requires SortedBy(s, key) && s != [] && key(s[0]) < key(x)
    requires multiset(rest) == multiset(s[1..]) + multiset{x}
    requires 0 <= i < |rest|
    ensures key(s[0]) <= key(rest[i])
  {
    var e := rest[i];
    assert e in multiset(rest);
    if e != x {
      assert e in multiset(s[1..]);
      var j :| 0 <= j < |s[1..]| && s[1..][j] == e;
      assert s[j + 1] == e;
    }
  }

  /** The sorted permutation of `s`. */
  function Sort<T>(s: seq<T>, key: T -> real): (r: seq<T>)
    ensures SortedBy(r, key)
    ensures multiset(r) == multiset(s)
    ensures |r| == |s|
  {
    if s == [] then []
    else
      assert s == [s[0]] + s[1..];
      Insert(s[0], Sort(s[1..], key), key)
  }

  /** Inserting `x` puts it at the head of its own key's group and leaves every
      group's order otherwise unchanged. */
  lemma {:induction false} InsertKeepsGroups<T>(x: T, s: seq<T>, key: T -> real, v: real)
    requires SortedBy(s, key)
    ensures WithKey(Insert(x, s, key), key, v) ==
            (if key(x) == v then [x] else []) + WithKey(s, key, v)
  {
    if s == [] || key(x) <= key(s[0]) {
      WithKeyCons(x, s, key, v);
    } else {
      var rest := Insert(x, s[1..], key);
      InsertKeepsGroups(x, s[1..], key, v);
      WithKeyCons(s[0], rest, key, v);
      WithKeyCons(s[0], s[1..], key, v);
      assert s == [s[0]] + s[1..];
      // x and s[0] have different keys, so at most one of them joins the group
      if key(x) == v {
        assert key(s[0]) != v;
      }
    }
  }

  /** The group of `[e] + t` is `e`'s contribution followed by `t`'s group. */
  lemma WithKeyCons<T>(e: T, t: seq<T>, key: T -> real, v: real)
    ensures WithKey([e] + t, key, v) == (if key(e) == v then [e] else []) + WithKey(t, key, v)
  {
    assert ([e] + t)[1..] == t;
  }

  /** Stability: within each key, `Sort` keeps the input order. */
  lemma {:induction false} SortIsStable<T>(s: seq<T>, key: T -> real, v: real)
    ensures WithKey(Sort(s, key), key, v) == WithKey(s, key, v)
  {
    if s != [] {
      SortIsStable(s[1..], key, v);
      InsertKeepsGroups(s[0], Sort(s[1..], key), key, v);
    }
  }

  /** The first element of a sequence heads its own key's group. */
  lemma HeadLeadsItsGroup<T>(s: seq<T>, key: T -> real)
    requires s != []
    ensures WithKey(s, key, key(s[0])) != []
    ensures WithKey(s, key, key(s[0]))[0] == s[0]
  {
  }

  /** Dropping the head removes it from the front of its group and from nowhere else. */
  lemma TailGroups<T>(s: seq<T>, key: T -> real, v: real)
    requires s != []
    ensures WithKey(s, key, v) == (if key(s[0]) == v then [s[0]] else []) + WithKey(s[1..], key, v)
  {
  }

  /** A sequence with no group at all is empty. */
  lemma {:induction false} NoGroupsMeansEmpty<T>(s: seq<T>, key: T -> real)
    requires forall v :: WithKey(s, key, v) == []
    ensures s == []
  {
    if s != [] {
      HeadLeadsItsGroup(s, key);
    }
  }

  /** A member of a group is an element with that key, so a sorted sequence's head
      has a key no larger. */
  lemma HeadKeyAtMost<T>(s: seq<T>, key: T -> real, v: real)
    requires SortedBy(s, key) && WithKey(s, key, v) != []
    ensures key(s[0]) <= v
  {
    var e := WithKey(s, key, v)[0];
    assert e in WithKey(s, key, v);
    var i :| 0 <= i < |s| && s[i] == e;
  }

  /** Two sorted sequences with the same groups, in the same orders, are equal. */
  lemma {:induction false} SameGroupsSortedEqual<T>(ys: seq<T>, zs: seq<T>, key: T -> real)
    requires SortedBy(ys, key) && SortedBy(zs, key)
    requires forall v :: WithKey(ys, key, v) == WithKey(zs, key, v)
    ensures ys == zs
    decreases |ys|
  {
    if ys == [] {
      assert forall v :: WithKey(zs, key, v) == [];
      NoGroupsMeansEmpty(zs, key);
    } else if zs == [] {
      assert forall v :: WithKey(ys, key, v) == [];
      NoGroupsMeansEmpty(ys, key);
    } else {
      SameHead(ys, zs, key);
      forall v
        ensures WithKey(ys[1..], key, v) == WithKey(zs[1..], key, v)
      {
        TailGroups(ys, key, v);
        TailGroups(zs, key, v);
        var head := if key(ys[0]) == v then [ys[0]] else [];
        assert WithKey(ys, key, v) == WithKey(zs, key, v);
        assert (head + WithKey(ys[1..], key, v))[|head|..] == WithKey(ys[1..], key, v);
        assert (head + WithKey(zs[1..], key, v))[|head|..] == WithKey(zs[1..], key, v);
      }
      SameGroupsSortedEqual(ys[1..], zs[1..], key);
      assert ys == [ys[0]] + ys[1..];
      assert zs == [zs[0]] + zs[1..];
    }
  }

  /** Two sorted sequences with the same groups start with the same element: both
      heads carry the least key present, and each heads that key's group. */
  lemma SameHead<T>(ys: seq<T>, zs: seq<T>, key: T -> real)
    requires SortedBy(ys, key) && SortedBy(zs, key) && ys != [] && zs != []
    requires forall v :: WithKey(ys, key, v) == WithKey(zs, key, v)
    ensures ys[0] == zs[0]
  {
    var m, n := key(ys[0]), key(zs[0]);
    HeadLeadsItsGroup(ys, key);
    HeadLeadsItsGroup(zs, key);
    assert WithKey(zs, key, m) == WithKey(ys, key, m);
    assert WithKey(ys, key, n) == WithKey(zs, key, n);
    HeadKeyAtMost(zs, key, m);
    HeadKeyAtMost(ys, key, n);
  }

  /** Uniqueness: any sequence sorted by `key` that keeps each key's elements of `s`
      in their input order is `Sort(s, key)`. */
  lemma SortedStableIsUnique<T>(s: seq<T>, r: seq<T>, key: T -> real)
    requires SortedBy(r, key)
    requires forall v :: WithKey(r, key, v) == WithKey(s, key, v)
    ensures r == Sort(s, key)
  {
    forall v
      ensures WithKey(r, key, v) == WithKey(Sort(s, key), key, v)
    {
      SortIsStable(s, key, v);
    }
    SameGroupsSortedEqual(r, Sort(s, key), key);
  }
}
