/** Sorting by an integer key with a comparator `(a, b) => key(a) - key(b)`.
    Since ECMAScript 2019 `Array.prototype.sort` must be stable, so the result
    is fixed: sorted by key, and elements with equal keys in input order.
    `SortBy` is a stable insertion sort that produces it, and
    `SortedClassesDetermine` shows that no other order meets those two
    demands. */
module Sorting {
  import opened Seqs

  predicate SortedBy<T>(s: seq<T>, key: T -> int)
  {
    forall i, j :: 0 <= i < j < |s| ==> key(s[i]) <= key(s[j])
  }

  /** The test "has key k": filtering by it gives the equal-key class of k. */
  function KeyIs<T>(key: T -> int, k: int): T -> bool
  {
    x => key(x) == k
  }

  /** A prefix of a sorted sequence is sorted and bounded by the last key. */
  lemma SortedInit<T>(t: seq<T>, key: T -> int)
    requires t != [] && SortedBy(t, key)
    ensures SortedBy(t[..|t| - 1], key)
    ensures forall y :: y in t[..|t| - 1] ==> key(y) <= key(t[|t| - 1])
  {
  }

  /** Appending an element whose key bounds all others keeps the order. */
  lemma SortedSnoc<T>(s: seq<T>, x: T, key: T -> int)
    requires SortedBy(s, key)
    requires forall y :: y in s ==> key(y) <= key(x)
    ensures SortedBy(s + [x], key)
  {
    forall i, j | 0 <= i < j < |s| + 1
      ensures key((s + [x])[i]) <= key((s + [x])[j])
    {
      if j == |s| {
        assert (s + [x])[i] == s[i];
      }
    }
  }

  /** Inserts `x` into the sorted `t` after every element whose key is at most
      `key(x)`, so `x` comes last among its equals. */
  function Insert<T>(x: T, t: seq<T>, key: T -> int): (r: seq<T>)
    requires SortedBy(t, key)
    ensures SortedBy(r, key)
    ensures multiset(r) == multiset(t) + multiset{x}
    ensures forall y :: y in r ==> y == x || y in t
    ensures |r| == |t| + 1
  {
    if t == [] then [x]
    else if key(t[|t| - 1]) <= key(x) then
      SortedSnoc(t, x, key);
      t + [x]
    else
      var init, last := t[..|t| - 1], t[|t| - 1];
      assert t == init + [last];
      SortedInit(t, key);
      var r' := Insert(x, init, key);
      SortedSnoc(r', last, key);
      r' + [last]
  }

  /** Stable insertion sort: the elements of `s` scanned left to right, each
      inserted after its equals. */
  function SortBy<T>(s: seq<T>, key: T -> int): (r: seq<T>)
    ensures SortedBy(r, key)
    ensures multiset(r) == multiset(s)
    ensures |r| == |s|
  {
    if s == [] then []
    else
      assert s == s[..|s| - 1] + [s[|s| - 1]];
      Insert(s[|s| - 1], SortBy(s[..|s| - 1], key), key)
  }

  /** Inserting before the last element keeps that element last. */
  lemma InsertBeforeLast<T>(x: T, t: seq<T>, key: T -> int)
    requires SortedBy(t, key) && t != [] && key(x) < key(t[|t| - 1])
    ensures SortedBy(t[..|t| - 1], key)
    ensures Insert(x, t, key) == Insert(x, t[..|t| - 1], key) + [t[|t| - 1]]
  {
    SortedInit(t, key);
  }

  /** Inserting `x` appends it to its own class and leaves the others alone. */
  lemma {:induction false} InsertClass<T(!new)>(x: T, t: seq<T>, key: T -> int, k: int)
    requires SortedBy(t, key)
    ensures Filter(Insert(x, t, key), KeyIs(key, k))
         == Filter(t, KeyIs(key, k)) + (if key(x) == k then [x] else [])
  {
    var p := KeyIs(key, k);
    if t == [] {
    } else if key(t[|t| - 1]) <= key(x) {
      FilterSnoc(t, x, p);
    } else {
      var init, last := t[..|t| - 1], t[|t| - 1];
      InsertBeforeLast(x, t, key);
      var r' := Insert(x, init, key);
      InsertClass(x, init, key, k);
      FilterSnoc(r', last, p);
      FilterLast(t, p);
      var tail := if p(last) then [last] else [];
      var own := if key(x) == k then [x] else [];
      assert key(x) == k ==> tail == [];
      assert Filter(r' + [last], p) == Filter(init, p) + own + tail;
      assert Filter(t, p) == Filter(init, p) + tail;
    }
  }

  /** Stability: within every class of equal keys `SortBy` keeps input order. */
  lemma {:induction false} SortByStable<T(!new)>(s: seq<T>, key: T -> int, k: int)
    ensures Filter(SortBy(s, key), KeyIs(key, k)) == Filter(s, KeyIs(key, k))
  {
    if s != [] {
      var init, last := s[..|s| - 1], s[|s| - 1];
      assert s == init + [last];
      SortByStable(init, key, k);
      InsertClass(last, SortBy(init, key), key, k);
      FilterSnoc(init, last, KeyIs(key, k));
    }
  }

  /** The last element of a sorted sequence carries its largest key. */
  lemma SortedLastIsMax<T>(t: seq<T>, key: T -> int, y: T)
    requires t != [] && SortedBy(t, key) && y in t
    ensures key(y) <= key(t[|t| - 1])
  {
  }

  /** An element of `u` that is last in `t`'s class has at most `u`'s last key. */
  lemma ClassMemberBounded<T(!new)>(t: seq<T>, u: seq<T>, key: T -> int)
    requires t != [] && u != [] && SortedBy(u, key)
    requires Filter(t, KeyIs(key, key(t[|t| - 1]))) == Filter(u, KeyIs(key, key(t[|t| - 1])))
    ensures key(t[|t| - 1]) <= key(u[|u| - 1])
  {
    var a := t[|t| - 1];
    FilterMembership(t, KeyIs(key, key(a)), a);
    FilterMembership(u, KeyIs(key, key(a)), a);
    SortedLastIsMax(u, key, a);
  }

  /** Two sequences whose last elements share a key, and whose classes of
      that key agree, end in the same element. */
  lemma ClassLastEqual<T(!new)>(t: seq<T>, u: seq<T>, key: T -> int)
    requires t != [] && u != []
    requires key(t[|t| - 1]) == key(u[|u| - 1])
    requires Filter(t, KeyIs(key, key(t[|t| - 1]))) == Filter(u, KeyIs(key, key(t[|t| - 1])))
    ensures t[|t| - 1] == u[|u| - 1]
  {
    var a, b := t[|t| - 1], u[|u| - 1];
    var p := KeyIs(key, key(a));
    FilterLast(t, p);
    FilterLast(u, p);
    var cls := Filter(t, p);
    assert cls[|cls| - 1] == a && cls[|cls| - 1] == b;
  }

  /** Two sorted sequences with the same classes end in the same element. */
  lemma SameClassesSameLast<T(!new)>(t: seq<T>, u: seq<T>, key: T -> int)
    requires t != [] && u != []
    requires SortedBy(t, key) && SortedBy(u, key)
    requires forall k :: Filter(t, KeyIs(key, k)) == Filter(u, KeyIs(key, k))
    ensures t[|t| - 1] == u[|u| - 1]
  {
    var a, b := t[|t| - 1], u[|u| - 1];
    var pa, pb := KeyIs(key, key(a)), KeyIs(key, key(b));
    assert Filter(t, pa) == Filter(u, pa);
    assert Filter(t, pb) == Filter(u, pb);
    ClassMemberBounded(t, u, key);
    ClassMemberBounded(u, t, key);
    ClassLastEqual(t, u, key);
  }

  /** Dropping a common last element keeps the classes equal. */
  lemma ClassesOfInit<T(!new)>(t': seq<T>, u': seq<T>, a: T, key: T -> int, k: int)
    requires Filter(t' + [a], KeyIs(key, k)) == Filter(u' + [a], KeyIs(key, k))
    ensures Filter(t', KeyIs(key, k)) == Filter(u', KeyIs(key, k))
  {
    var p := KeyIs(key, k);
    FilterSnoc(t', a, p);
    FilterSnoc(u', a, p);
    var x, y := Filter(t', p), Filter(u', p);
    if p(a) {
      SnocCancel(x, y, a);
    } else {
      assert x + [] == x && y + [] == y;
    }
  }

  /** A sorted sequence with no elements in some class has none of that key. */
  lemma EmptyClassesEmpty<T(!new)>(t: seq<T>, u: seq<T>, key: T -> int)
    requires t == [] && u != []
    ensures Filter(t, KeyIs(key, key(u[|u| - 1]))) != Filter(u, KeyIs(key, key(u[|u| - 1])))
  {
    FilterMembership(u, KeyIs(key, key(u[|u| - 1])), u[|u| - 1]);
  }

  /** A sequence sorted by key is determined by its classes of equal keys:
      two sorted sequences whose classes agree (each class in the same order)
      are equal. So every stable sort of `s` returns `SortBy(s, key)`. */
  lemma {:induction false} SortedClassesDetermine<T(!new)>(t: seq<T>, u: seq<T>, key: T -> int)
    requires SortedBy(t, key) && SortedBy(u, key)
    requires forall k :: Filter(t, KeyIs(key, k)) == Filter(u, KeyIs(key, k))
    ensures t == u
    decreases |t| + |u|
  {
    if t == [] && u == [] {
    } else if t == [] {
      EmptyClassesEmpty(t, u, key);
    } else if u == [] {
      EmptyClassesEmpty(u, t, key);
    } else {
      SameClassesSameLast(t, u, key);
      var t', u', a := t[..|t| - 1], u[..|u| - 1], t[|t| - 1];
      assert t == t' + [a] && u == u' + [a];
      forall k ensures Filter(t', KeyIs(key, k)) == Filter(u', KeyIs(key, k)) {
        ClassesOfInit(t', u', a, key, k);
      }
      SortedInit(t, key);
      SortedInit(u, key);
      SortedClassesDetermine(t', u', key);
    }
  }

  /** Keys strictly increase: no two elements share a key. */
  predicate StrictlySortedBy<T>(s: seq<T>, key: T -> int)
  {
    forall i, j :: 0 <= i < j < |s| ==> key(s[i]) < key(s[j])
  }

  /** Both start with the element of least key. */
  lemma StrictFirst<T>(t: seq<T>, u: seq<T>, key: T -> int)
    requires StrictlySortedBy(t, key) && SortedBy(u, key)
    requires multiset(t) == multiset(u) && t != []
    ensures u != [] && t[0] == u[0]
  {
    assert t[0] in multiset(u);
    var j :| 0 <= j < |u| && u[j] == t[0];
    assert u[0] in multiset(t);
    var i :| 0 <= i < |t| && t[i] == u[0];
    assert key(u[0]) <= key(u[j]);
  }

  /** Equal multisets with the same first element agree after it. */
  lemma MultisetTail<T>(t: seq<T>, u: seq<T>)
    requires t != [] && u != [] && t[0] == u[0] && multiset(t) == multiset(u)
    ensures multiset(t[1..]) == multiset(u[1..])
  {
    assert t == [t[0]] + t[1..];
    assert u == [u[0]] + u[1..];
    assert multiset(t[1..]) == multiset(t) - multiset([t[0]]);
    assert multiset(u[1..]) == multiset(u) - multiset([u[0]]);
  }

  /** A sorted rearrangement of a sequence whose keys strictly increase is
      that sequence itself. */
  lemma {:induction false} StrictOrderUnique<T>(t: seq<T>, u: seq<T>, key: T -> int)
    requires StrictlySortedBy(t, key) && SortedBy(u, key)
    requires multiset(t) == multiset(u)
    ensures t == u
  {
    if t == [] {
      assert |u| == |multiset(u)| == 0;
    } else {
      StrictFirst(t, u, key);
      MultisetTail(t, u);
      StrictOrderUnique(t[1..], u[1..], key);
      assert t == [t[0]] + t[1..] && u == [u[0]] + u[1..];
    }
  }

  /** When `t` lists the elements of `s` with strictly increasing keys, the
      stable sort of `s` is `t`. */
  lemma SortByStrict<T>(s: seq<T>, t: seq<T>, key: T -> int)
    requires multiset(s) == multiset(t) && StrictlySortedBy(t, key)
    ensures SortBy(s, key) == t
  {
    StrictOrderUnique(t, SortBy(s, key), key);
  }
}
