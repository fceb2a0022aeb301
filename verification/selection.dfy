/**
  Positional selection from LINQ's stable sorts. `OrderBy(key)` and
  `OrderByDescending(key)` are stable: elements with equal keys keep their input
  order. Both are modelled by one stable insertion sort; `.First()` is position 0
  and `.Skip(k).First()` is position k.
 */
module Selection {

  /** `x` may precede `y`: keys ascending, or descending when `descending`. */
  predicate Before<T>(x: T, y: T, key: T -> real, descending: bool)
  {
    if descending then key(x) >= key(y) else key(x) <= key(y)
  }

  /** Every earlier element may precede every later one. */
  ghost predicate Ordered<T>(s: seq<T>, key: T -> real, descending: bool)
  {
    forall i, j :: 0 <= i < j < |s| ==> Before(s[i], s[j], key, descending)
  }

  /**
    Insert `x` in front of the first element it may precede. Elements already in
    `t` come later in the input, so `x` goes before those with an equal key.
   */
  function Insert<T>(x: T, t: seq<T>, key: T -> real, descending: bool): (r: seq<T>)
    ensures |r| == |t| + 1
    ensures multiset(r) == multiset(t) + multiset{x}
  {
    if t == [] || Before(x, t[0], key, descending) then [x] + t
    else
      assert t == [t[0]] + t[1..];
      [t[0]] + Insert(x, t[1..], key, descending)
  }

  /** The stable sort: ordered, and a permutation of its input. */
  function SortBy<T>(s: seq<T>, key: T -> real, descending: bool): (r: seq<T>)
    ensures |r| == |s|
    ensures multiset(r) == multiset(s)
    ensures Ordered(r, key, descending)
  {
    if s == [] then []
    else
      var t := SortBy(s[1..], key, descending);
      InsertOrdered(s[0], t, key, descending);
      assert s == [s[0]] + s[1..];
      Insert(s[0], t, key, descending)
  }

  lemma {:induction false} InsertOrdered<T>(x: T, t: seq<T>, key: T -> real, descending: bool)
    requires Ordered(t, key, descending)
    ensures Ordered(Insert(x, t, key, descending), key, descending)
  {
    var r := Insert(x, t, key, descending);
    if t == [] {
    } else if Before(x, t[0], key, descending) {
      assert r == [x] + t;
      forall i, j | 0 <= i < j < |r|
        ensures Before(r[i], r[j], key, descending)
      {
        if i == 0 {
          assert r[j] == t[j - 1];
        } else {
          assert r[i] == t[i - 1] && r[j] == t[j - 1];
        }
      }
    } else {
      var rest := Insert(x, t[1..], key, descending);
      assert Ordered(t[1..], key, descending) by {
        forall i, j | 0 <= i < j < |t[1..]|
          ensures Before(t[1..][i], t[1..][j], key, descending)
        {
          assert t[1..][i] == t[i + 1] && t[1..][j] == t[j + 1];
        }
      }
      InsertOrdered(x, t[1..], key, descending);
      assert r == [t[0]] + rest;
      forall j | 0 <= j < |rest|
        ensures Before(t[0], rest[j], key, descending)
      {
        assert rest[j] in multiset(rest);
        if rest[j] != x {
          assert rest[j] in multiset(t[1..]);
          var k :| 0 <= k < |t[1..]| && t[1..][k] == rest[j];
          assert t[1..][k] == t[k + 1];
        }
      }
      forall i, j | 0 <= i < j < |r|
        ensures Before(r[i], r[j], key, descending)
      {
        if i == 0 {
          assert r[j] == rest[j - 1];
        } else {
          assert r[i] == rest[i - 1] && r[j] == rest[j - 1];
        }
      }
    }
  }

  /** The elements of `s` whose key is `v`, in their order in `s`. */
  function WithKey<T>(s: seq<T>, key: T -> real, v: real): seq<T>
  {
    if s == [] then []
    else (if key(s[0]) == v then [s[0]] else []) + WithKey(s[1..], key, v)
  }

  /**
    Inserting `x` puts it in front of every element of `t` that shares its key: among
    the elements with key `v`, `x` comes first when its key is `v`, and the others
    keep their order.
   */
  lemma {:induction false} InsertWithKey<T>(x: T, t: seq<T>, key: T -> real, descending: bool, v: real)
    ensures key(x) == v ==> WithKey(Insert(x, t, key, descending), key, v) == [x] + WithKey(t, key, v)
    ensures key(x) != v ==> WithKey(Insert(x, t, key, descending), key, v) == WithKey(t, key, v)
  {
    var r := Insert(x, t, key, descending);
    if t == [] || Before(x, t[0], key, descending) {
      assert r[0] == x && r[1..] == t;
    } else {
      var rest := Insert(x, t[1..], key, descending);
      assert r[0] == t[0] && r[1..] == rest;
      InsertWithKey(x, t[1..], key, descending, v);
      // `x` does not precede t[0], so their keys differ: at most one of them has key `v`.
      assert key(t[0]) != key(x);
      if key(t[0]) == v {
        assert WithKey(r, key, v) == [t[0]] + WithKey(rest, key, v);
        assert WithKey(t, key, v) == [t[0]] + WithKey(t[1..], key, v);
      } else {
        assert WithKey(r, key, v) == WithKey(rest, key, v);
        assert WithKey(t, key, v) == WithKey(t[1..], key, v);
      }
    }
  }

  /**
    The sort is stable: for every key value, the elements carrying it appear in the
    sorted list in the order they had in the input.
   */
  lemma {:induction false} SortStable<T>(s: seq<T>, key: T -> real, descending: bool, v: real)
    ensures WithKey(SortBy(s, key, descending), key, v) == WithKey(s, key, v)
  {
    if s != [] {
      SortStable(s[1..], key, descending, v);
      InsertWithKey(s[0], SortBy(s[1..], key, descending), key, descending, v);
    }
  }

  /**
    The index of the first element, in input order, whose key is extreme: no
    element may precede it strictly, and every earlier element has a different key.
   */
  function FirstExtreme<T>(s: seq<T>, key: T -> real, descending: bool): (i: nat)
    requires s != []
    ensures i < |s|
    ensures forall k :: 0 <= k < |s| ==> Before(s[i], s[k], key, descending)
    ensures forall k :: 0 <= k < i ==> key(s[k]) != key(s[i])
  {
    if |s| == 1 then 0
    else
      var j := 1 + FirstExtreme(s[1..], key, descending);
      assert forall k :: 1 <= k < |s| ==> s[k] == s[1..][k - 1];
      if Before(s[0], s[j], key, descending) then 0 else j
  }

  /** `OrderBy(key).First()` (or `OrderByDescending`) is the first extreme element in input order. */
  lemma {:induction false} SortHead<T>(s: seq<T>, key: T -> real, descending: bool)
    requires s != []
    ensures SortBy(s, key, descending)[0] == s[FirstExtreme(s, key, descending)]
  {
    if |s| > 1 {
      SortHead(s[1..], key, descending);
    }
  }

  /**
    The three picks of a non-empty list: position 0 of the ascending sort, position
    `median` of the ascending sort, position 0 of the descending sort.
   */
  datatype Band<T> = Band(lower: T, baseline: T, upper: T)

  function Pick<T>(s: seq<T>, key: T -> real, median: nat): (p: Band<T>)
    requires median < |s|
    ensures p.lower in s && p.baseline in s && p.upper in s
    ensures key(p.lower) <= key(p.baseline) <= key(p.upper)
  {
    var ascending := SortBy(s, key, false);
    var lower := ascending[0];
    var baseline := ascending[median];
    var upper := SortBy(s, key, true)[0];
    SortHead(s, key, false);
    SortHead(s, key, true);
    assert baseline in multiset(ascending);
    Band(lower, baseline, upper)
  }

  /** The lower and upper picks are the first minimal and first maximal elements in input order. */
  lemma PickExtremes<T>(s: seq<T>, key: T -> real, median: nat)
    requires median < |s|
    ensures Pick(s, key, median).lower == s[FirstExtreme(s, key, false)]
    ensures Pick(s, key, median).upper == s[FirstExtreme(s, key, true)]
  {
    SortHead(s, key, false);
    SortHead(s, key, true);
  }

  /** Two entries sharing one key: (tag, key). */
  function TieKey(e: (int, int)): real { e.1 as real }

  /**
    With ties, the first element of the descending sort is not the last element of
    the ascending sort: the descending sort keeps the earlier of two equal keys in
    front, while the ascending sort puts the later one last.
   */
  lemma UpperIsFirstOfTies()
    ensures SortBy([(0, 5), (1, 5)], TieKey, true)[0] == (0, 5)
    ensures SortBy([(0, 5), (1, 5)], TieKey, false)[1] == (1, 5)
  {
    var s := [(0, 5), (1, 5)];
    assert s[1..] == [(1, 5)];
    assert SortBy(s[1..], TieKey, true) == [(1, 5)];
    assert SortBy(s[1..], TieKey, false) == [(1, 5)];
  }

  /** Keys for sorting plain numbers by value. */
  function IntKey(x: int): real { x as real }
  function RealKey(x: real): real { x }

  /**
    A list of three values sorted with `OrderBy(r => r)` and read back by position:
    the same three values, lowest first.
   */
  function Ranged<T>(b: Band<T>, key: T -> real): (r: Band<T>)
    ensures multiset{r.lower, r.baseline, r.upper} == multiset{b.lower, b.baseline, b.upper}
    ensures key(r.lower) <= key(r.baseline) <= key(r.upper)
  {
    var s := SortBy([b.lower, b.baseline, b.upper], key, false);
    assert Before(s[0], s[1], key, false) && Before(s[1], s[2], key, false);
    assert s == [s[0], s[1], s[2]];
    Band(s[0], s[1], s[2])
  }
}
