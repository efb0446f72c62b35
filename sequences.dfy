/** List operations the pages perform: comprehensions with a condition, slices
    `[:n]`, and Python's stable `sort(key=..., reverse=True)` / `sorted(...)`. */
module Sequences {

  /** `[x for x in s if p(x)]`. */
  function Filter<T(!new)>(p: T -> bool, s: seq<T>): (r: seq<T>)
    ensures |r| <= |s|
    ensures forall x :: x in r <==> x in s && p(x)
  {
    if s == [] then []
    else
      var rest := Filter(p, s[1..]);
      assert s == [s[0]] + s[1..];
      (if p(s[0]) then [s[0]] else []) + rest
  }

  /** Filtering keeps order: it distributes over concatenation. */
  lemma {:induction false} FilterAppend<T(!new)>(p: T -> bool, a: seq<T>, b: seq<T>)
    ensures Filter(p, a + b) == Filter(p, a) + Filter(p, b)
  {
    if a == [] {
      assert a + b == b;
    } else {
      assert (a + b)[0] == a[0];
      assert (a + b)[1..] == a[1..] + b;
      FilterAppend(p, a[1..], b);
    }
  }

  /** The rows a condition keeps and the rows it drops make up the input. */
  lemma {:induction false} FilterSplit<T(!new)>(p: T -> bool, q: T -> bool, s: seq<T>)
    requires forall i :: 0 <= i < |s| ==> q(s[i]) == !p(s[i])
    ensures multiset(Filter(p, s)) + multiset(Filter(q, s)) == multiset(s)
  {
    if s != [] {
      FilterSplit(p, q, s[1..]);
      assert s == [s[0]] + s[1..];
    }
  }

  /** Two conditions that agree on every element keep the same rows. */
  lemma {:induction false} FilterCongruent<T(!new)>(p: T -> bool, q: T -> bool, s: seq<T>)
    requires forall x :: x in s ==> p(x) == q(x)
    ensures Filter(p, s) == Filter(q, s)
  {
    if s != [] {
      assert forall x :: x in s[1..] ==> x in s;
      FilterCongruent(p, q, s[1..]);
    }
  }

  /** `s[:n]`. */
  function Take<T>(s: seq<T>, n: nat): (r: seq<T>)
    ensures |r| == if |s| <= n then |s| else n
    ensures forall i :: 0 <= i < |r| ==> r[i] == s[i]
    ensures forall x :: x in r ==> x in s
  {
    if |s| <= n then s else s[..n]
  }

  /** `[f(x) for x in s]`. */
  function Map<T, U>(f: T -> U, s: seq<T>): (r: seq<U>)
    ensures |r| == |s| && forall i :: 0 <= i < |s| ==> r[i] == f(s[i])
  {
    if s == [] then [] else Map(f, s[..|s| - 1]) + [f(s[|s| - 1])]
  }

  lemma MapAppend<T, U>(f: T -> U, a: seq<T>, b: seq<T>)
    ensures Map(f, a + b) == Map(f, a) + Map(f, b)
  {
  }

  /** Keys never increase from left to right. */
  predicate SortedDesc<T>(s: seq<T>, key: T -> real) {
    forall i, j :: 0 <= i < j < |s| ==> key(s[i]) >= key(s[j])
  }

  /** Places `x` in front of the first element whose key is at most its own. */
  function Insert<T(!new)>(x: T, s: seq<T>, key: T -> real): (r: seq<T>)
    ensures |r| == |s| + 1
    ensures multiset(r) == multiset(s) + multiset{x}
  {
    if s == [] || key(s[0]) <= key(x) then [x] + s
    else
      var rest := Insert(x, s[1..], key);
      assert s == [s[0]] + s[1..];
      [s[0]] + rest
  }

  /** A head no smaller than anything after it extends a sorted sequence. */
  lemma SortedCons<T(!new)>(h: T, t: seq<T>, key: T -> real)
    requires SortedDesc(t, key)
    requires forall y :: y in t ==> key(h) >= key(y)
    ensures SortedDesc([h] + t, key)
  {
    var r := [h] + t;
    forall i, j | 0 <= i < j < |r| ensures key(r[i]) >= key(r[j]) {
      if i == 0 { assert r[j] in t; } else { assert r[i] == t[i - 1] && r[j] == t[j - 1]; }
    }
  }

  lemma {:induction false} InsertSorted<T(!new)>(x: T, s: seq<T>, key: T -> real)
    requires SortedDesc(s, key)
    ensures SortedDesc(Insert(x, s, key), key)
  {
    if s != [] && key(s[0]) > key(x) {
      var rest := Insert(x, s[1..], key);
      InsertSorted(x, s[1..], key);
      forall y | y in rest ensures key(s[0]) >= key(y) {
        assert y in multiset(rest);
        assert y == x || y in multiset(s[1..]);
      }
      SortedCons(s[0], rest, key);
    } else if s != [] {
      SortedCons(x, s, key);
    }
  }

  /** Python's `sorted(s, key=key, reverse=True)`: a stable sort by descending key. */
  function SortDesc<T(!new)>(s: seq<T>, key: T -> real): (r: seq<T>)
    ensures |r| == |s|
    ensures multiset(r) == multiset(s)
    ensures SortedDesc(r, key)
  {
    if s == [] then []
    else
      var rest := SortDesc(s[1..], key);
      InsertSorted(s[0], rest, key);
      assert s == [s[0]] + s[1..];
      Insert(s[0], rest, key)
  }

  /** Sorting keeps exactly the elements it was given. */
  lemma SortMembers<T(!new)>(s: seq<T>, key: T -> real)
    ensures forall x :: x in SortDesc(s, key) <==> x in s
  {
    var r := SortDesc(s, key);
    assert forall x :: x in r <==> x in multiset(r);
    assert forall x :: x in s <==> x in multiset(s);
  }

  /** The elements whose key is `k`. */
  function KeyIs<T>(key: T -> real, k: real): T -> bool {
    x => key(x) == k
  }

  lemma FilterSingleton<T(!new)>(p: T -> bool, y: T)
    ensures Filter(p, [y]) == if p(y) then [y] else []
  {
    assert [y][1..] == [];
  }

  lemma {:induction false} InsertStable<T(!new)>(x: T, s: seq<T>, key: T -> real, k: real)
    ensures Filter(KeyIs(key, k), Insert(x, s, key))
         == Filter(KeyIs(key, k), [x]) + Filter(KeyIs(key, k), s)
  {
    var p := KeyIs(key, k);
    if s == [] || key(s[0]) <= key(x) {
      FilterAppend(p, [x], s);
    } else {
      var rest := Insert(x, s[1..], key);
      InsertStable(x, s[1..], key, k);
      assert !(p(s[0]) && p(x));
      calc {
        Filter(p, Insert(x, s, key));
        { assert Insert(x, s, key) == [s[0]] + rest; }
        Filter(p, [s[0]] + rest);
        { FilterAppend(p, [s[0]], rest); }
        Filter(p, [s[0]]) + Filter(p, rest);
        Filter(p, [s[0]]) + (Filter(p, [x]) + Filter(p, s[1..]));
        { SwapSingletons(p, s[0], x, Filter(p, s[1..])); }
        Filter(p, [x]) + (Filter(p, [s[0]]) + Filter(p, s[1..]));
        { FilterAppend(p, [s[0]], s[1..]); assert s == [s[0]] + s[1..]; }
        Filter(p, [x]) + Filter(p, s);
      }
    }
  }

  /** Two elements that are not both kept can be filtered in either order. */
  lemma SwapSingletons<T(!new)>(p: T -> bool, a: T, b: T, tail: seq<T>)
    requires !(p(a) && p(b))
    ensures Filter(p, [a]) + (Filter(p, [b]) + tail) == Filter(p, [b]) + (Filter(p, [a]) + tail)
  {
    FilterSingleton(p, a);
    FilterSingleton(p, b);
    var fa, fb := Filter(p, [a]), Filter(p, [b]);
    if !p(a) {
      assert fa == [];
      assert fa + (fb + tail) == fb + tail;
      assert fb + (fa + tail) == fb + tail;
    } else {
      assert fb == [];
      assert fa + (fb + tail) == fa + tail;
      assert fb + (fa + tail) == fa + tail;
    }
  }

  /** Stability: the elements sharing one key keep their original relative order. */
  lemma {:induction false} SortStable<T(!new)>(s: seq<T>, key: T -> real, k: real)
    ensures Filter(KeyIs(key, k), SortDesc(s, key)) == Filter(KeyIs(key, k), s)
  {
    if s != [] {
      var p := KeyIs(key, k);
      var rest := SortDesc(s[1..], key);
      assert SortDesc(s, key) == Insert(s[0], rest, key);
      SortStable(s[1..], key, k);
      InsertStable(s[0], rest, key, k);
      assert Filter(p, SortDesc(s, key)) == Filter(p, [s[0]]) + Filter(p, s[1..]);
      FilterAppend(p, [s[0]], s[1..]);
      assert s == [s[0]] + s[1..];
    }
  }

  /** Sorting an already sorted sequence changes nothing. */
  lemma {:induction false} SortSorted<T(!new)>(s: seq<T>, key: T -> real)
    requires SortedDesc(s, key)
    ensures SortDesc(s, key) == s
  {
    if s != [] {
      SortSorted(s[1..], key);
      assert SortDesc(s[1..], key) == s[1..];
      assert s[1..] == [] || key(s[1..][0]) <= key(s[0]);
    }
  }
}
