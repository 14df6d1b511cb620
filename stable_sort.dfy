/**
 * Kotlin's `sortedBy`, `sortedByDescending`, `filter` and `take` on lists.
 * The library sort is stable: elements the ordering cannot tell apart keep
 * their relative order.  The ordering is given as `le(x, y)`, "x may come
 * before y", which must be a total preorder.
 */
module StableSort {
  import opened Text

  ghost predicate TotalPreorder<T(!new)>(le: (T, T) -> bool) {
    (forall x, y :: le(x, y) || le(y, x))
    && (forall x, y, z :: le(x, y) && le(y, z) ==> le(x, z))
  }

  predicate Sorted<T>(s: seq<T>, le: (T, T) -> bool) {
    forall i, j | 0 <= i < j < |s| :: le(s[i], s[j])
  }

  /** `filter(p)`: the elements satisfying `p`, in their order. */
  function Filter<T>(s: seq<T>, p: T -> bool): (r: seq<T>)
    ensures |r| <= |s|
  {
    if s == [] then [] else (if p(s[0]) then [s[0]] else []) + Filter(s[1..], p)
  }

  /** Filtering neither adds nor duplicates elements. */
  lemma {:induction false} FilterSubMultiset<T>(s: seq<T>, p: T -> bool)
    ensures multiset(Filter(s, p)) <= multiset(s)
  {
    if s != [] {
      FilterSubMultiset(s[1..], p);
      assert s == [s[0]] + s[1..];
    }
  }

  /** The kept elements are exactly the elements satisfying `p`. */
  lemma {:induction false} FilterMembers<T>(s: seq<T>, p: T -> bool)
    ensures forall x :: x in Filter(s, p) <==> x in s && p(x)
  {
    if s != [] {
      FilterMembers(s[1..], p);
      assert s == [s[0]] + s[1..];
    }
  }

  lemma {:induction false} FilterConcat<T>(a: seq<T>, b: seq<T>, p: T -> bool)
    ensures Filter(a + b, p) == Filter(a, p) + Filter(b, p)
  {
    if a == [] {
      assert a + b == b;
    } else {
      var head := if p(a[0]) then [a[0]] else [];
      assert (a + b)[0] == a[0] && (a + b)[1..] == a[1..] + b;
      assert Filter(a + b, p) == head + Filter(a[1..] + b, p);
      FilterConcat(a[1..], b, p);
      assert Filter(a, p) == head + Filter(a[1..], p);
    }
  }

  /** Filters that agree on every element of `s` keep the same elements. */
  lemma {:induction false} FilterCongruent<T>(s: seq<T>, p: T -> bool, q: T -> bool)
    requires forall x | x in s :: p(x) == q(x)
    ensures Filter(s, p) == Filter(s, q)
  {
    if s != [] {
      assert forall x | x in s[1..] :: x in s;
      FilterCongruent(s[1..], p, q);
    }
  }

  lemma FilterAll<T>(s: seq<T>, p: T -> bool)
    requires forall x | x in s :: p(x)
    ensures Filter(s, p) == s
  {
  }

  /** `take(n)` */
  function Take<T>(s: seq<T>, n: int): (r: seq<T>)
    ensures |r| == if n < 0 then 0 else if n < |s| then n else |s|
    ensures r == s[..|r|]
  {
    if n <= 0 then [] else if n < |s| then s[..n] else s
  }

  /** `takeLast(n)` */
  function TakeLast<T>(s: seq<T>, n: nat): (r: seq<T>)
    ensures |r| == if n < |s| then n else |s|
    ensures r == s[|s| - |r|..]
  {
    if n < |s| then s[|s| - n..] else s
  }

  /** The elements of `s` that the ordering cannot tell apart from `y`, in their order. */
  function Equivalents<T>(s: seq<T>, y: T, le: (T, T) -> bool): seq<T> {
    Filter(s, EquivalentTo(y, le))
  }

  function EquivalentTo<T>(y: T, le: (T, T) -> bool): T -> bool {
    x => le(x, y) && le(y, x)
  }

  lemma FilterSingle<T>(x: T, p: T -> bool)
    ensures Filter([x], p) == if p(x) then [x] else []
  {
    assert [x][1..] == [];
  }

  lemma EquivalentsLinked<T(!new)>(a: T, b: T, y: T, le: (T, T) -> bool)
    requires TotalPreorder(le)
    ensures EquivalentTo(y, le)(a) && EquivalentTo(y, le)(b) ==> le(a, b)
  {
  }

  /** Places `x` before the first element it may precede. */
  function Insert<T>(x: T, s: seq<T>, le: (T, T) -> bool): (r: seq<T>)
    ensures multiset(r) == multiset(s) + multiset{x}
    ensures |r| == |s| + 1
  {
    if s == [] || le(x, s[0]) then [x] + s
    else
      assert s == [s[0]] + s[1..];
      [s[0]] + Insert(x, s[1..], le)
  }

  /** Stable sort: insertion of each element, front to back, into the sorted rest. */
  function Sort<T>(s: seq<T>, le: (T, T) -> bool): (r: seq<T>)
    ensures multiset(r) == multiset(s)
    ensures |r| == |s|
  {
    if s == [] then []
    else
      assert s == [s[0]] + s[1..];
      Insert(s[0], Sort(s[1..], le), le)
  }

  lemma {:induction false} InsertSorted<T(!new)>(x: T, s: seq<T>, le: (T, T) -> bool)
    requires TotalPreorder(le) && Sorted(s, le)
    ensures Sorted(Insert(x, s, le), le)
  {
    if s != [] && !le(x, s[0]) {
      InsertSorted(x, s[1..], le);
      var r := Insert(x, s[1..], le);
      assert multiset(r) == multiset(s[1..]) + multiset{x};
      forall j | 0 <= j < |r|
        ensures le(s[0], r[j])
      {
        assert r[j] in multiset(r);
        if r[j] != x {
          assert r[j] in multiset(s[1..]);
          var k :| 0 <= k < |s[1..]| && s[1..][k] == r[j];
          assert s[k + 1] == r[j];
        }
      }
    }
  }

  lemma {:induction false} InsertEquivalents<T(!new)>(x: T, s: seq<T>, y: T, le: (T, T) -> bool)
    requires TotalPreorder(le) && Sorted(s, le)
    ensures Equivalents(Insert(x, s, le), y, le)
            == (if le(x, y) && le(y, x) then [x] else []) + Equivalents(s, y, le)
  {
    var p := EquivalentTo(y, le);
    if s == [] || le(x, s[0]) {
      assert Insert(x, s, le) == [x] + s;
      FilterConcat([x], s, p);
      FilterSingle(x, p);
    } else {
      InsertEquivalents(x, s[1..], y, le);
      assert Insert(x, s, le) == [s[0]] + Insert(x, s[1..], le);
      assert s == [s[0]] + s[1..];
      ConsEquivalents(s[0], Insert(x, s[1..], le), s[1..], x, y, le);
    }
  }

  /**
   * Putting `h` in front of `t` and of `r` keeps `x` ahead of `r`'s
   * elements equivalent to `y`, when `x` may not precede `h`: `h` and `x`
   * are then never both equivalent to `y`.
   */
  lemma ConsEquivalents<T(!new)>(h: T, t: seq<T>, r: seq<T>, x: T, y: T, le: (T, T) -> bool)
    requires TotalPreorder(le) && !le(x, h)
    requires Equivalents(t, y, le) == (if le(x, y) && le(y, x) then [x] else []) + Equivalents(r, y, le)
    ensures Equivalents([h] + t, y, le)
            == (if le(x, y) && le(y, x) then [x] else []) + Equivalents([h] + r, y, le)
  {
    var p := EquivalentTo(y, le);
    var mine := if le(x, y) && le(y, x) then [x] else [];
    var rest := Equivalents(r, y, le);
    FilterConcat([h], t, p);
    FilterConcat([h], r, p);
    FilterSingle(h, p);
    EquivalentsLinked(x, h, y, le);
    if p(h) {
      assert mine == [];
      assert mine + rest == rest;
    } else {
      assert Filter([h], p) == [];
      assert [] + (mine + rest) == mine + rest;
    }
  }

  /** The result is ordered, a permutation of the input, and stable. */
  lemma {:induction false} SortSpec<T(!new)>(s: seq<T>, le: (T, T) -> bool)
    requires TotalPreorder(le)
    ensures Sorted(Sort(s, le), le)
    ensures multiset(Sort(s, le)) == multiset(s)
    ensures forall y :: Equivalents(Sort(s, le), y, le) == Equivalents(s, y, le)
  {
    if s != [] {
      SortSpec(s[1..], le);
      InsertSorted(s[0], Sort(s[1..], le), le);
      forall y
        ensures Equivalents(Sort(s, le), y, le) == Equivalents(s, y, le)
      {
        InsertEquivalents(s[0], Sort(s[1..], le), y, le);
        FilterConcat([s[0]], s[1..], EquivalentTo(y, le));
        FilterSingle(s[0], EquivalentTo(y, le));
        assert s == [s[0]] + s[1..];
      }
    }
  }

  /** Ascending order on integer keys (`sortedBy { key }`). */
  function AscendingInt<T>(key: T -> int): (T, T) -> bool {
    (x: T, y: T) => key(x) <= key(y)
  }

  /** Descending order on integer keys (`sortedByDescending { key }`). */
  function DescendingInt<T>(key: T -> int): (T, T) -> bool {
    (x: T, y: T) => key(x) >= key(y)
  }

  function AscendingReal<T>(key: T -> real): (T, T) -> bool {
    (x: T, y: T) => key(x) <= key(y)
  }

  function DescendingReal<T>(key: T -> real): (T, T) -> bool {
    (x: T, y: T) => key(x) >= key(y)
  }

  /** Ascending order on string keys, compared as Kotlin compares strings. */
  function AscendingString<T>(key: T -> string): (T, T) -> bool {
    (x: T, y: T) => StrLe(key(x), key(y))
  }

  lemma StringOrderIsPreorder<T(!new)>(key: T -> string)
    ensures TotalPreorder(AscendingString(key))
  {
    var le := AscendingString(key);
    forall x: T, y: T ensures le(x, y) || le(y, x) {
      StrLessTotal(key(x), key(y));
    }
    forall x: T, y: T, z: T | le(x, y) && le(y, z)
      ensures le(x, z)
    {
      StrLeTransitive(key(x), key(y), key(z));
    }
  }

  lemma KeyOrdersArePreorders<T(!new)>(ik: T -> int, rk: T -> real)
    ensures TotalPreorder(AscendingInt(ik)) && TotalPreorder(DescendingInt(ik))
    ensures TotalPreorder(AscendingReal(rk)) && TotalPreorder(DescendingReal(rk))
  {
  }
}
