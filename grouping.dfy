/**
 * Insertion-ordered maps from keys to summed amounts, as Kotlin's
 * `LinkedHashMap` builds them: `groupBy { key }.mapValues { sumOf { amount } }`
 * and the `map[key] = (map[key] ?: 0.0) + amount` accumulation loop both keep
 * the keys in order of first appearance.  A map is a sequence of
 * (key, value) entries with distinct keys.
 */
module Grouping {

  type Entries<K> = seq<(K, real)>

  predicate DistinctKeys<K(==)>(m: Entries<K>) {
    forall i, j | 0 <= i < j < |m| :: m[i].0 != m[j].0
  }

  predicate HasKey<K(==)>(m: Entries<K>, k: K) {
    exists i | 0 <= i < |m| :: m[i].0 == k
  }

  /** Sum of all amounts. */
  function Total<K>(xs: Entries<K>): real {
    if xs == [] then 0.0 else Total(xs[..|xs| - 1]) + xs[|xs| - 1].1
  }

  /** Sum of the amounts filed under key `k`. */
  function SumFor<K(==)>(xs: Entries<K>, k: K): real {
    if xs == [] then 0.0
    else SumFor(xs[..|xs| - 1], k) + (if xs[|xs| - 1].0 == k then xs[|xs| - 1].1 else 0.0)
  }

  /** Index of the first item filed under `k`; `|xs|` when there is none. */
  function FirstIndex<K(==)>(xs: Entries<K>, k: K): (i: nat)
    ensures i <= |xs|
    ensures i < |xs| ==> xs[i].0 == k
    ensures forall j | 0 <= j < i :: xs[j].0 != k
  {
    if xs == [] then 0
    else if xs[0].0 == k then 0
    else 1 + FirstIndex(xs[1..], k)
  }

  /** Position of key `k` in the map, or `|m|` when absent. */
  function Find<K(==)>(m: Entries<K>, k: K): (i: nat)
    ensures i <= |m|
    ensures i < |m| <==> HasKey(m, k)
    ensures i < |m| ==> m[i].0 == k
  {
    FirstIndex(m, k)
  }

  /** `map[k] = (map[k] ?: 0.0) + v` */
  function Accumulate<K(==)>(m: Entries<K>, k: K, v: real): (r: Entries<K>)
    ensures HasKey(m, k) ==> |r| == |m|
    ensures !HasKey(m, k) ==> r == m + [(k, v)]
  {
    var i := Find(m, k);
    if i < |m| then m[i := (k, m[i].1 + v)] else m + [(k, v)]
  }

  /**
   * `m` groups the items `xs`: one entry per distinct key of `xs`, in order
   * of first appearance, whose value is the sum of that key's amounts; the
   * values add up to the total of `xs`.
   */
  ghost predicate Groups<K(!new)>(m: Entries<K>, xs: Entries<K>) {
    DistinctKeys(m)
    && (forall k :: HasKey(m, k) <==> HasKey(xs, k))
    && (forall i | 0 <= i < |m| :: m[i].1 == SumFor(xs, m[i].0))
    && (forall i, j | 0 <= i < j < |m| :: FirstIndex(xs, m[i].0) < FirstIndex(xs, m[j].0))
    && Total(m) == Total(xs)
  }

  /** `groupBy { key }.mapValues { sumOf { amount } }` */
  function GroupSum<K(==,!new)>(xs: Entries<K>): (m: Entries<K>)
    ensures Groups(m, xs)
  {
    if xs == [] then []
    else
      var prefix := xs[..|xs| - 1];
      assert prefix + [xs[|xs| - 1]] == xs;
      var (k, v) := xs[|xs| - 1];
      var m := GroupSum(prefix);
      AccumulateSpec(m, k, v, prefix);
      Accumulate(m, k, v)
  }

  lemma FirstIndexOfPrefix<K>(xs: Entries<K>, k: K)
    requires xs != []
    ensures var prefix := xs[..|xs| - 1];
      FirstIndex(xs, k) == if HasKey(prefix, k) then FirstIndex(prefix, k)
                           else if xs[|xs| - 1].0 == k then |xs| - 1 else |xs|
  {
    var prefix := xs[..|xs| - 1];
    var i := FirstIndex(prefix, k);
    if i < |prefix| {
      assert xs[i] == prefix[i];
    } else {
      forall j | 0 <= j < |prefix| ensures xs[j].0 != k {
        assert xs[j] == prefix[j];
      }
    }
  }

  lemma HasKeyAppend<K>(seen: Entries<K>, e: (K, real), k: K)
    ensures HasKey(seen + [e], k) <==> HasKey(seen, k) || k == e.0
  {
    var xs := seen + [e];
    if HasKey(seen, k) {
      var i :| 0 <= i < |seen| && seen[i].0 == k;
      assert xs[i] == seen[i];
    }
    if HasKey(xs, k) && k != e.0 {
      var i :| 0 <= i < |xs| && xs[i].0 == k;
      assert xs[i] == seen[i];
    }
    if k == e.0 {
      assert xs[|seen|].0 == k;
    }
  }

  lemma HasKeyUpdate<K>(m: Entries<K>, i: nat, v: real, k: K)
    requires i < |m|
    ensures HasKey(m[i := (m[i].0, v)], k) <==> HasKey(m, k)
  {
    var r := m[i := (m[i].0, v)];
    if HasKey(m, k) {
      var j :| 0 <= j < |m| && m[j].0 == k;
      assert r[j].0 == k;
    }
    if HasKey(r, k) {
      var j :| 0 <= j < |r| && r[j].0 == k;
      assert m[j].0 == k;
    }
  }

  lemma TotalUpdate<K>(m: Entries<K>, i: nat, e: (K, real))
    requires i < |m|
    ensures Total(m[i := e]) == Total(m) - m[i].1 + e.1
  {
    if i < |m| - 1 {
      assert m[i := e][..|m| - 1] == m[..|m| - 1][i := e];
      TotalUpdate(m[..|m| - 1], i, e);
    } else {
      assert m[i := e][..|m| - 1] == m[..|m| - 1];
    }
  }

  lemma SumForAppend<K>(seen: Entries<K>, e: (K, real), k: K)
    ensures SumFor(seen + [e], k) == SumFor(seen, k) + (if e.0 == k then e.1 else 0.0)
  {
    assert (seen + [e])[..|seen|] == seen;
  }

  lemma TotalAppend<K>(seen: Entries<K>, e: (K, real))
    ensures Total(seen + [e]) == Total(seen) + e.1
  {
    assert (seen + [e])[..|seen|] == seen;
  }

  /** Appending an item under a key already seen leaves every first appearance in place. */
  lemma FirstIndexAppendSeen<K>(seen: Entries<K>, e: (K, real), k: K)
    requires HasKey(seen, k)
    ensures FirstIndex(seen + [e], k) == FirstIndex(seen, k) < |seen|
  {
    var xs := seen + [e];
    assert xs[..|xs| - 1] == seen;
    FirstIndexOfPrefix(xs, k);
  }

  /** Accumulating into a key already present updates that entry in place. */
  lemma AccumulateExisting<K(!new)>(m: Entries<K>, k: K, v: real, seen: Entries<K>)
    requires Groups(m, seen) && HasKey(m, k)
    ensures Groups(Accumulate(m, k, v), seen + [(k, v)])
  {
    var r := Accumulate(m, k, v);
    var xs := seen + [(k, v)];
    var i := Find(m, k);
    assert r == m[i := (m[i].0, m[i].1 + v)];
    assert DistinctKeys(r) by {
      assert forall j | 0 <= j < |r| :: r[j].0 == m[j].0;
    }
    AccumulateExistingKeys(m, k, v, seen);
    AccumulateExistingSums(m, k, v, seen);
    AccumulateExistingOrder(m, k, v, seen);
    TotalUpdate(m, i, (k, m[i].1 + v));
    TotalAppend(seen, (k, v));
  }

  lemma AccumulateExistingKeys<K(!new)>(m: Entries<K>, k: K, v: real, seen: Entries<K>)
    requires Groups(m, seen) && HasKey(m, k)
    ensures forall k' :: HasKey(Accumulate(m, k, v), k') <==> HasKey(seen + [(k, v)], k')
  {
    var i := Find(m, k);
    forall k' ensures HasKey(Accumulate(m, k, v), k') <==> HasKey(seen + [(k, v)], k') {
      HasKeyUpdate(m, i, m[i].1 + v, k');
      HasKeyAppend(seen, (k, v), k');
    }
  }

  lemma AccumulateExistingSums<K(!new)>(m: Entries<K>, k: K, v: real, seen: Entries<K>)
    requires Groups(m, seen) && HasKey(m, k)
    ensures var r := Accumulate(m, k, v);
      forall j | 0 <= j < |r| :: r[j].1 == SumFor(seen + [(k, v)], r[j].0)
  {
    var r := Accumulate(m, k, v);
    var i := Find(m, k);
    forall j | 0 <= j < |r| ensures r[j].1 == SumFor(seen + [(k, v)], r[j].0) {
      SumForAppend(seen, (k, v), r[j].0);
      if j != i {
        assert r[j] == m[j] && m[j].0 != k;
      }
    }
  }

  lemma AccumulateExistingOrder<K(!new)>(m: Entries<K>, k: K, v: real, seen: Entries<K>)
    requires Groups(m, seen) && HasKey(m, k)
    ensures var r := Accumulate(m, k, v);
      forall a, b | 0 <= a < b < |r| :: FirstIndex(seen + [(k, v)], r[a].0) < FirstIndex(seen + [(k, v)], r[b].0)
  {
    var r := Accumulate(m, k, v);
    forall j | 0 <= j < |r|
      ensures r[j].0 == m[j].0 && FirstIndex(seen + [(k, v)], r[j].0) == FirstIndex(seen, m[j].0)
    {
      assert HasKey(m, m[j].0);
      FirstIndexAppendSeen(seen, (k, v), m[j].0);
    }
  }

  lemma {:induction false} SumForAbsent<K>(xs: Entries<K>, k: K)
    requires !HasKey(xs, k)
    ensures SumFor(xs, k) == 0.0
  {
    if xs != [] {
      var prefix := xs[..|xs| - 1];
      forall i | 0 <= i < |prefix| ensures prefix[i].0 != k {
        assert prefix[i] == xs[i];
      }
      SumForAbsent(prefix, k);
    }
  }

  /** Accumulating into a new key appends an entry at the end. */
  lemma AccumulateNew<K(!new)>(m: Entries<K>, k: K, v: real, seen: Entries<K>)
    requires Groups(m, seen) && !HasKey(m, k)
    ensures Groups(Accumulate(m, k, v), seen + [(k, v)])
  {
    var r := Accumulate(m, k, v);
    assert r == m + [(k, v)];
    assert DistinctKeys(r) by {
      forall j | 0 <= j < |m| ensures r[j] == m[j] && m[j].0 != k {
        assert HasKey(m, m[j].0);
      }
    }
    forall k' ensures HasKey(r, k') <==> HasKey(seen + [(k, v)], k') {
      HasKeyAppend(m, (k, v), k');
      HasKeyAppend(seen, (k, v), k');
    }
    AccumulateNewSums(m, k, v, seen);
    AccumulateNewOrder(m, k, v, seen);
    TotalAppend(m, (k, v));
    TotalAppend(seen, (k, v));
  }

  lemma AccumulateNewSums<K(!new)>(m: Entries<K>, k: K, v: real, seen: Entries<K>)
    requires Groups(m, seen) && !HasKey(m, k)
    ensures var r := m + [(k, v)];
      forall j | 0 <= j < |r| :: r[j].1 == SumFor(seen + [(k, v)], r[j].0)
  {
    var r := m + [(k, v)];
    assert !HasKey(seen, k);
    SumForAbsent(seen, k);
    forall j | 0 <= j < |r| ensures r[j].1 == SumFor(seen + [(k, v)], r[j].0) {
      SumForAppend(seen, (k, v), r[j].0);
      if j < |m| {
        assert r[j] == m[j];
        assert HasKey(m, m[j].0);
      }
    }
  }

  lemma AccumulateNewOrder<K(!new)>(m: Entries<K>, k: K, v: real, seen: Entries<K>)
    requires Groups(m, seen) && !HasKey(m, k)
    ensures var r := m + [(k, v)];
      forall a, b | 0 <= a < b < |r| :: FirstIndex(seen + [(k, v)], r[a].0) < FirstIndex(seen + [(k, v)], r[b].0)
  {
    var r := m + [(k, v)];
    var xs := seen + [(k, v)];
    assert !HasKey(seen, k);
    assert xs[..|xs| - 1] == seen;
    FirstIndexOfPrefix(xs, k);
    forall j | 0 <= j < |m|
      ensures r[j] == m[j] && FirstIndex(xs, m[j].0) == FirstIndex(seen, m[j].0) < |seen|
    {
      assert HasKey(m, m[j].0);
      FirstIndexAppendSeen(seen, (k, v), m[j].0);
    }
  }

  /** One accumulation step keeps the grouping invariant of the items seen so far. */
  lemma AccumulateSpec<K(!new)>(m: Entries<K>, k: K, v: real, seen: Entries<K>)
    requires Groups(m, seen)
    ensures Groups(Accumulate(m, k, v), seen + [(k, v)])
  {
    if HasKey(m, k) {
      AccumulateExisting(m, k, v, seen);
    } else {
      AccumulateNew(m, k, v, seen);
    }
  }

  /** No amount is negative. */
  predicate NoNegativeValues<K>(xs: Entries<K>) {
    forall i | 0 <= i < |xs| :: xs[i].1 >= 0.0
  }

  /** With non-negative amounts, the sum filed under one key lies between zero and the total. */
  lemma {:induction false} SumForNonNegative<K>(xs: Entries<K>, k: K)
    requires NoNegativeValues(xs)
    ensures 0.0 <= SumFor(xs, k) <= Total(xs)
  {
    if xs != [] {
      SumForNonNegative(xs[..|xs| - 1], k);
    }
  }

  lemma {:induction false} TotalNonPositive<K>(xs: Entries<K>)
    requires forall i | 0 <= i < |xs| :: xs[i].1 <= 0.0
    ensures Total(xs) <= 0.0
  {
    if xs != [] {
      TotalNonPositive(xs[..|xs| - 1]);
    }
  }

  lemma {:induction false} TotalNonNegative<K>(xs: Entries<K>)
    requires NoNegativeValues(xs)
    ensures Total(xs) >= 0.0
  {
    if xs != [] {
      TotalNonNegative(xs[..|xs| - 1]);
    }
  }

  /** With no negative amounts, every amount lies between zero and the total. */
  lemma {:induction false} TotalBoundsEntry<K>(xs: Entries<K>, k: int)
    requires NoNegativeValues(xs)
    requires 0 <= k < |xs|
    ensures 0.0 <= xs[k].1 <= Total(xs)
  {
    var init := xs[..|xs| - 1];
    if k == |xs| - 1 {
      TotalNonNegative(init);
    } else {
      TotalBoundsEntry(init, k);
    }
  }
}
