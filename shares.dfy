/**
 * Percentage shares of a total, as the pie chart and the category list on
 * the statistics screen both compute them: each amount divided by the sum
 * of all amounts, times 100.
 */
module Shares {
  import opened Grouping

  /** An amount's share of the total in percent; 0 when the total is not positive. */
  function Percentage(amount: real, total: real): (p: real)
    ensures total > 0.0 ==> p * total == amount * 100.0
    ensures total <= 0.0 ==> p == 0.0
  {
    if total > 0.0 then amount / total * 100.0 else 0.0
  }

  /** Each entry's share of `total`, under the entry's own key. */
  function SharesOf<K>(xs: Entries<K>, total: real): (ys: Entries<K>)
    ensures |ys| == |xs|
    ensures forall i | 0 <= i < |xs| :: ys[i] == (xs[i].0, Percentage(xs[i].1, total))
  {
    seq(|xs|, i requires 0 <= i < |xs| => (xs[i].0, Percentage(xs[i].1, total)))
  }

  lemma DivAdd(a: real, b: real, t: real)
    requires t != 0.0
    ensures (a + b) / t * 100.0 == a / t * 100.0 + b / t * 100.0
  {
  }

  lemma DivSelf(t: real)
    requires t != 0.0
    ensures t / t * 100.0 == 100.0
  {
  }

  /** The shares of the first k entries add up to those entries' part of the total, in percent. */
  lemma {:induction false} SharesPrefix<K>(xs: Entries<K>, total: real, k: int)
    requires total > 0.0 && 0 <= k <= |xs|
    ensures Total(SharesOf(xs, total)[..k]) == Total(xs[..k]) / total * 100.0
  {
    var ys := SharesOf(xs, total);
    if k == 0 {
      assert Total(xs[..k]) == 0.0;
    } else {
      SharesPrefix(xs, total, k - 1);
      assert ys[..k][..k - 1] == ys[..k - 1];
      assert xs[..k][..k - 1] == xs[..k - 1];
      var t, v := Total(xs[..k - 1]), xs[k - 1].1;
      assert Total(ys[..k]) == Total(ys[..k - 1]) + ys[k - 1].1;
      assert Total(xs[..k]) == t + v;
      assert ys[k - 1].1 == v / total * 100.0;
      DivAdd(t, v, total);
    }
  }

  /** With a positive total, the shares of all entries add up to exactly 100. */
  lemma SharesSumTo100<K>(xs: Entries<K>)
    requires Total(xs) > 0.0
    ensures Total(SharesOf(xs, Total(xs))) == 100.0
  {
    var ys := SharesOf(xs, Total(xs));
    SharesPrefix(xs, Total(xs), |xs|);
    assert ys[..|xs|] == ys;
    assert xs[..|xs|] == xs;
    DivSelf(Total(xs));
  }

  /** A share of a total the amount does not exceed is a percentage from 0 to 100. */
  lemma ShareBounds(amount: real, total: real)
    requires 0.0 <= amount <= total
    ensures 0.0 <= Percentage(amount, total) <= 100.0
  {
    if total > 0.0 {
      var p := Percentage(amount, total);
      assert p * total <= 100.0 * total;
      assert p * total >= 0.0 * total;
    }
  }
}
