/**
 The compounded value of a sequence of case returns and its maximum drawdown,
 as measured in one pass with a running peak.
 */
module Drawdown {
  import opened Common

  /** One case multiplies the value; a loss beyond -100% leaves nothing, not a debt. */
  function Growth(change: real): (g: real)
    ensures g >= 0.0
  {
    if 1.0 + change > 0.0 then 1.0 + change else 0.0
  }

  function Compound(value: real, change: real): (v: real)
    requires value >= 0.0
    ensures v >= 0.0
  {
    value * Growth(change)
  }

  /** The value after the first `k` returns, starting from 1. */
  function ValueAt(changes: seq<real>, k: nat): (v: real)
    requires k <= |changes|
    ensures v >= 0.0
  {
    if k == 0 then 1.0 else Compound(ValueAt(changes, k - 1), changes[k - 1])
  }

  function PeakAt(changes: seq<real>, k: nat): (p: real)
    requires k <= |changes|
    ensures p >= 1.0
  {
    if k == 0 then 1.0 else Larger(PeakAt(changes, k - 1), ValueAt(changes, k))
  }

  function DrawdownAt(changes: seq<real>, k: nat): real
    requires k <= |changes|
  {
    if k == 0 then 0.0
    else Larger(DrawdownAt(changes, k - 1), Fall(PeakAt(changes, k), ValueAt(changes, k)))
  }

  /** The maximum drawdown of a whole sequence of returns. */
  function MaximumDrawdown(changes: seq<real>): real {
    DrawdownAt(changes, |changes|)
  }

  /** The fraction lost in falling from `high` to `low`. */
  function Fall(high: real, low: real): real
    requires high > 0.0
  {
    (high - low) / high
  }

  /** The one-pass loop. */
  method Measure(changes: seq<real>) returns (maximumDrawdown: real)
    ensures maximumDrawdown == MaximumDrawdown(changes)
  {
    var value, peak := 1.0, 1.0;
    maximumDrawdown := 0.0;
    for k := 0 to |changes|
      invariant value == ValueAt(changes, k)
      invariant peak == PeakAt(changes, k) && peak >= 1.0
      invariant maximumDrawdown == DrawdownAt(changes, k)
    {
      value := Compound(value, changes[k]);
      peak := Larger(peak, value);
      maximumDrawdown := Larger(maximumDrawdown, Fall(peak, value));
    }
  }

  // ---- the drawdown is the largest fall between any two instants ----

  /** `1 - Fall(high, low)` is the share of `high` that is left. */
  lemma ShareLeft(high: real, low: real)
    requires high > 0.0
    ensures (1.0 - Fall(high, low)) * high == low
  {
    var q := (high - low) / high;
    assert q * high == high - low;
  }

  lemma OrderScaled(p: real, q: real, c: real)
    requires c > 0.0
    ensures p <= q <==> p * c <= q * c
  {
  }

  lemma FallGrowsWithHigh(a: real, b: real, v: real)
    requires a >= b > 0.0 && v >= 0.0
    ensures Fall(b, v) <= Fall(a, v)
  {
    ShareLeft(a, v);
    ShareLeft(b, v);
    SmallerShare(1.0 - Fall(a, v), 1.0 - Fall(b, v), a, b, v);
  }

  lemma SmallerShare(p: real, q: real, a: real, b: real, v: real)
    requires a >= b > 0.0 && v >= 0.0 && p * a == v && q * b == v
    ensures p <= q
  {
    OrderScaled(0.0, q, b);
    assert q * b <= q * a;
    OrderScaled(p, q, a);
  }

  lemma FallBounds(high: real, low: real)
    requires high > 0.0 && 0.0 <= low
    ensures Fall(high, low) <= 1.0
    ensures low <= high ==> 0.0 <= Fall(high, low)
    ensures low == high ==> Fall(high, low) == 0.0
    ensures low == 0.0 ==> Fall(high, low) == 1.0
  {
    ShareLeft(high, low);
    var share := 1.0 - Fall(high, low);
    OrderScaled(0.0, share, high);
    OrderScaled(share, 0.0, high);
    OrderScaled(share, 1.0, high);
    OrderScaled(1.0, share, high);
  }

  /** The peak is the largest value so far, and is one of them. */
  lemma {:induction false} PeakIsLargest(changes: seq<real>, k: nat) returns (at: nat)
    requires k <= |changes|
    ensures at <= k && PeakAt(changes, k) == ValueAt(changes, at)
    ensures forall i :: 0 <= i <= k ==> ValueAt(changes, i) <= PeakAt(changes, k)
  {
    at := 0;
    if k > 0 {
      at := PeakIsLargest(changes, k - 1);
      if ValueAt(changes, k) > PeakAt(changes, k - 1) { at := k; }
    }
  }

  ghost predicate BoundsFalls(changes: seq<real>, k: nat, d: real)
    requires k <= |changes|
  {
    forall i, j :: 0 <= i <= j <= k && ValueAt(changes, i) > 0.0 ==> Fall(ValueAt(changes, i), ValueAt(changes, j)) <= d
  }

  lemma {:induction false} LargestFallUpTo(changes: seq<real>, k: nat) returns (i: nat, j: nat)
    requires k <= |changes|
    ensures i <= j <= k && ValueAt(changes, i) > 0.0
    ensures DrawdownAt(changes, k) == Fall(ValueAt(changes, i), ValueAt(changes, j))
    ensures BoundsFalls(changes, k, DrawdownAt(changes, k))
  {
    if k == 0 {
      i, j := 0, 0;
    } else {
      i, j := LargestFallUpTo(changes, k - 1);
      var p := PeakIsLargest(changes, k);
      var last := Fall(PeakAt(changes, k), ValueAt(changes, k));
      forall a, b | 0 <= a <= b <= k && ValueAt(changes, a) > 0.0
        ensures Fall(ValueAt(changes, a), ValueAt(changes, b)) <= DrawdownAt(changes, k)
      {
        if b == k { FallGrowsWithHigh(PeakAt(changes, k), ValueAt(changes, a), ValueAt(changes, k)); }
      }
      if last > DrawdownAt(changes, k - 1) { i, j := p, k; }
    }
  }

  /** The one-pass figure is the maximum, over all pairs of instants in order, of the fall between them. */
  lemma {:induction false} DrawdownIsLargestFall(changes: seq<real>) returns (i: nat, j: nat)
    ensures i <= j <= |changes| && ValueAt(changes, i) > 0.0
    ensures MaximumDrawdown(changes) == Fall(ValueAt(changes, i), ValueAt(changes, j))
    ensures BoundsFalls(changes, |changes|, MaximumDrawdown(changes))
  {
    i, j := LargestFallUpTo(changes, |changes|);
  }

  /** It is a fraction, even when single returns are below -100%. */
  lemma {:induction false} DrawdownIsFraction(changes: seq<real>)
    ensures 0.0 <= MaximumDrawdown(changes) <= 1.0
  {
    var i, j := DrawdownIsLargestFall(changes);
    FallBounds(ValueAt(changes, i), ValueAt(changes, j));
    FallBounds(ValueAt(changes, 0), ValueAt(changes, 0));
  }

  // ---- lower returns never lower the drawdown ----

  /** Pointwise lower or equal. */
  predicate Below(lower: seq<real>, higher: seq<real>) {
    |lower| == |higher| && forall k :: 0 <= k < |lower| ==> lower[k] <= higher[k]
  }

  lemma ScaledOrder(a: real, b: real, c: real, d: real)
    requires 0.0 <= a <= b && 0.0 <= c <= d
    ensures a * c <= b * d
  {
    assert a * c <= b * c;
    assert b * c <= b * d;
  }

  /** The share of the value after `i` cases that is left after `j`. */
  function Kept(changes: seq<real>, i: nat, j: nat): (share: real)
    requires i <= j <= |changes|
    ensures share >= 0.0
    decreases j
  {
    if i == j then 1.0 else Compound(Kept(changes, i, j - 1), changes[j - 1])
  }

  lemma {:induction false} ValueFromShare(changes: seq<real>, i: nat, j: nat, start: real)
    requires i <= j <= |changes| && ValueAt(changes, i) == start
    ensures ValueAt(changes, j) == start * Kept(changes, i, j)
    decreases j
  {
    if i < j {
      ValueFromShare(changes, i, j - 1, start);
      var v, share, change := ValueAt(changes, j - 1), Kept(changes, i, j - 1), changes[j - 1];
      assert ValueAt(changes, j) == Compound(v, change);
      assert Kept(changes, i, j) == Compound(share, change);
      CompoundShare(v, start, share, change);
    }
  }

  lemma CompoundShare(v: real, start: real, share: real, change: real)
    requires v >= 0.0 && share >= 0.0 && v == start * share
    ensures Compound(v, change) == start * Compound(share, change)
  {
  }

  /** Between the same two instants, lower returns keep a smaller share. */
  lemma {:induction false} SmallerKept(lower: seq<real>, higher: seq<real>, i: nat, j: nat)
    requires Below(lower, higher) && i <= j <= |lower|
    ensures Kept(lower, i, j) <= Kept(higher, i, j)
    decreases j
  {
    if i < j {
      SmallerKept(lower, higher, i, j - 1);
      ScaledOrder(Kept(lower, i, j - 1), Kept(higher, i, j - 1), Growth(lower[j - 1]), Growth(higher[j - 1]));
    }
  }

  lemma FallFromShare(high: real, share: real, low: real)
    requires high > 0.0 && low == high * share
    ensures Fall(high, low) == 1.0 - share
  {
    ShareLeft(high, low);
    OrderScaled(1.0 - Fall(high, low), share, high);
    OrderScaled(share, 1.0 - Fall(high, low), high);
  }

  lemma {:induction false} FallIsLoss(changes: seq<real>, i: nat, j: nat)
    requires i <= j <= |changes| && ValueAt(changes, i) > 0.0
    ensures Fall(ValueAt(changes, i), ValueAt(changes, j)) == 1.0 - Kept(changes, i, j)
  {
    ValueFromShare(changes, i, j, ValueAt(changes, i));
    FallFromShare(ValueAt(changes, i), Kept(changes, i, j), ValueAt(changes, j));
  }

  lemma {:induction false} LossWithin(changes: seq<real>, i: nat, j: nat)
    requires i <= j <= |changes| && ValueAt(changes, i) > 0.0
    ensures 1.0 - Kept(changes, i, j) <= MaximumDrawdown(changes)
  {
    FallIsLoss(changes, i, j);
    var a, b := DrawdownIsLargestFall(changes);
  }

  lemma {:induction false} RuinIsTotal(changes: seq<real>, i: nat)
    requires i <= |changes| && ValueAt(changes, i) == 0.0
    ensures MaximumDrawdown(changes) == 1.0
  {
    DrawdownIsFraction(changes);
    FallIsLoss(changes, 0, i);
    FallBounds(1.0, 0.0);
    LossWithin(changes, 0, i);
  }

  /** Lowering returns pointwise, as a higher round-trip cost does, never lowers the drawdown. */
  lemma {:induction false} LowerReturnsFallFurther(lower: seq<real>, higher: seq<real>)
    requires Below(lower, higher)
    ensures MaximumDrawdown(higher) <= MaximumDrawdown(lower)
  {
    var i, j := DrawdownIsLargestFall(higher);
    FallIsLoss(higher, i, j);
    if ValueAt(lower, i) == 0.0 {
      DrawdownIsFraction(higher);
      RuinIsTotal(lower, i);
    } else {
      SmallerKept(lower, higher, i, j);
      LossWithin(lower, i, j);
    }
  }
}
