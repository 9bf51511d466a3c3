/** Sums over sequences, as Python's `sum(...)` and Django's `Sum(...)` compute them. */
module Numeric {

  function Min(a: int, b: int): int
  {
    if a <= b then a else b
  }

  /** Left-to-right sum of reals. */
  function Sum(xs: seq<real>): real
  {
    if |xs| == 0 then 0.0 else xs[0] + Sum(xs[1..])
  }

  /** Arithmetic mean of a non-empty sequence. */
  function Mean(xs: seq<real>): real
    requires |xs| > 0
  {
    Sum(xs) / (|xs| as real)
  }

  /** Multiplying by a non-negative factor keeps an inequality. */
  lemma MulLeft(a: real, b: real, c: real)
    requires a <= b && 0.0 <= c
    ensures a * c <= b * c
  {
  }

  /** Multiplying by a positive factor keeps a strict inequality. */
  lemma MulLeftStrict(a: real, b: real, c: real)
    requires a < b && 0.0 < c
    ensures a * c < b * c
  {
  }

  /** Scaling a value in [lo, hi] by a factor in [0.9, 1) keeps it in
      [0.9 * lo, hi], strictly below `hi` when the value is positive. */
  lemma ScaledBounds(m: real, f: real, lo: real, hi: real)
    requires 0.0 <= lo <= m <= hi && 0.9 <= f < 1.0
    ensures 0.9 * lo <= m * f <= hi
    ensures 0.0 < lo ==> m * f < hi
  {
    assert m * f - 0.9 * lo == (m - lo) * f + lo * (f - 0.9);
    assert (m - lo) * f >= 0.0;
    assert lo * (f - 0.9) >= 0.0;
    assert m - m * f == m * (1.0 - f);
    assert m * (1.0 - f) >= 0.0;
    if 0.0 < lo {
      assert m * (1.0 - f) > 0.0;
    }
  }

  /** The mean lies between any lower and upper bound of the elements. */
  lemma MeanBounds(xs: seq<real>, lo: real, hi: real)
    requires |xs| > 0
    requires forall i :: 0 <= i < |xs| ==> lo <= xs[i] <= hi
    ensures lo <= Mean(xs) <= hi
  {
    var n := |xs| as real;
    SumLowerBound(xs, lo);
    SumUpperBound(xs, hi);
    assert n * lo <= Sum(xs) <= n * hi;
    MulLeft(n * lo, Sum(xs), 1.0 / n);
    MulLeft(Sum(xs), n * hi, 1.0 / n);
    assert (n * lo) * (1.0 / n) == lo;
    assert (n * hi) * (1.0 / n) == hi;
    assert Sum(xs) * (1.0 / n) == Mean(xs);
  }

  /** Short sums written out. */
  lemma SumUpToThree(xs: seq<real>)
    requires 1 <= |xs| <= 3
    ensures |xs| == 1 ==> Sum(xs) == xs[0]
    ensures |xs| == 2 ==> Sum(xs) == xs[0] + xs[1]
    ensures |xs| == 3 ==> Sum(xs) == xs[0] + xs[1] + xs[2]
  {
    if |xs| >= 2 {
      assert xs[1..][0] == xs[1];
      if |xs| == 3 {
        assert xs[1..][1..][0] == xs[2];
      }
    }
  }

  /** The largest element. */
  function Max(xs: seq<real>): (m: real)
    requires |xs| > 0
    ensures forall i :: 0 <= i < |xs| ==> xs[i] <= m
    ensures exists i :: 0 <= i < |xs| && xs[i] == m
  {
    if |xs| == 1 then xs[0]
    else
      var rest := Max(xs[1..]);
      if xs[0] >= rest then xs[0] else rest
  }

  /** Left-to-right sum of naturals. */
  function SumNat(xs: seq<nat>): nat
  {
    if |xs| == 0 then 0 else xs[0] + SumNat(xs[1..])
  }

  /** Every element at least `lo` puts the sum at least `|xs| * lo`. */
  lemma {:induction false} SumLowerBound(xs: seq<real>, lo: real)
    requires forall i :: 0 <= i < |xs| ==> lo <= xs[i]
    ensures (|xs| as real) * lo <= Sum(xs)
  {
    if |xs| > 0 {
      SumLowerBound(xs[1..], lo);
    }
  }

  /** Every element at most `hi` puts the sum at most `|xs| * hi`. */
  lemma {:induction false} SumUpperBound(xs: seq<real>, hi: real)
    requires forall i :: 0 <= i < |xs| ==> xs[i] <= hi
    ensures Sum(xs) <= (|xs| as real) * hi
  {
    if |xs| > 0 {
      SumUpperBound(xs[1..], hi);
    }
  }

  /** The sum of a concatenation is the sum of the parts. */
  lemma {:induction false} SumNatAppend(a: seq<nat>, b: seq<nat>)
    ensures SumNat(a + b) == SumNat(a) + SumNat(b)
  {
    if |a| == 0 {
      assert a + b == b;
    } else {
      assert (a + b)[1..] == a[1..] + b;
      SumNatAppend(a[1..], b);
    }
  }

  /** Raising one element by one raises the sum by exactly one. */
  lemma {:induction false} SumNatIncrement(xs: seq<nat>, i: nat)
    requires i < |xs|
    ensures SumNat(xs[i := xs[i] + 1]) == SumNat(xs) + 1
  {
    if i > 0 {
      assert xs[i := xs[i] + 1][1..] == xs[1..][i - 1 := xs[i] + 1];
      SumNatIncrement(xs[1..], i - 1);
    }
  }

  /** `order` lists every index of a length-`n` sequence exactly once. */
  ghost predicate IsPermutation(order: seq<nat>, n: nat)
  {
    && |order| == n
    && (forall p :: 0 <= p < |order| ==> order[p] < n)
    && (forall k: nat :: k in order <==> k < n)
    && (forall p, q :: 0 <= p < q < |order| ==> order[p] != order[q])
  }

  /** `xs` read in the order `order` lists its positions. */
  function Permute(xs: seq<nat>, order: seq<nat>): (r: seq<nat>)
    requires forall p :: 0 <= p < |order| ==> order[p] < |xs|
    ensures |r| == |order|
    ensures forall p :: 0 <= p < |order| ==> r[p] == xs[order[p]]
  {
    seq(|order|, p requires 0 <= p < |order| => xs[order[p]])
  }

  /** Dropping the position that holds the largest index `n - 1` leaves a
      permutation of the first `n - 1` indices. */
  lemma DropLast(order: seq<nat>, n: nat, p: nat)
    requires IsPermutation(order, n) && p < |order| && order[p] == n - 1
    ensures IsPermutation(order[..p] + order[p + 1..], n - 1)
    ensures forall j :: 0 <= j < |order| && j != p ==> order[j] < n - 1
  {
    var rest := order[..p] + order[p + 1..];
    forall j | 0 <= j < |rest|
      ensures rest[j] == order[if j < p then j else j + 1]
    {
    }
    forall j | 0 <= j < |rest|
      ensures rest[j] < n - 1
    {
      var j' := if j < p then j else j + 1;
      assert order[j'] != order[p];
    }
    forall j | 0 <= j < |order| && j != p
      ensures order[j] < n - 1
    {
      if j < p {
        assert order[j] != order[p];
      } else {
        assert order[p] != order[j];
      }
    }
    forall k: nat | k < n - 1
      ensures k in rest
    {
      assert k in order;
      var j :| 0 <= j < |order| && order[j] == k;
      if j < p {
        assert rest[j] == k;
      } else {
        assert rest[j - 1] == k;
      }
    }
    forall a, b | 0 <= a < b < |rest|
      ensures rest[a] != rest[b]
    {
      var a' := if a < p then a else a + 1;
      var b' := if b < p then b else b + 1;
      assert order[a'] != order[b'];
    }
  }

  /** Reading `xs` through `order` splits around the position `p` that reads its last element. */
  lemma PermuteSplit(xs: seq<nat>, order: seq<nat>, p: nat)
    requires |xs| > 0 && p < |order| && order[p] == |xs| - 1
    requires forall j :: 0 <= j < |order| && j != p ==> order[j] < |xs| - 1
    ensures Permute(xs, order)
         == Permute(xs[..|xs| - 1], order[..p]) + [xs[|xs| - 1]] + Permute(xs[..|xs| - 1], order[p + 1..])
  {
  }

  lemma PermuteAppend(xs: seq<nat>, a: seq<nat>, b: seq<nat>)
    requires forall j :: 0 <= j < |a| ==> a[j] < |xs|
    requires forall j :: 0 <= j < |b| ==> b[j] < |xs|
    ensures Permute(xs, a + b) == Permute(xs, a) + Permute(xs, b)
  {
  }

  /** Reordering a sequence does not change its sum. */
  lemma {:induction false} SumNatPermute(xs: seq<nat>, order: seq<nat>)
    requires IsPermutation(order, |xs|)
    ensures SumNat(Permute(xs, order)) == SumNat(xs)
    decreases |xs|
  {
    if |xs| > 0 {
      var m := |xs| - 1;
      assert m in order;
      var p :| 0 <= p < |order| && order[p] == m;
      DropLast(order, |xs|, p);
      var init := xs[..m];
      var a, b := order[..p], order[p + 1..];
      var left, right := Permute(init, a), Permute(init, b);
      SumNatPermute(init, a + b);
      assert SumNat(left + right) == SumNat(init) by {
        PermuteAppend(init, a, b);
      }
      PermuteSplit(xs, order, p);
      assert Permute(xs, order) == left + [xs[m]] + right;
      SumNatAppend(left + [xs[m]], right);
      SumNatAppend(left, [xs[m]]);
      SumNatAppend(left, right);
      assert xs == init + [xs[m]];
      SumNatAppend(init, [xs[m]]);
    }
  }
}
