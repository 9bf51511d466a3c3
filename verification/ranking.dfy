/** Stable descending ranking of positions by a real-valued key.

    Python's `sorted(xs, key=k, reverse=True)` is stable: it orders by key,
    largest first, and keeps items with equal keys in their input order. This
    module computes that order as a sequence of input positions, and states it
    as a relation (`IsStableRanking`) that has exactly one solution. */
module Ranking {
  import opened Numeric

  /** Position `i` is ranked ahead of position `j`: a strictly larger key, or
      an equal key and an earlier input position. A strict total order on
      distinct positions. */
  predicate Ahead(keys: seq<real>, i: nat, j: nat)
    requires i < |keys| && j < |keys|
  {
    keys[i] > keys[j] || (keys[i] == keys[j] && i < j)
  }

  /** Every pair of positions listed in `order` appears in `Ahead` order. */
  ghost predicate RankedBy(keys: seq<real>, order: seq<nat>)
  {
    && (forall p :: 0 <= p < |order| ==> order[p] < |keys|)
    && (forall p, q :: 0 <= p < q < |order| ==> Ahead(keys, order[p], order[q]))
  }

  /** `order` is the stable descending sort of all the positions of `keys`. */
  ghost predicate IsStableRanking(keys: seq<real>, order: seq<nat>)
  {
    && |order| == |keys|
    && (forall k: nat :: k in order <==> k < |keys|)
    && RankedBy(keys, order)
  }

  /** Places position `i` into an already ranked list, behind every position
      that is `Ahead` of it. */
  function Insert(keys: seq<real>, order: seq<nat>, i: nat): (r: seq<nat>)
    requires i < |keys| && RankedBy(keys, order) && i !in order
    ensures |r| == |order| + 1
    ensures forall k :: k in r <==> k in order || k == i
    ensures RankedBy(keys, r)
    decreases |order|
  {
    if |order| == 0 then [i]
    else if Ahead(keys, order[0], i) then
      var tail := Insert(keys, order[1..], i);
      HeadAheadOfInsert(keys, order, i, tail);
      [order[0]] + tail
    else
      [i] + order
  }

  /** The head of a ranked list that is `Ahead` of `i` stays ahead of
      everything in the tail once `i` has been inserted there. */
  lemma HeadAheadOfInsert(keys: seq<real>, order: seq<nat>, i: nat, tail: seq<nat>)
    requires i < |keys| && RankedBy(keys, order) && |order| > 0
    requires Ahead(keys, order[0], i)
    requires forall k :: k in tail ==> k in order[1..] || k == i
    requires forall q :: 0 <= q < |tail| ==> tail[q] < |keys|
    ensures forall q :: 0 <= q < |tail| ==> Ahead(keys, order[0], tail[q])
  {
    forall q | 0 <= q < |tail|
      ensures Ahead(keys, order[0], tail[q])
    {
      assert tail[q] in tail;
      if tail[q] != i {
        var j :| 0 <= j < |order[1..]| && order[1..][j] == tail[q];
        assert order[j + 1] == tail[q];
      }
    }
  }

  /** The stable ranking of the first `n` positions. */
  function RankPrefix(keys: seq<real>, n: nat): (r: seq<nat>)
    requires n <= |keys|
    ensures |r| == n
    ensures forall k: nat :: k in r <==> k < n
    ensures RankedBy(keys, r)
  {
    if n == 0 then [] else Insert(keys, RankPrefix(keys, n - 1), n - 1)
  }

  /** The stable descending ranking of all positions of `keys`. */
  function RankOrder(keys: seq<real>): (r: seq<nat>)
    ensures IsStableRanking(keys, r)
  {
    RankPrefix(keys, |keys|)
  }

  /** A ranked list never lists a position twice. */
  lemma RankedDistinct(keys: seq<real>, order: seq<nat>)
    requires RankedBy(keys, order)
    ensures forall p, q :: 0 <= p < q < |order| ==> order[p] != order[q]
  {
  }

  /** A stable ranking is a permutation of the positions. */
  lemma StableRankingIsPermutation(keys: seq<real>, order: seq<nat>)
    requires IsStableRanking(keys, order)
    ensures IsPermutation(order, |keys|)
  {
    RankedDistinct(keys, order);
  }

  lemma HeadIsMember(o: seq<nat>)
    requires |o| > 0
    ensures o[0] in o
  {
  }

  /** Two ranked lists of the same positions are the same list: the stable
      descending sort is uniquely determined by the keys. */
  lemma {:induction false} RankedUnique(keys: seq<real>, o1: seq<nat>, o2: seq<nat>)
    requires RankedBy(keys, o1) && RankedBy(keys, o2)
    requires forall k :: k in o1 <==> k in o2
    ensures o1 == o2
    decreases |o1|
  {
    if |o1| == 0 {
      if |o2| > 0 {
        HeadIsMember(o2);
        assert false;
      }
    } else {
      assert o1[0] in o2;
      assert |o2| > 0;
      assert o2[0] in o1;
      assert o1[0] == o2[0];
      RankedDistinct(keys, o1);
      RankedDistinct(keys, o2);
      forall k
        ensures k in o1[1..] <==> k in o2[1..]
      {
        if k in o1[1..] {
          var j :| 1 <= j < |o1| && o1[j] == k;
          assert k in o2 && k != o2[0];
          var j' :| 0 <= j' < |o2| && o2[j'] == k;
          assert o2[1..][j' - 1] == k;
        }
        if k in o2[1..] {
          var j :| 1 <= j < |o2| && o2[j] == k;
          assert k in o1 && k != o1[0];
          var j' :| 0 <= j' < |o1| && o1[j'] == k;
          assert o1[1..][j' - 1] == k;
        }
      }
      RankedUnique(keys, o1[1..], o2[1..]);
      assert o1 == [o1[0]] + o1[1..];
      assert o2 == [o2[0]] + o2[1..];
    }
  }

  /** `RankOrder` is the only stable ranking of its keys. */
  lemma StableRankingUnique(keys: seq<real>, order: seq<nat>)
    requires IsStableRanking(keys, order)
    ensures order == RankOrder(keys)
  {
    RankedUnique(keys, order, RankOrder(keys));
  }

  /** In a ranking, keys never increase from one position to a later one. */
  lemma RankedNonIncreasing(keys: seq<real>, order: seq<nat>)
    requires RankedBy(keys, order)
    ensures forall p, q :: 0 <= p < q < |order| ==> keys[order[p]] >= keys[order[q]]
  {
  }
}
