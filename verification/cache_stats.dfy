/** The statistics of the cache administration endpoint (`GET`): table size,
    average confidence, total and average hits, the ten most-hit rows, and
    the number of rows per document type, most frequent first.

    A table has no order of its own, so the statistics take an enumeration
    `rows` of its keys (the order in which the store returns them). Ties in
    the two rankings follow that order; the store leaves them unspecified. */
module CacheStats {
  import opened Wrappers
  import opened Numeric
  import opened Ranking
  import opened QueryCache

  /** `rows` lists every key of `cache` exactly once. */
  ghost predicate IsEnumeration(cache: Cache, rows: seq<Key>)
  {
    && (forall i :: 0 <= i < |rows| ==> rows[i] in cache)
    && (forall k :: k in cache ==> k in rows)
    && (forall i, j :: 0 <= i < j < |rows| ==> rows[i] != rows[j])
  }

  /** An enumeration has one entry per row of the table. */
  lemma {:induction false} EnumerationSize(cache: Cache, rows: seq<Key>)
    requires IsEnumeration(cache, rows)
    ensures |rows| == |cache|
    decreases |rows|
  {
    if |rows| == 0 {
      assert cache.Keys == {};
    } else {
      var last := rows[|rows| - 1];
      var init := rows[..|rows| - 1];
      var smaller := cache - {last};
      forall k | k in smaller
        ensures k in init
      {
        assert k in rows;
        var i :| 0 <= i < |rows| && rows[i] == k;
        assert i != |rows| - 1;
        assert init[i] == k;
      }
      assert IsEnumeration(smaller, init);
      EnumerationSize(smaller, init);
      assert cache.Keys == smaller.Keys + {last};
    }
  }

  function HitCounts(cache: Cache, rows: seq<Key>): (hs: seq<nat>)
    requires forall i :: 0 <= i < |rows| ==> rows[i] in cache
    ensures |hs| == |rows|
    ensures forall i :: 0 <= i < |rows| ==> hs[i] == cache[rows[i]].hitCount
  {
    seq(|rows|, i requires 0 <= i < |rows| => cache[rows[i]].hitCount)
  }

  function Confidences(cache: Cache, rows: seq<Key>): (cs: seq<real>)
    requires forall i :: 0 <= i < |rows| ==> rows[i] in cache
    ensures |cs| == |rows|
    ensures forall i :: 0 <= i < |rows| ==> cs[i] == cache[rows[i]].confidence
  {
    seq(|rows|, i requires 0 <= i < |rows| => cache[rows[i]].confidence)
  }

  function DocTypes(cache: Cache, rows: seq<Key>): (ds: seq<Option<string>>)
    requires forall i :: 0 <= i < |rows| ==> rows[i] in cache
    ensures |ds| == |rows|
    ensures forall i :: 0 <= i < |rows| ==> ds[i] == cache[rows[i]].docType
  {
    seq(|rows|, i requires 0 <= i < |rows| => cache[rows[i]].docType)
  }

  function AsReals(xs: seq<nat>): (rs: seq<real>)
    ensures |rs| == |xs|
    ensures forall i :: 0 <= i < |xs| ==> rs[i] == xs[i] as real
  {
    seq(|xs|, i requires 0 <= i < |xs| => xs[i] as real)
  }

  // ---------------------------------------------------------------------------
  // top_queries
  // ---------------------------------------------------------------------------

  /** At most this many rows are reported as top queries. */
  const TopQueriesLimit: nat := 10

  /** A row as reported: its key and its record. */
  datatype Entry = Entry(queryHash: Key, record: CacheRecord)

  function EntryKeys(top: seq<Entry>): set<Key>
  {
    set p | 0 <= p < |top| :: top[p].queryHash
  }

  /** `order_by('-hit_count')[:10]`: the ten most-hit rows, most hits first;
      no row left out has more hits than a row reported. */
  function TopQueries(cache: Cache, rows: seq<Key>): (top: seq<Entry>)
    requires IsEnumeration(cache, rows)
    ensures |top| == Min(TopQueriesLimit, |cache|)
    ensures forall p :: 0 <= p < |top| ==>
      top[p].queryHash in cache && top[p].record == cache[top[p].queryHash]
    ensures forall p, q :: 0 <= p < q < |top| ==> top[p].queryHash != top[q].queryHash
    ensures forall p, q :: 0 <= p < q < |top| ==> top[p].record.hitCount >= top[q].record.hitCount
    ensures forall k, p :: k in cache && k !in EntryKeys(top) && 0 <= p < |top| ==>
      cache[k].hitCount <= top[p].record.hitCount
  {
    EnumerationSize(cache, rows);
    var keys := AsReals(HitCounts(cache, rows));
    var order := RankOrder(keys);
    var n := Min(TopQueriesLimit, |rows|);
    var top := seq(n, p requires 0 <= p < n => Entry(rows[order[p]], cache[rows[order[p]]]));
    TopQueriesAreTop(cache, rows, order, top);
    top
  }

  lemma TopQueriesAreTop(cache: Cache, rows: seq<Key>, order: seq<nat>, top: seq<Entry>)
    requires IsEnumeration(cache, rows)
    requires IsStableRanking(AsReals(HitCounts(cache, rows)), order)
    requires |top| <= |order|
    requires forall p :: 0 <= p < |top| ==> top[p] == Entry(rows[order[p]], cache[rows[order[p]]])
    ensures forall p, q :: 0 <= p < q < |top| ==> top[p].queryHash != top[q].queryHash
    ensures forall p, q :: 0 <= p < q < |top| ==> top[p].record.hitCount >= top[q].record.hitCount
    ensures forall k, p :: k in cache && k !in EntryKeys(top) && 0 <= p < |top| ==>
      cache[k].hitCount <= top[p].record.hitCount
  {
    var keys := AsReals(HitCounts(cache, rows));
    RankedDistinct(keys, order);
    RankedNonIncreasing(keys, order);
    forall p, q | 0 <= p < q < |top|
      ensures top[p].queryHash != top[q].queryHash
    {
      assert order[p] != order[q];
    }
    forall k, p | k in cache && k !in EntryKeys(top) && 0 <= p < |top|
      ensures cache[k].hitCount <= top[p].record.hitCount
    {
      assert k in rows;
      var i :| 0 <= i < |rows| && rows[i] == k;
      assert i in order;
      var q :| 0 <= q < |order| && order[q] == i;
      assert keys[order[p]] >= keys[order[q]];
    }
  }

  // ---------------------------------------------------------------------------
  // doc_type_distribution
  // ---------------------------------------------------------------------------

  /** One entry of the doc-type distribution: a doc type and how many rows
      carry it. */
  datatype DocTypeCount = DocTypeCount(docType: Option<string>, count: nat)

  /** How many of `ds` equal `d`. */
  function Occurrences(ds: seq<Option<string>>, d: Option<string>): nat
    decreases |ds|
  {
    if |ds| == 0 then 0
    else Occurrences(ds[..|ds| - 1], d) + (if ds[|ds| - 1] == d then 1 else 0)
  }

  function Counts(t: seq<DocTypeCount>): (cs: seq<nat>)
    ensures |cs| == |t|
    ensures forall j :: 0 <= j < |t| ==> cs[j] == t[j].count
  {
    seq(|t|, j requires 0 <= j < |t| => t[j].count)
  }

  function TypesOf(t: seq<DocTypeCount>): set<Option<string>>
  {
    set j | 0 <= j < |t| :: t[j].docType
  }

  /** `t` counts every value of `ds` once, with its exact number of occurrences. */
  ghost predicate IsTally(t: seq<DocTypeCount>, ds: seq<Option<string>>)
  {
    && (forall i, j :: 0 <= i < j < |t| ==> t[i].docType != t[j].docType)
    && (forall j :: 0 <= j < |t| ==> t[j].count == Occurrences(ds, t[j].docType) && t[j].count > 0)
    && (forall i :: 0 <= i < |ds| ==> ds[i] in TypesOf(t))
  }

  /** The position of type `d` in `t`, or -1. */
  function IndexOf(t: seq<DocTypeCount>, d: Option<string>): (j: int)
    ensures -1 <= j < |t|
    ensures j >= 0 ==> t[j].docType == d
    ensures j < 0 ==> forall i :: 0 <= i < |t| ==> t[i].docType != d
    decreases |t|
  {
    if |t| == 0 then -1
    else if t[|t| - 1].docType == d then |t| - 1
    else IndexOf(t[..|t| - 1], d)
  }

  /** Counts one more row of type `d`. */
  function Bump(t: seq<DocTypeCount>, d: Option<string>): seq<DocTypeCount>
  {
    var j := IndexOf(t, d);
    if j < 0 then t + [DocTypeCount(d, 1)]
    else t[j := t[j].(count := t[j].count + 1)]
  }

  lemma {:induction false} OccurrencesAbsent(ds: seq<Option<string>>, d: Option<string>)
    requires forall i :: 0 <= i < |ds| ==> ds[i] != d
    ensures Occurrences(ds, d) == 0
    decreases |ds|
  {
    if |ds| > 0 {
      OccurrencesAbsent(ds[..|ds| - 1], d);
    }
  }

  lemma OccurrencesSnoc(ds: seq<Option<string>>, d: Option<string>, x: Option<string>)
    ensures Occurrences(ds + [d], x) == Occurrences(ds, x) + (if d == x then 1 else 0)
  {
    assert (ds + [d])[..|ds|] == ds;
  }

  /** Counting one more row keeps a tally exact and raises its total by one. */
  lemma BumpTally(t: seq<DocTypeCount>, ds: seq<Option<string>>, d: Option<string>)
    requires IsTally(t, ds)
    ensures IsTally(Bump(t, d), ds + [d])
    ensures SumNat(Counts(Bump(t, d))) == SumNat(Counts(t)) + 1
  {
    var j := IndexOf(t, d);
    var b := Bump(t, d);
    forall x
      ensures Occurrences(ds + [d], x) == Occurrences(ds, x) + (if d == x then 1 else 0)
    {
      OccurrencesSnoc(ds, d, x);
    }
    if j < 0 {
      assert d !in TypesOf(t);
      assert forall i :: 0 <= i < |ds| ==> ds[i] != d;
      OccurrencesAbsent(ds, d);
      assert Counts(b) == Counts(t) + [1];
      SumNatAppend(Counts(t), [1]);
      forall i | 0 <= i < |ds + [d]|
        ensures (ds + [d])[i] in TypesOf(b)
      {
        if i < |ds| {
          var x := ds[i];
          assert x in TypesOf(t);
          var k :| 0 <= k < |t| && t[k].docType == x;
          assert b[k].docType == x;
        } else {
          assert b[|t|].docType == d;
        }
      }
    } else {
      assert Counts(b) == Counts(t)[j := t[j].count + 1];
      SumNatIncrement(Counts(t), j);
      forall i | 0 <= i < |ds + [d]|
        ensures (ds + [d])[i] in TypesOf(b)
      {
        if i < |ds| {
          var x := ds[i];
          assert x in TypesOf(t);
          var k :| 0 <= k < |t| && t[k].docType == x;
          assert b[k].docType == x;
        } else {
          assert b[j].docType == d;
        }
      }
    }
  }

  /** The rows per type, types in order of first appearance. */
  function Tally(ds: seq<Option<string>>): (t: seq<DocTypeCount>)
    ensures IsTally(t, ds)
    ensures SumNat(Counts(t)) == |ds|
    decreases |ds|
  {
    if |ds| == 0 then []
    else
      var init := Tally(ds[..|ds| - 1]);
      BumpTally(init, ds[..|ds| - 1], ds[|ds| - 1]);
      assert ds[..|ds| - 1] + [ds[|ds| - 1]] == ds;
      Bump(init, ds[|ds| - 1])
  }

  /** `values('doc_type').annotate(count=Count('id')).order_by('-count')`:
      one entry per document type present, with the exact number of rows of
      that type, most frequent first; the counts add up to the table size. */
  function DocTypeDistribution(cache: Cache, rows: seq<Key>): (dist: seq<DocTypeCount>)
    requires IsEnumeration(cache, rows)
    ensures IsTally(dist, DocTypes(cache, rows))
    ensures forall k :: k in cache ==> cache[k].docType in TypesOf(dist)
    ensures forall p, q :: 0 <= p < q < |dist| ==> dist[p].count >= dist[q].count
    ensures SumNat(Counts(dist)) == |cache|
  {
    EnumerationSize(cache, rows);
    var ds := DocTypes(cache, rows);
    var t := Tally(ds);
    var order := RankOrder(AsReals(Counts(t)));
    var dist := seq(|t|, p requires 0 <= p < |t| => t[order[p]]);
    RankedTally(t, ds, order, dist);
    forall k | k in cache
      ensures cache[k].docType in TypesOf(dist)
    {
      assert k in rows;
      var i :| 0 <= i < |rows| && rows[i] == k;
      assert ds[i] == cache[k].docType;
    }
    dist
  }

  /** Reordering a tally by count keeps it an exact tally with the same total. */
  lemma RankedTally(t: seq<DocTypeCount>, ds: seq<Option<string>>, order: seq<nat>, dist: seq<DocTypeCount>)
    requires IsTally(t, ds) && SumNat(Counts(t)) == |ds|
    requires IsStableRanking(AsReals(Counts(t)), order)
    requires |dist| == |t| && forall p :: 0 <= p < |dist| ==> dist[p] == t[order[p]]
    ensures IsTally(dist, ds)
    ensures forall p, q :: 0 <= p < q < |dist| ==> dist[p].count >= dist[q].count
    ensures SumNat(Counts(dist)) == |ds|
  {
    var keys := AsReals(Counts(t));
    RankedDistinct(keys, order);
    RankedNonIncreasing(keys, order);
    StableRankingIsPermutation(keys, order);
    forall p, q | 0 <= p < q < |dist|
      ensures dist[p].docType != dist[q].docType
    {
      var a, b := order[p], order[q];
      assert a != b;
      if a < b {
        assert t[a].docType != t[b].docType;
      } else {
        assert t[b].docType != t[a].docType;
      }
    }
    forall i | 0 <= i < |ds|
      ensures ds[i] in TypesOf(dist)
    {
      assert ds[i] in TypesOf(t);
      var j :| 0 <= j < |t| && t[j].docType == ds[i];
      assert j in order;
      var p :| 0 <= p < |order| && order[p] == j;
      assert dist[p].docType == ds[i];
    }
    assert Counts(dist) == Permute(Counts(t), order);
    SumNatPermute(Counts(t), order);
  }

  // ---------------------------------------------------------------------------
  // The statistics
  // ---------------------------------------------------------------------------

  datatype Stats = Stats(
    cacheSize: nat,
    avgConfidence: real,
    totalHits: nat,
    avgHits: real,
    topQueries: seq<Entry>,
    docTypeDistribution: seq<DocTypeCount>)

  /** The number of hits summed over every row (`Sum('hit_count')`),
      0 for an empty table. */
  function TotalHits(cache: Cache, rows: seq<Key>): nat
    requires IsEnumeration(cache, rows)
  {
    SumNat(HitCounts(cache, rows))
  }

  /** `Avg('confidence_score')`, reported as 0 for an empty table. */
  function AverageConfidence(cache: Cache, rows: seq<Key>): real
    requires IsEnumeration(cache, rows)
  {
    if |rows| == 0 then 0.0 else Mean(Confidences(cache, rows))
  }

  /** `QueryCacheView.get`. Averages over an empty table are reported as 0. */
  function GetStats(cache: Cache, rows: seq<Key>): (st: Stats)
    requires IsEnumeration(cache, rows)
    ensures st.cacheSize == |cache|
    ensures st.totalHits == TotalHits(cache, rows)
    ensures st.avgConfidence == AverageConfidence(cache, rows)
    ensures |cache| == 0 ==> st.avgConfidence == 0.0 && st.totalHits == 0 && st.avgHits == 0.0
    ensures |cache| > 0 ==> st.avgHits == (st.totalHits as real) / (st.cacheSize as real)
    ensures st.topQueries == TopQueries(cache, rows)
    ensures st.docTypeDistribution == DocTypeDistribution(cache, rows)
  {
    EnumerationSize(cache, rows);
    var size := |cache|;
    var total := TotalHits(cache, rows);
    Stats(
      size,
      AverageConfidence(cache, rows),
      total,
      if size == 0 then 0.0 else (total as real) / (size as real),
      TopQueries(cache, rows),
      DocTypeDistribution(cache, rows))
  }

  /** The counters after a hit: the hit row's counter one higher. */
  lemma HitCountsAfterHit(cache: Cache, rows: seq<Key>, key: Key, i: nat)
    requires IsEnumeration(cache, rows) && key in cache && i < |rows| && rows[i] == key
    ensures IsEnumeration(Lookup(cache, key).cache, rows)
    ensures HitCounts(Lookup(cache, key).cache, rows) == HitCounts(cache, rows)[i := cache[key].hitCount + 1]
  {
    var c := Lookup(cache, key).cache;
    assert c.Keys == cache.Keys;
    forall j | 0 <= j < |rows|
      ensures HitCounts(c, rows)[j] == HitCounts(cache, rows)[i := cache[key].hitCount + 1][j]
    {
      if j != i {
        assert rows[j] != key;
      }
    }
  }

  /** A hit raises the total hit count by exactly one and keeps the size. */
  lemma StatsAfterHit(cache: Cache, rows: seq<Key>, key: Key)
    requires IsEnumeration(cache, rows) && key in cache
    ensures IsEnumeration(Lookup(cache, key).cache, rows)
    ensures TotalHits(Lookup(cache, key).cache, rows) == TotalHits(cache, rows) + 1
    ensures |Lookup(cache, key).cache| == |cache|
  {
    assert key in rows;
    var i :| 0 <= i < |rows| && rows[i] == key;
    HitCountsAfterHit(cache, rows, key, i);
    SumNatIncrement(HitCounts(cache, rows), i);
  }

  /** Admitting a new query adds one row and no hits. */
  lemma StatsAfterAdmit(cache: Cache, rows: seq<Key>, key: Key, queryText: string, answer: string,
                        sources: seq<QueryView.Source>, confidence: real, docType: Option<string>)
    requires IsEnumeration(cache, rows) && key !in cache && Admits(confidence, true)
    ensures IsEnumeration(Admit(cache, key, queryText, answer, sources, confidence, docType, true), rows + [key])
    ensures var c := Admit(cache, key, queryText, answer, sources, confidence, docType, true);
      && |c| == |cache| + 1
      && TotalHits(c, rows + [key]) == TotalHits(cache, rows)
  {
    var c := Admit(cache, key, queryText, answer, sources, confidence, docType, true);
    AdmitFreshGrows(cache, key, queryText, answer, sources, confidence, docType);
    assert HitCounts(c, rows + [key]) == HitCounts(cache, rows) + [0];
    SumNatAppend(HitCounts(cache, rows), [0]);
  }

  /** Clearing the table leaves nothing to report. */
  lemma StatsAfterClear(cache: Cache)
    ensures var c := Delete(cache, None).1;
      && IsEnumeration(c, [])
      && GetStats(c, []) == Stats(0, 0.0, 0, 0.0, [], [])
  {
  }

  /** Every row of the table entered through the confidence gate. */
  ghost predicate AllAdmitted(cache: Cache)
  {
    forall k :: k in cache ==> cache[k].confidence >= AdmissionThreshold
  }

  /** When every row passed the gate, so does their average confidence. */
  lemma AverageConfidenceAdmitted(cache: Cache, rows: seq<Key>)
    requires IsEnumeration(cache, rows) && AllAdmitted(cache) && |cache| > 0
    ensures AverageConfidence(cache, rows) >= AdmissionThreshold
  {
    EnumerationSize(cache, rows);
    var cs := Confidences(cache, rows);
    var hi := Max(cs);
    MeanBounds(cs, AdmissionThreshold, hi);
  }
}
