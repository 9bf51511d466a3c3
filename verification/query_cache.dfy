/** The query-answer cache: a table of answered queries keyed by the hex
    digest of the raw query text (`QueryCache` rows), with a hit counter per
    row. Lookups count hits, confidence-gated admissions add rows, and the
    administration endpoint evicts one row or clears the table.

    Requests are served one at a time; the timestamps `created_at` and
    `last_accessed` are not modelled. */
module QueryCache {
  import opened Wrappers
  import QueryView

  /** `query_hash`: the hex digest of the query text. */
  type Key = string

  /** One cached answer. The citation list is stored as JSON and read back
      with `json.loads`; the model keeps the list itself. */
  datatype CacheRecord = CacheRecord(
    queryText: string,
    answer: string,
    sources: seq<QueryView.Source>,
    confidence: real,
    docType: Option<string>,
    hitCount: nat)

  type Cache = map<Key, CacheRecord>

  // ---------------------------------------------------------------------------
  // Lookup
  // ---------------------------------------------------------------------------

  datatype LookupOutcome =
    | Hit(record: CacheRecord, cache: Cache)
    | Miss

  /** `QueryCache.objects.get(query_hash=...)` followed by `hit_count += 1`
      and `save()`: a present row is served with its counter raised by one;
      an absent one is a miss and changes nothing. */
  function Lookup(cache: Cache, key: Key): (o: LookupOutcome)
    ensures o.Hit? <==> key in cache
    ensures o.Hit? ==>
      && o.record.hitCount == cache[key].hitCount + 1
      && o.record == cache[key].(hitCount := o.record.hitCount)
      && o.cache.Keys == cache.Keys
      && o.cache[key] == o.record
      && forall k :: k in cache && k != key ==> o.cache[k] == cache[k]
  {
    if key in cache then
      var rec := cache[key].(hitCount := cache[key].hitCount + 1);
      Hit(rec, cache[key := rec])
    else
      Miss
  }

  /** The table after `n` lookups of the same key in a row. */
  function LookupTimes(cache: Cache, key: Key, n: nat): Cache
    decreases n
  {
    if n == 0 then cache
    else
      match Lookup(cache, key)
      case Hit(_, c) => LookupTimes(c, key, n - 1)
      case Miss => cache
  }

  /** `n` lookups of a cached query raise its counter by exactly `n` and
      change nothing else: no hit is lost when requests are served one at a
      time. */
  lemma {:induction false} HitsAccumulate(cache: Cache, key: Key, n: nat)
    requires key in cache
    ensures var c := LookupTimes(cache, key, n);
      && c.Keys == cache.Keys
      && c[key] == cache[key].(hitCount := cache[key].hitCount + n)
      && forall k :: k in cache && k != key ==> c[k] == cache[k]
    decreases n
  {
    if n > 0 {
      var c1 := Lookup(cache, key).cache;
      HitsAccumulate(c1, key, n - 1);
    }
  }

  // ---------------------------------------------------------------------------
  // Admission
  // ---------------------------------------------------------------------------

  /** Answers scoring below this are not cached (the bound is inclusive). */
  const AdmissionThreshold: real := 0.45

  /** Whether a freshly computed answer may enter the cache: the request
      uses the cache and the confidence reaches the threshold, inclusive. */
  predicate Admits(confidence: real, useCache: bool)
  {
    confidence >= AdmissionThreshold && useCache
  }

  /** A freshly created row: every field as given, no hits yet. */
  function NewRecord(queryText: string, answer: string, sources: seq<QueryView.Source>,
                     confidence: real, docType: Option<string>): (rec: CacheRecord)
    ensures rec.hitCount == 0
    ensures rec.queryText == queryText && rec.answer == answer && rec.sources == sources
    ensures rec.confidence == confidence && rec.docType == docType
  {
    CacheRecord(queryText, answer, sources, confidence, docType, 0)
  }

  /** `QueryCache.objects.create(...)` behind the confidence gate: an
      admitted answer becomes the row for `key` with no hits; a rejected one
      leaves the table as it was. No other row changes either way. */
  function Admit(cache: Cache, key: Key, queryText: string, answer: string,
                 sources: seq<QueryView.Source>, confidence: real, docType: Option<string>,
                 useCache: bool): (c: Cache)
    ensures Admits(confidence, useCache) ==>
      key in c && c[key] == NewRecord(queryText, answer, sources, confidence, docType)
    ensures !Admits(confidence, useCache) ==> c == cache
    ensures forall k :: k != key ==> (k in c <==> k in cache)
    ensures forall k :: k != key && k in cache ==> c[k] == cache[k]
  {
    if Admits(confidence, useCache) then
      cache[key := NewRecord(queryText, answer, sources, confidence, docType)]
    else
      cache
  }

  /** The gate is inclusive at 0.45: 0.44 is rejected, 0.45 admitted. */
  lemma AdmissionBoundary()
    ensures !Admits(0.44, true) && Admits(0.45, true)
    ensures forall c: real :: !Admits(c, false)
  {
  }

  /** Admitting under a fresh key grows the table by exactly one row. */
  lemma AdmitFreshGrows(cache: Cache, key: Key, queryText: string, answer: string,
                        sources: seq<QueryView.Source>, confidence: real, docType: Option<string>)
    requires key !in cache && Admits(confidence, true)
    ensures |Admit(cache, key, queryText, answer, sources, confidence, docType, true)| == |cache| + 1
  {
    var c := Admit(cache, key, queryText, answer, sources, confidence, docType, true);
    assert c.Keys == cache.Keys + {key};
  }

  // ---------------------------------------------------------------------------
  // Eviction
  // ---------------------------------------------------------------------------

  /** The answer of the DELETE endpoint. `Deleted` carries the query text of
      the evicted row, `Cleared` the number of rows removed. */
  datatype DeleteOutcome =
    | Deleted(queryText: string)
    | NotFound
    | Cleared(count: nat)

  /** `QueryCacheView.delete`. A non-empty `query_hash` parameter evicts
      that row, or reports it missing; an absent OR EMPTY parameter (Python's
      `if query_hash:` is false for `''`) clears the whole table and
      reports how many rows it held. */
  function Delete(cache: Cache, queryHash: Option<Key>): (res: (DeleteOutcome, Cache))
    ensures queryHash.Some? && queryHash.value != "" ==>
      var h := queryHash.value;
      && (h in cache ==> res.0 == Deleted(cache[h].queryText))
      && (h !in cache ==> res.0 == NotFound && res.1 == cache)
      && res.1.Keys == cache.Keys - {h}
      && (forall k :: k in res.1 ==> res.1[k] == cache[k])
    ensures (queryHash.None? || queryHash.value == "") ==>
      res.0 == Cleared(|cache|) && res.1 == map[]
  {
    match queryHash
    case Some(h) =>
      if h == "" then (Cleared(|cache|), map[])
      else if h in cache then (Deleted(cache[h].queryText), cache - {h})
      else (NotFound, cache)
    case None =>
      (Cleared(|cache|), map[])
  }

  /** Evicting a present row shrinks the table by exactly one. */
  lemma DeleteShrinksByOne(cache: Cache, h: Key)
    requires h != "" && h in cache
    ensures |Delete(cache, Some(h)).1| == |cache| - 1
  {
    assert Delete(cache, Some(h)).1.Keys == cache.Keys - {h};
  }

  /** After evicting a row its key misses. */
  lemma LookupAfterDeleteMisses(cache: Cache, h: Key)
    requires h != ""
    ensures Lookup(Delete(cache, Some(h)).1, h) == Miss
  {
  }
}
