/** The query endpoint's original pipeline (`QueryView.post_original`):
    cache check, retrieval, rerank, citations, confidence, confidence-gated
    admission, response.

    Everything the request reads from outside is a parameter: the digest
    function that keys the cache (applied to the raw query text, with no case
    or whitespace folding), the passages retrieval returned, the random
    draws, the generated answer and the elapsed time. */
module QueryPipeline {
  import opened Wrappers
  import opened Numeric
  import opened QueryView
  import opened QueryCache
  import opened CacheStats

  /** A validated request: `query`, optional `doc_type`, `use_cache`. */
  datatype QueryRequest = QueryRequest(query: string, docType: Option<string>, useCache: bool)

  /** The response body. */
  datatype Response = Response(
    query: string,
    answer: string,
    sources: seq<Source>,
    confidence: real,
    fromCache: bool,
    processingTime: real)

  /** What one request observes from outside: the retrieved passages, one
      rerank draw per passage, the confidence draw, the generated answer and
      the time taken.

      `reboundDocType` records a side effect of retrieval on the handler's
      local `doc_type`: the document loop unpacks every database row into a
      variable of that same name, so once it has bound a row the request's
      filter is gone and the local holds the raw `doc_type` column of the
      last row bound (possibly null). It is `None` when no row was bound (an
      empty table, or a failure before the first row), `Some(d)` otherwise. */
  datatype Environment = Environment(
    retrieved: seq<RetrievalResult>,
    rerankDraws: seq<real>,
    confidenceDraw: real,
    answer: string,
    elapsed: real,
    reboundDocType: Option<Option<string>>)

  predicate ValidEnvironment(env: Environment)
  {
    AreDraws(env.rerankDraws, |env.retrieved|) && IsDraw(env.confidenceDraw)
  }

  /** The processing time reported for an answer served from the cache. */
  const CacheHitTime: real := 0.1

  /** The passages in reranked order. */
  function Ranked(env: Environment): seq<RetrievalResult>
    requires ValidEnvironment(env)
  {
    Rerank(env.retrieved, env.rerankDraws)
  }

  /** One request against the cache, with the doc type an admitted row is
      tagged with as a parameter; returns the response and the new cache.
      A hit serves the stored answer and counts the hit. A miss, or a request
      that opts out of the cache, computes a fresh answer; it is cached only
      when the request uses the cache and its confidence reaches 0.45, and
      then under a key that was absent, so no row is overwritten. Rows of
      other keys never change. */
  function Serve(cache: Cache, req: QueryRequest, digest: string -> Key, env: Environment,
                 docType: Option<string>)
    : (out: (Response, Cache))
    requires ValidEnvironment(env)
    ensures var key := digest(req.query);
      && out.0.query == req.query
      && (out.0.fromCache <==> req.useCache && key in cache)
      && (out.0.fromCache ==>
            && out.0.answer == cache[key].answer
            && out.0.sources == cache[key].sources
            && out.0.confidence == cache[key].confidence
            && out.0.processingTime == CacheHitTime
            && out.1.Keys == cache.Keys
            && out.1[key] == cache[key].(hitCount := cache[key].hitCount + 1))
      && (!out.0.fromCache ==>
            && out.0.answer == env.answer
            && out.0.sources == ExtractSources(Ranked(env))
            && out.0.confidence == ConfidenceScore(Ranked(env), env.confidenceDraw)
            && out.0.processingTime == env.elapsed
            && (Admits(out.0.confidence, req.useCache) ==>
                  key !in cache
                  && out.1 == cache[key := NewRecord(req.query, out.0.answer, out.0.sources,
                                                     out.0.confidence, docType)])
            && (!Admits(out.0.confidence, req.useCache) ==> out.1 == cache))
      && (forall k :: k != key ==> (k in out.1 <==> k in cache))
      && (forall k :: k != key && k in cache ==> out.1[k] == cache[k])
  {
    var key := digest(req.query);
    var lookup := if req.useCache then Lookup(cache, key) else Miss;
    match lookup
    case Hit(rec, c) =>
      (Response(req.query, rec.answer, rec.sources, rec.confidence, true, CacheHitTime), c)
    case Miss =>
      var ranked := Ranked(env);
      var sources := ExtractSources(ranked);
      var confidence := ConfidenceScore(ranked, env.confidenceDraw);
      var c := Admit(cache, key, req.query, env.answer, sources, confidence, docType, req.useCache);
      (Response(req.query, env.answer, sources, confidence, false, env.elapsed), c)
  }

  /** The handler as intended: an admitted row is tagged with the request's
      own doc type. */
  function HandleQuery(cache: Cache, req: QueryRequest, digest: string -> Key, env: Environment)
    : (out: (Response, Cache))
    requires ValidEnvironment(env)
    ensures var key := digest(req.query);
      key !in cache && key in out.1 ==> out.1[key].docType == req.docType
  {
    Serve(cache, req, digest, env, req.docType)
  }

  /** The doc type the handler, as written, passes to the cache after
      retrieval: the request's filter unless the document loop rebound it. */
  function DocTypeAsWritten(req: QueryRequest, env: Environment): (d: Option<string>)
    ensures env.reboundDocType.None? ==> d == req.docType
    ensures env.reboundDocType.Some? ==> d == env.reboundDocType.value
  {
    env.reboundDocType.GetOr(req.docType)
  }

  /** The handler as written: an admitted row is tagged with
      `DocTypeAsWritten`, which is the last database document's doc type
      whenever retrieval read one. */
  function HandleQueryAsWritten(cache: Cache, req: QueryRequest, digest: string -> Key, env: Environment)
    : (out: (Response, Cache))
    requires ValidEnvironment(env)
    ensures var key := digest(req.query);
      key !in cache && key in out.1 ==> out.1[key].docType == DocTypeAsWritten(req, env)
  {
    Serve(cache, req, digest, env, DocTypeAsWritten(req, env))
  }

  /** As written, a new query whose retrieval read the database is cached
      under the last document's doc type: a request filtered to one doc type
      is recorded under another whenever the two differ. The intended handler
      records the request's own doc type. */
  lemma AsWrittenLosesRequestDocType(cache: Cache, req: QueryRequest, digest: string -> Key,
                                     env: Environment, rowType: Option<string>)
    requires ValidEnvironment(env) && req.useCache && digest(req.query) !in cache
    requires |env.retrieved| > 0 && env.reboundDocType == Some(rowType) && rowType != req.docType
    ensures var key := digest(req.query);
      && key in HandleQueryAsWritten(cache, req, digest, env).1
      && HandleQueryAsWritten(cache, req, digest, env).1[key].docType == rowType
      && HandleQueryAsWritten(cache, req, digest, env).1[key].docType != req.docType
      && HandleQuery(cache, req, digest, env).1[key].docType == req.docType
  {
    NonEmptyRetrievalAdmitted(cache, req, digest, env, DocTypeAsWritten(req, env));
    NonEmptyRetrievalAdmitted(cache, req, digest, env, req.docType);
  }

  /** When retrieval bound no database row the two handlers coincide. */
  lemma AsWrittenAgreesWithoutRebinding(cache: Cache, req: QueryRequest, digest: string -> Key, env: Environment)
    requires ValidEnvironment(env) && env.reboundDocType.None?
    ensures HandleQueryAsWritten(cache, req, digest, env) == HandleQuery(cache, req, digest, env)
  {
  }

  // The lemmas below hold for every doc-type tag, hence both for the handler
  // as written (`HandleQueryAsWritten`) and for `HandleQuery`.

  /** A request that opts out of the cache neither reads nor writes it. */
  lemma OptOutLeavesCache(cache: Cache, req: QueryRequest, digest: string -> Key, env: Environment,
                          docType: Option<string>)
    requires ValidEnvironment(env) && !req.useCache
    ensures !Serve(cache, req, digest, env, docType).0.fromCache
    ensures Serve(cache, req, digest, env, docType).1 == cache
  {
  }

  /** A new query that retrieved anything at all is served from the cache
      the next time it is asked: same answer, same citations, same
      confidence, and its row counts one hit. */
  lemma SecondQueryHits(cache: Cache, req: QueryRequest, digest: string -> Key,
                        env1: Environment, env2: Environment, d1: Option<string>, d2: Option<string>)
    requires ValidEnvironment(env1) && ValidEnvironment(env2) && req.useCache
    requires digest(req.query) !in cache && |env1.retrieved| > 0
    ensures var (first, c1) := Serve(cache, req, digest, env1, d1);
      var (second, c2) := Serve(c1, req, digest, env2, d2);
      && second.fromCache
      && second.answer == first.answer
      && second.sources == first.sources
      && second.confidence == first.confidence
      && c2[digest(req.query)].hitCount == 1
  {
    NonEmptyRetrievalAdmitted(cache, req, digest, env1, d1);
  }

  /** Every non-empty retrieval clears the confidence gate: a missed query
      with at least one passage is always admitted. */
  lemma NonEmptyRetrievalAdmitted(cache: Cache, req: QueryRequest, digest: string -> Key, env: Environment,
                                  docType: Option<string>)
    requires ValidEnvironment(env) && req.useCache && digest(req.query) !in cache
    requires |env.retrieved| > 0
    ensures Serve(cache, req, digest, env, docType).0.confidence >= 0.54
    ensures digest(req.query) in Serve(cache, req, digest, env, docType).1
  {
    RerankedConfidenceFloor(env.retrieved, env.rerankDraws, env.confidenceDraw);
  }

  /** With nothing retrieved the answer has the floor confidence 0.1, cites
      nothing, and is never cached. The handler's own retrieval never yields
      an empty list (it falls back to three fixed passages when the database
      has no documents or fails), so this is the only route to a rejection
      and it is open only to other retrieval back ends. */
  lemma EmptyRetrievalNotAdmitted(cache: Cache, req: QueryRequest, digest: string -> Key, env: Environment,
                                  docType: Option<string>)
    requires ValidEnvironment(env) && |env.retrieved| == 0
    requires !(req.useCache && digest(req.query) in cache)
    ensures Serve(cache, req, digest, env, docType).0.confidence == EmptyConfidence
    ensures Serve(cache, req, digest, env, docType).0.sources == []
    ensures Serve(cache, req, digest, env, docType).1 == cache
  {
  }

  /** Every row of the cache entered through the gate, and stays so: the
      average confidence of the statistics never drops below 0.45. */
  lemma HandleQueryKeepsAllAdmitted(cache: Cache, req: QueryRequest, digest: string -> Key, env: Environment,
                                    docType: Option<string>)
    requires ValidEnvironment(env) && AllAdmitted(cache)
    ensures AllAdmitted(Serve(cache, req, digest, env, docType).1)
  {
  }
}
