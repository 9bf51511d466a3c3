# RNA Lab Navigator query cache — a Dafny model

This project models the query path of the RNA Lab Navigator backend in Dafny and proves properties of the model. It covers two parts.

**The query-answer cache and its scoring helpers** (`backend/api/views_simplified.py`):
- The reranker gives each retrieved passage a mock score: `0.9 - 0.05·idx` plus a random jitter below 0.1, clamped to [0.1, 0.99]. It then sorts the passages stably by that score, highest first.
- The citation list keeps the first five passages. Each entry is numbered from 1, and missing metadata is filled with defaults.
- The prompt renders the instruction, the question and the same five passages.
- The confidence is 0.1 when nothing was retrieved. Otherwise it is the mean score of the first three passages times a random factor in [0.9, 1).
- The cache is a table keyed by the digest of the raw query text. A hit raises that row's hit count by one and serves the stored answer. A missed answer is admitted only when the request uses the cache and its confidence is at least 0.45.
- The administration endpoint evicts one row or clears the table, and reports statistics.

**The embedding protector** (`backend/api/security/differential_privacy.py`). As shipped, it is a no-op:
- Both protection functions return their input.
- The only protector returns its input unchanged.
- Its distance is the constant 0.1.

Modules, leaves first:
- `Wrappers`: optional values.
- `Numeric`: sums, means and reordering.
- `Ranking`: the stable descending sort, computed as an order of positions, together with a relational definition (`IsStableRanking`) that has exactly one solution.
- `QueryView`: the helpers of `QueryView`.
- `QueryCache`: lookup, admission and deletion on `map<Key, CacheRecord>`.
- `CacheStats`: the `GET` statistics.
- `QueryPipeline`: `post_original`.
- `DifferentialPrivacy`: the no-op protector.

Inputs from outside the model are parameters:
- Python's `random.random()` becomes explicit draws `r` with `0 <= r < 1`: one draw per passage for the reranker and one for the confidence.
- The cache key is `digest(query)`, where `digest` is a function parameter applied to the raw text. The model folds no case or whitespace, and it does not assume that the digest is injective.
- These are fields of an `Environment` value: the retrieved passages, the generated answer and the elapsed time. So is the value the retrieval loop leaves in the handler's local `doc_type` (see Findings).
- Scores are `real`.

Consequences worth knowing, each proved:
- **The 0.45 gate never rejects a non-empty retrieval** (`QueryPipeline.NonEmptyRetrievalAdmitted`). After reranking, the top passage scores at least 0.9 and the second at least 0.85, so the confidence is at least 0.54. Only an empty retrieval, which has confidence 0.1, is kept out of the cache. The handler's own retrieval (lines 222-318) never returns an empty list: it yields either the first rows of `api_document`, at most ten (line 227), or three fixed passages (lines 258-286 or 290-318). So as written, every miss of a request that uses the cache is admitted. `QueryPipeline.EmptyRetrievalNotAdmitted` describes a case open only to a different retrieval back end.
- **The reranker keeps the retrieval order roughly**, as its comment promises (`QueryView.RerankKeepsRoughOrder`). A passage is never ranked behind one retrieved two or more places after it.
- **The `0.3` branch of `calculate_confidence_score` is unreachable.** A non-empty list always has at least one of its first three scores. The branch is kept in `QueryView.ConfidenceScore`, and the verifier shows that no input reaches it.
- **An empty `query_hash` parameter clears the whole cache.** `if query_hash:` is false for `''`, so `DELETE ?query_hash=` goes to the clear-all branch. `QueryCache.Delete` models this as written.

Behaviours a reader might expect from the names and the configuration, but which the code does not have:
- The key is not normalised.
- Admission only creates a row after a miss and never overwrites one.
- `use_cache = false` skips both the lookup and the admission.
- The protector does no clipping and adds no noise. Its distance is not a metric and does not check dimensions.

## Model

| member | source | states |
|---|---|---|
| `Ranking.Insert` | backend/api/views_simplified.py:73 | inserting a position into a stably ranked list keeps it ranked, adds exactly that position and nothing else |
| `Ranking.RankOrder` | backend/api/views_simplified.py:73 | the computed order is a stable descending ranking: a permutation of all positions, higher keys first, equal keys in input order |
| `Ranking.StableRankingUnique` | backend/api/views_simplified.py:73 | any stable descending ranking of the keys equals `RankOrder`: the stable sort is uniquely determined |
| `Ranking.RankedUnique` | backend/api/views_simplified.py:73 | two ranked lists of the same positions are equal |
| `QueryView.Clamp` | backend/api/views_simplified.py:70 | `max(0.1, min(0.99, x))` lies in [0.1, 0.99], is `x` inside that interval and the nearer bound outside it |
| `QueryView.JitteredScore` | backend/api/views_simplified.py:70 | the mock score of any position under any draw lies in [0.1, 0.99] |
| `QueryView.Rescore` | backend/api/views_simplified.py:68-70 | the scoring loop overwrites only the score of each passage, with the jittered score of its position, and keeps content and metadata |
| `QueryView.Rerank` | backend/api/views_simplified.py:64-73 | the result has as many passages as the input, every score is set and in [0.1, 0.99], scores never increase down the list, and the list is a stable descending sort of the rescored passages |
| `QueryView.StableSortUnique` | backend/api/views_simplified.py:73 | two stable descending sorts of the same passages are equal, so the rerank is determined by passages and draws |
| `QueryView.JitterKeepsDistance` | backend/api/views_simplified.py:69-70 | a passage two or more positions earlier never scores lower, whatever the two draws |
| `QueryView.RerankKeepsRoughOrder` | backend/api/views_simplified.py:68-73 | in the reranked order no passage follows one retrieved two or more places after it |
| `QueryView.RerankTopScores` | backend/api/views_simplified.py:68-73 | the first reranked passage scores at least 0.9, and the second at least 0.85 when there are two |
| `QueryView.ExtractSources` | backend/api/views_simplified.py:90-103 | exactly min(5, n) citations, ids 1..k in rank order, with title `Source i+1`, doc type `unknown`, year and author `''`, and page `None` when the metadata lacks them |
| `QueryView.ExtractSourcesTopFive` | backend/api/views_simplified.py:93 | passages after the fifth never change the citation list |
| `QueryView.BuildPrompt` | backend/api/views_simplified.py:75-88 | the prompt begins with the instruction, question and `Sources:` header, and is exactly that header when there are no passages |
| `QueryView.PromptCitesSources` | backend/api/views_simplified.py:75-103 | the prompt lists, in order, the same ids and titles as the citation list, each followed by its passage's content |
| `QueryView.TopScores` | backend/api/views_simplified.py:117 | the scores of the first min(3, n) passages, missing scores read as 0 |
| `QueryView.JitterFactor` | backend/api/views_simplified.py:121 | the confidence factor lies in [0.9, 1) for every draw |
| `QueryView.ConfidenceScore` | backend/api/views_simplified.py:110-121 | exactly 0.1 for no passages, otherwise the mean of the first min(3, n) scores times the factor |
| `QueryView.ConfidenceBounds` | backend/api/views_simplified.py:110-121 | scores of the first three passages within [lo, hi] put the confidence within [0.9·lo, hi], strictly below hi when lo > 0 |
| `QueryView.RerankedConfidenceRange` | backend/api/views_simplified.py:110-121 | after reranking, the confidence is 0.1 for no passages and lies in [0.09, 0.99) otherwise |
| `QueryView.ConfidenceTopThree` | backend/api/views_simplified.py:117 | passages after the third never change the confidence |
| `QueryView.RerankedConfidenceFloor` | backend/api/views_simplified.py:110-121 | any non-empty reranked list has confidence at least 0.54 |
| `QueryCache.Lookup` | backend/api/views_simplified.py:197-218 | a hit happens exactly when the key is present, raises its hit count by exactly one, changes no other field and no other row; a miss changes nothing |
| `QueryCache.HitsAccumulate` | backend/api/views_simplified.py:201-205 | n consecutive lookups of a present key raise its hit count by exactly n and change nothing else |
| `QueryCache.NewRecord` | backend/api/views_simplified.py:351-358 | a new row holds the query, answer, citations, confidence and doc type as given, with no hits (the call passes no hit count, so this is the model field's default; `models.py` is not part of this model) |
| `QueryCache.Admit` | backend/api/views_simplified.py:348-358 | when the confidence is at least 0.45 and the cache is in use, the key holds the new row; otherwise the table is unchanged; other rows never change |
| `QueryCache.AdmissionBoundary` | backend/api/views_simplified.py:349 | 0.44 is rejected and 0.45 admitted, and nothing is admitted without `use_cache` |
| `QueryCache.AdmitFreshGrows` | backend/api/views_simplified.py:349-358 | admitting under an absent key grows the table by exactly one row |
| `QueryCache.Delete` | backend/api/views_simplified.py:431-453 | a non-empty hash evicts exactly that row and reports its query text, or reports not found and changes nothing; an absent or empty hash empties the table and reports its former size |
| `QueryCache.DeleteShrinksByOne` | backend/api/views_simplified.py:437-439 | evicting a present row shrinks the table by exactly one |
| `QueryCache.LookupAfterDeleteMisses` | backend/api/views_simplified.py:435-439 | a lookup of an evicted key misses |
| `CacheStats.EnumerationSize` | backend/api/views_simplified.py:405 | an enumeration of the rows has exactly as many entries as the table |
| `CacheStats.TopQueries` | backend/api/views_simplified.py:412-413 | min(10, size) distinct rows of the table with their records, hit counts non-increasing, and no row left out has more hits than a row reported |
| `CacheStats.Tally` | backend/api/views_simplified.py:416-417 | one entry per doc type present, each with its exact number of rows, counts summing to the number of rows |
| `CacheStats.DocTypeDistribution` | backend/api/views_simplified.py:416-418 | the tally ordered by count non-increasing: still one entry per doc type with its exact count, covering every row, counts summing to the table size |
| `CacheStats.GetStats` | backend/api/views_simplified.py:403-429 | size is the number of rows, total hits is the sum of hit counts, averages are sum over size (0 for an empty table), with the top queries and distribution above |
| `CacheStats.StatsAfterHit` | backend/api/views_simplified.py:203-205 | a hit raises the total hit count by exactly one and keeps the size |
| `CacheStats.StatsAfterAdmit` | backend/api/views_simplified.py:351-358 | an admission adds one row and no hits |
| `CacheStats.StatsAfterClear` | backend/api/views_simplified.py:448-450 | after clearing, the statistics are all zero with no top queries and an empty distribution |
| `CacheStats.AverageConfidenceAdmitted` | backend/api/views_simplified.py:408 | when every row passed the 0.45 gate, the average confidence is at least 0.45 |
| `QueryPipeline.Serve` | backend/api/views_simplified.py:186-368 | a hit serves the stored answer, citations and confidence with `from_cache` and time 0.1 and counts one hit; otherwise the answer is computed and cached under a previously absent key exactly when admitted, tagged with the doc type given; rows of other keys never change |
| `QueryPipeline.HandleQuery` | backend/api/views_simplified.py:349-358 | the intended handler: a row it admits carries the request's own doc type |
| `QueryPipeline.DocTypeAsWritten` | backend/api/views_simplified.py:232-234 | the local `doc_type` after retrieval: the request's value unless the document loop bound a row, and then that row's raw doc type |
| `QueryPipeline.HandleQueryAsWritten` | backend/api/views_simplified.py:186-368 | the handler as written: a row it admits carries `DocTypeAsWritten`, not necessarily the request's doc type |
| `QueryPipeline.AsWrittenLosesRequestDocType` | backend/api/views_simplified.py:232-358 | when retrieval read a document of another doc type, the handler as written caches the new query under that doc type, while the intended handler keeps the request's |
| `QueryPipeline.AsWrittenAgreesWithoutRebinding` | backend/api/views_simplified.py:230-318 | when retrieval bound no database row, the handler as written and the intended one are equal |
| `QueryPipeline.OptOutLeavesCache` | backend/api/views_simplified.py:196-197 | for the handler as written and the corrected one alike (any stored doc type): a request with `use_cache` false is never served from the cache and leaves it unchanged |
| `QueryPipeline.SecondQueryHits` | backend/api/views_simplified.py:196-218 | for the handler as written and the corrected one alike: a new query that retrieved at least one passage is served from the cache on its next request, with the same answer, citations and confidence, and hit count 1 |
| `QueryPipeline.NonEmptyRetrievalAdmitted` | backend/api/views_simplified.py:320-358 | for the handler as written and the corrected one alike: a missed query with at least one retrieved passage has confidence at least 0.54 and is always admitted |
| `QueryPipeline.EmptyRetrievalNotAdmitted` | backend/api/views_simplified.py:113-114 | for the handler as written and the corrected one alike: with no passages the confidence is 0.1, there are no citations, and nothing is cached |
| `QueryPipeline.HandleQueryKeepsAllAdmitted` | backend/api/views_simplified.py:349 | for the handler as written and the corrected one alike: if every cached row passed the gate before a request, every row still has after it |
| `DifferentialPrivacy.ProtectEmbedding` | backend/api/security/differential_privacy.py:15-28 | same length and the same value at every coordinate |
| `DifferentialPrivacy.ProtectEmbeddingDeterministic` | backend/api/security/differential_privacy.py:30-50 | same length and the same value at every coordinate, whatever the document id, hash and scale |
| `DifferentialPrivacy.GetEmbeddingProtector` | backend/api/security/differential_privacy.py:52-56 | the protector returned leaves every embedding unchanged |
| `DifferentialPrivacy.ProtectIdempotent` | backend/api/security/differential_privacy.py:15-28 | protecting twice equals protecting once, for both protectors |
| `DifferentialPrivacy.DeterministicIgnoresProvenance` | backend/api/security/differential_privacy.py:30-50 | equal embeddings give equal outputs for any provenance, and the same output as the plain variant |
| `DifferentialPrivacy.DistanceIsNotAMetric` | backend/api/security/differential_privacy.py:67-72 | the distance is symmetric, is 0.1 rather than 0 from a vector to itself, and accepts vectors of different lengths |
| `DifferentialPrivacy.DistanceCannotSeparate` | backend/api/security/differential_privacy.py:67-72 | distinct embeddings are exactly as far apart as identical ones |
| `DifferentialPrivacy.Protector.ProtectEmbedding` | backend/api/security/differential_privacy.py:61-65 | the no-op protector returns an embedding of the same length with the same value at every coordinate |
| `DifferentialPrivacy.Protector.EmbeddingDistance` | backend/api/security/differential_privacy.py:67-72 | the distance is 0.1 for every pair of embeddings, whatever their values or lengths |

## Findings

| source | as written | input that shows it | evidently intended | confidence | as-written member | corrected member |
|---|---|---|---|---|---|---|
| backend/api/views_simplified.py:232-234 | the document loop unpacks each row into `doc_type`, the same local that holds the request's filter, so the cache row (and history row) records the last document's raw doc type | a new query with `doc_type='paper'` and `use_cache` true, when the last document read from the database has doc type `'protocol'` (or null); stated for all such inputs by `QueryPipeline.AsWrittenLosesRequestDocType` | the cached row carries the request's `doc_type` | high; not executed | QueryPipeline.HandleQueryAsWritten | QueryPipeline.HandleQuery |

The admission and round-trip lemmas (`QueryPipeline.SecondQueryHits`, `QueryPipeline.NonEmptyRetrievalAdmitted` and the rest) are stated over `QueryPipeline.Serve` for any stored doc type, so they hold for the handler as written and for the corrected `QueryPipeline.HandleQuery` alike.

## Left out

- Django and DRF plumbing is not modelled: the views, serializers, `Response` objects, status codes and ORM calls. The table is a `map`, and the stored JSON citation list is the list itself.
- Request validation (`QuerySerializer`) is not modelled. `serializers.py` is not part of this model, and the pipeline starts from a validated request.
- Document retrieval is not modelled: the raw-SQL query and the hard-coded fallback passages (lines 223-318). The retrieved passages are an input.
- The LLM answer is an input. The source uses a fixed mock string. The prompt that `build_prompt` renders is not consumed by that mock answer, so `QueryPipeline.Serve` does not build it.
- These are left out of the state: the query history row (lines 339-346), the timestamps `created_at` and `last_accessed`, and the measurement of the processing time. The time is an input.
- The simplified `post` (lines 123-153) and `get_demo_rna_response` return hard-coded demo answers and are not the pipeline. So are the health, feedback, figure and document-preview views.
- `select_model` returns a configuration value and is not modelled.
- Concurrency is not modelled. The hit-count update is an unsynchronised read-modify-write, and the model serves requests one at a time.
- Floating point is not modelled: scores are exact reals.
- CacheStats.GetStats: reports 0 for `avg_confidence`, `total_hits` and `avg_hits` on an empty table. There, Django's `Avg` and `Sum` aggregates yield `None`, and the `.get(..., 0)` defaults at lines 423-425 never apply, because the keys are present.
- CacheStats.TopQueries: breaks ties in hit count by the enumeration order of the rows. The database leaves that order unspecified.
- CacheStats.DocTypeDistribution: breaks ties in count by the first appearance of the doc type. The database leaves that order unspecified.
- Metadata values (`year` in particular) are modelled as strings. Python accepts any value there.
- The reranker's in-place update of the caller's dictionaries is not modelled. It is invisible to the pipeline, which uses only the returned list.
- QueryCache.NewRecord: the zero hit count comes from the field default declared in `models.py`, which is not part of this model; lines 351-358 pass no hit count.
- QueryCache.Admit: the behaviour of `objects.create` on an existing key is not modelled. It depends on the unique constraint in `models.py`, which is not part of this model. The pipeline only admits after a miss on the same key.
- Differential-privacy mechanics are not modelled: clipping, noise calibration and seeded determinism. The code has none, and `differential_privacy.py` reads none of the DP settings (`backend/rna_backend/settings.py:128-133`).
- DifferentialPrivacy.GetEmbeddingProtector: its contract cannot single out the protector. The source has only one protector kind, so any returned value satisfies it. The meaningful promise is that the returned protector leaves every embedding unchanged, and that is stated.
