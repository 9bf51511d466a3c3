/** The pure helpers of the query endpoint: rerank the retrieved passages with
    a jittered score, render the prompt, extract the citation list, and score
    the confidence of an answer.

    Python's `random.random()` is modelled as an explicit draw `r` with
    `0 <= r < 1`: one draw per passage when reranking, one draw for the
    confidence score. Scores are reals; floating-point rounding is not
    modelled. */
module QueryView {
  import opened Wrappers
  import opened Numeric
  import opened Ranking

  /** The `metadata` dictionary of a passage; every key may be absent. */
  datatype Metadata = Metadata(
    title: Option<string>,
    docType: Option<string>,
    year: Option<string>,
    author: Option<string>,
    page: Option<int>)

  /** `{}`: the metadata of a passage that carries none. */
  const NoMetadata := Metadata(None, None, None, None, None)

  /** One retrieved passage `{'content': ..., 'metadata': ..., 'score': ...}`;
      each key may be absent. */
  datatype RetrievalResult = RetrievalResult(
    content: Option<string>,
    metadata: Option<Metadata>,
    score: Option<real>)

  /** The passage's metadata, or the all-absent metadata when it has none. */
  function MetadataOf(res: RetrievalResult): Metadata
  {
    res.metadata.GetOr(NoMetadata)
  }

  /** `x.get('score', 0)`: the sort key of the reranker and the input of the
      confidence score. */
  function ScoreOf(res: RetrievalResult): real
  {
    res.score.GetOr(0.0)
  }

  function Scores(rs: seq<RetrievalResult>): (s: seq<real>)
    ensures |s| == |rs|
    ensures forall i :: 0 <= i < |rs| ==> s[i] == ScoreOf(rs[i])
  {
    seq(|rs|, i requires 0 <= i < |rs| => ScoreOf(rs[i]))
  }

  /** A value of `random.random()`. */
  predicate IsDraw(r: real)
  {
    0.0 <= r < 1.0
  }

  /** One draw for each of `n` passages. */
  predicate AreDraws(draws: seq<real>, n: nat)
  {
    |draws| == n && forall i :: 0 <= i < |draws| ==> IsDraw(draws[i])
  }

  // ---------------------------------------------------------------------------
  // rerank_results
  // ---------------------------------------------------------------------------

  const MinScore: real := 0.1
  const MaxScore: real := 0.99

  /** Forces a score into [0.1, 0.99]: values inside are kept, values
      outside are replaced by the nearer bound. */
  function Clamp(x: real): (c: real)
    ensures MinScore <= c <= MaxScore
    ensures MinScore <= x <= MaxScore ==> c == x
    ensures x < MinScore ==> c == MinScore
    ensures MaxScore < x ==> c == MaxScore
  {
    if MaxScore < x then MaxScore
    else if x < MinScore then MinScore
    else x
  }

  /** The mock relevance score of the passage at position `idx`, jittered by
      the draw `r`: `0.9 - idx * 0.05 + r * 0.1`, clamped to [0.1, 0.99]. */
  function JitteredScore(idx: nat, r: real): (s: real)
    requires IsDraw(r)
    ensures MinScore <= s <= MaxScore
  {
    Clamp(0.9 - (idx as real) * 0.05 + r * 0.1)
  }

  /** The scoring loop of the reranker: every passage gets the jittered score
      of its retrieval position; its content and metadata are untouched. */
  function Rescore(results: seq<RetrievalResult>, draws: seq<real>): (scored: seq<RetrievalResult>)
    requires AreDraws(draws, |results|)
    ensures |scored| == |results|
    ensures forall i :: 0 <= i < |results| ==>
      && scored[i].content == results[i].content
      && scored[i].metadata == results[i].metadata
      && scored[i].score == Some(JitteredScore(i, draws[i]))
  {
    seq(|results|, i requires 0 <= i < |results| =>
      results[i].(score := Some(JitteredScore(i, draws[i]))))
  }

  /** `r` lists the passages of `scored` in the order of a stable descending
      sort by score: a permutation that puts higher scores first and keeps
      equal scores in their input order. */
  ghost predicate IsStableSortOf(r: seq<RetrievalResult>, scored: seq<RetrievalResult>)
  {
    exists order ::
      && IsStableRanking(Scores(scored), order)
      && |r| == |order|
      && forall p :: 0 <= p < |r| ==> r[p] == scored[order[p]]
  }

  /** `rerank_results`: jitter every score, then sort by score, highest
      first, stably. */
  function Rerank(results: seq<RetrievalResult>, draws: seq<real>): (r: seq<RetrievalResult>)
    requires AreDraws(draws, |results|)
    ensures |r| == |results|
    ensures forall p :: 0 <= p < |r| ==> r[p].score.Some? && MinScore <= r[p].score.value <= MaxScore
    ensures forall p, q :: 0 <= p < q < |r| ==> ScoreOf(r[p]) >= ScoreOf(r[q])
    ensures IsStableSortOf(r, Rescore(results, draws))
  {
    var scored := Rescore(results, draws);
    var order := RankOrder(Scores(scored));
    var r := seq(|order|, p requires 0 <= p < |order| => scored[order[p]]);
    RankedNonIncreasing(Scores(scored), order);
    assert forall p :: 0 <= p < |r| ==> r[p] == scored[order[p]];
    r
  }

  /** There is only one stable descending sort of a list: `Rerank` is fully
      determined by the passages and the draws. */
  lemma StableSortUnique(r1: seq<RetrievalResult>, r2: seq<RetrievalResult>, scored: seq<RetrievalResult>)
    requires IsStableSortOf(r1, scored) && IsStableSortOf(r2, scored)
    ensures r1 == r2
  {
    var o1 :| IsStableRanking(Scores(scored), o1) && |r1| == |o1|
      && forall p :: 0 <= p < |r1| ==> r1[p] == scored[o1[p]];
    var o2 :| IsStableRanking(Scores(scored), o2) && |r2| == |o2|
      && forall p :: 0 <= p < |r2| ==> r2[p] == scored[o2[p]];
    StableRankingUnique(Scores(scored), o1);
    StableRankingUnique(Scores(scored), o2);
  }

  /** Two draws for positions at least two apart never invert their order:
      the jitter (less than 0.1) cannot make up two steps of 0.05. */
  lemma JitterKeepsDistance(i: nat, k: nat, ri: real, rk: real)
    requires IsDraw(ri) && IsDraw(rk)
    ensures i + 2 <= k ==> JitteredScore(i, ri) >= JitteredScore(k, rk)
  {
  }

  /** The reranker keeps the retrieval order roughly: a passage is never
      ranked behind one that was retrieved two or more places after it. */
  lemma RerankKeepsRoughOrder(results: seq<RetrievalResult>, draws: seq<real>, order: seq<nat>)
    requires AreDraws(draws, |results|)
    requires IsStableRanking(Scores(Rescore(results, draws)), order)
    ensures forall p, q :: 0 <= p < q < |order| ==> order[p] < order[q] + 2
  {
    var keys := Scores(Rescore(results, draws));
    forall p, q | 0 <= p < q < |order|
      ensures order[p] < order[q] + 2
    {
      var i, k := order[q], order[p];
      JitterKeepsDistance(i, k, draws[i], draws[k]);
      assert Ahead(keys, k, i);
    }
  }

  /** The best reranked passage scores at least 0.9, the second at least
      0.85: the first two retrieved passages start from 0.9 and 0.85, and
      whichever of them ranks lower still ranks second or later. */
  lemma RerankTopScores(results: seq<RetrievalResult>, draws: seq<real>)
    requires AreDraws(draws, |results|) && |results| > 0
    ensures ScoreOf(Rerank(results, draws)[0]) >= 0.9
    ensures |results| >= 2 ==> ScoreOf(Rerank(results, draws)[1]) >= 0.85
  {
    var scored := Rescore(results, draws);
    var r := Rerank(results, draws);
    var order :| IsStableRanking(Scores(scored), order) && |r| == |order|
      && forall p :: 0 <= p < |r| ==> r[p] == scored[order[p]];
    assert 0 in order;
    var p0 :| 0 <= p0 < |order| && order[p0] == 0;
    assert ScoreOf(r[p0]) == JitteredScore(0, draws[0]);
    if |results| >= 2 {
      assert 1 in order;
      var p1 :| 0 <= p1 < |order| && order[p1] == 1;
      assert ScoreOf(r[p1]) == JitteredScore(1, draws[1]);
      RankedDistinct(Scores(scored), order);
      var later := if p0 < p1 then p1 else p0;
      assert later >= 1;
      assert ScoreOf(r[1]) >= ScoreOf(r[later]);
    }
  }

  // ---------------------------------------------------------------------------
  // extract_sources and build_prompt
  // ---------------------------------------------------------------------------

  /** At most this many passages are cited and shown to the model. */
  const MaxSources: nat := 5

  /** One citation `{'id', 'title', 'doc_type', 'year', 'author', 'page'}`. */
  datatype Source = Source(
    id: nat,
    title: string,
    docType: string,
    year: string,
    author: string,
    page: Option<int>)

  /** Decimal rendering of a natural number, as `f"{n}"` does. */
  function NatToString(n: nat): (s: string)
    ensures |s| > 0
    ensures forall i :: 0 <= i < |s| ==> '0' <= s[i] <= '9'
    decreases n
  {
    if n < 10 then [DigitChar(n)] else NatToString(n / 10) + [DigitChar(n % 10)]
  }

  function DigitChar(d: nat): (c: char)
    requires d < 10
    ensures '0' <= c <= '9'
  {
    (48 + d) as char
  }

  /** `f"Source {i+1}"`: the title of the `i`-th passage when its metadata has none. */
  function DefaultTitle(i: nat): string
  {
    "Source " + NatToString(i + 1)
  }

  /** The citation built for the passage at rank `i`. */
  function SourceFor(i: nat, res: RetrievalResult): Source
  {
    var m := MetadataOf(res);
    Source(i + 1, m.title.GetOr(DefaultTitle(i)), m.docType.GetOr("unknown"),
           m.year.GetOr(""), m.author.GetOr(""), m.page)
  }

  /** `extract_sources`: one citation for each of the first five passages,
      numbered from 1 in rank order, with missing metadata filled in. */
  function ExtractSources(rs: seq<RetrievalResult>): (srcs: seq<Source>)
    ensures |srcs| == Min(MaxSources, |rs|)
    ensures forall i :: 0 <= i < |srcs| ==> srcs[i].id == i + 1
    ensures forall i :: 0 <= i < |srcs| ==>
      var m := MetadataOf(rs[i]);
      && srcs[i].title == m.title.GetOr(DefaultTitle(i))
      && srcs[i].docType == m.docType.GetOr("unknown")
      && srcs[i].year == m.year.GetOr("")
      && srcs[i].author == m.author.GetOr("")
      && srcs[i].page == m.page
  {
    var k := Min(MaxSources, |rs|);
    seq(k, i requires 0 <= i < k => SourceFor(i, rs[i]))
  }

  /** Passages ranked below the fifth never reach the citation list. */
  lemma ExtractSourcesTopFive(rs: seq<RetrievalResult>, more: seq<RetrievalResult>)
    requires |rs| >= MaxSources
    ensures ExtractSources(rs + more) == ExtractSources(rs)
  {
  }

  /** The fixed opening line of every prompt. */
  const Instruction := "Answer only from the provided "
    + "sources; if unsure, say 'I don't know.'\n\n"

  /** Everything of the prompt before the first passage. */
  function PromptHeader(query: string): string
  {
    Instruction + "Question: " + query + "\n\n" + "Sources:\n\n"
  }

  /** The block a passage contributes to the prompt: its citation number and
      title on one line, then its content, then a blank line. */
  function Citation(n: nat, title: string, content: string): string
  {
    "[" + NatToString(n) + "] " + title + "\n" + content + "\n\n"
  }

  /** The passages `rs`, the first of them at rank `first`, one citation block each. */
  function RenderPassages(rs: seq<RetrievalResult>, first: nat): string
    decreases |rs|
  {
    if |rs| == 0 then ""
    else
      Citation(first + 1, MetadataOf(rs[0]).title.GetOr(DefaultTitle(first)), rs[0].content.GetOr(""))
      + RenderPassages(rs[1..], first + 1)
  }

  /** `build_prompt`: the instruction, the question and the first five passages. */
  function BuildPrompt(query: string, rs: seq<RetrievalResult>): (prompt: string)
    ensures PromptHeader(query) <= prompt
    ensures |rs| == 0 ==> prompt == PromptHeader(query)
  {
    PromptHeader(query) + RenderPassages(rs[..Min(MaxSources, |rs|)], 0)
  }

  /** The citation blocks for `srcs`, taking each passage's content from `rs`. */
  function RenderSources(srcs: seq<Source>, rs: seq<RetrievalResult>): string
    requires |srcs| == |rs|
    decreases |srcs|
  {
    if |srcs| == 0 then ""
    else Citation(srcs[0].id, srcs[0].title, rs[0].content.GetOr("")) + RenderSources(srcs[1..], rs[1..])
  }

  lemma {:induction false} RenderPassagesAsSources(rs: seq<RetrievalResult>, first: nat)
    ensures RenderPassages(rs, first)
         == RenderSources(seq(|rs|, i requires 0 <= i < |rs| => SourceFor(first + i, rs[i])), rs)
    decreases |rs|
  {
    if |rs| > 0 {
      var srcs := seq(|rs|, i requires 0 <= i < |rs| => SourceFor(first + i, rs[i]));
      var tail := seq(|rs| - 1, i requires 0 <= i < |rs| - 1 => SourceFor(first + 1 + i, rs[1..][i]));
      assert srcs[1..] == tail;
      RenderPassagesAsSources(rs[1..], first + 1);
    }
  }

  /** The prompt cites exactly the sources returned to the caller: the same
      numbers and the same titles, in the same order. */
  lemma PromptCitesSources(query: string, rs: seq<RetrievalResult>)
    ensures BuildPrompt(query, rs)
         == PromptHeader(query) + RenderSources(ExtractSources(rs), rs[..Min(MaxSources, |rs|)])
  {
    var top := rs[..Min(MaxSources, |rs|)];
    RenderPassagesAsSources(top, 0);
    assert ExtractSources(rs) == seq(|top|, i requires 0 <= i < |top| => SourceFor(0 + i, top[i]));
  }

  // ---------------------------------------------------------------------------
  // calculate_confidence_score
  // ---------------------------------------------------------------------------

  /** The confidence of an answer with no retrieved passage. */
  const EmptyConfidence: real := 0.1
  /** The confidence returned when the top passages have no scores; no input
      reaches it. */
  const NoScoresConfidence: real := 0.3

  /** The scores of the (at most three) leading passages, in order, a
      missing score read as 0; the confidence averages these. */
  function TopScores(rs: seq<RetrievalResult>): (top: seq<real>)
    ensures |top| == Min(3, |rs|)
    ensures forall i :: 0 <= i < |top| ==> top[i] == ScoreOf(rs[i])
  {
    var k := Min(3, |rs|);
    seq(k, i requires 0 <= i < k => ScoreOf(rs[i]))
  }

  /** The random factor applied to the averaged score: a draw in [0, 1)
      mapped onto [0.9, 1). */
  function JitterFactor(r: real): (f: real)
    requires IsDraw(r)
    ensures 0.9 <= f < 1.0
  {
    0.9 + r * 0.1
  }

  /** `calculate_confidence_score`: the floor 0.1 for no passages, otherwise
      the mean score of the first three passages times a factor in [0.9, 1). */
  function ConfidenceScore(rs: seq<RetrievalResult>, r: real): (c: real)
    requires IsDraw(r)
    ensures |rs| == 0 ==> c == EmptyConfidence
    ensures |rs| > 0 ==> c == Mean(TopScores(rs)) * JitterFactor(r)
  {
    if |rs| == 0 then EmptyConfidence
    else
      var top := TopScores(rs);
      if |top| == 0 then NoScoresConfidence
      else Mean(top) * JitterFactor(r)
  }

  /** Bounds on the scores of the first three passages carry over to the
      confidence: at least 0.9 times the lower bound, at most the upper one. */
  lemma ConfidenceBounds(rs: seq<RetrievalResult>, r: real, lo: real, hi: real)
    requires IsDraw(r) && |rs| > 0 && 0.0 <= lo
    requires forall i :: 0 <= i < Min(3, |rs|) ==> lo <= ScoreOf(rs[i]) <= hi
    ensures 0.9 * lo <= ConfidenceScore(rs, r) <= hi
    ensures 0.0 < lo ==> ConfidenceScore(rs, r) < hi
  {
    var top := TopScores(rs);
    MeanBounds(top, lo, hi);
    ScaledBounds(Mean(top), JitterFactor(r), lo, hi);
  }

  /** The confidence of a reranked list is the floor 0.1 when nothing was
      retrieved and lies in [0.09, 0.99) otherwise. */
  lemma RerankedConfidenceRange(results: seq<RetrievalResult>, draws: seq<real>, r: real)
    requires AreDraws(draws, |results|) && IsDraw(r)
    ensures |results| == 0 ==> ConfidenceScore(Rerank(results, draws), r) == EmptyConfidence
    ensures |results| > 0 ==> 0.09 <= ConfidenceScore(Rerank(results, draws), r) < MaxScore
  {
    if |results| > 0 {
      ConfidenceBounds(Rerank(results, draws), r, MinScore, MaxScore);
    }
  }

  /** Passages ranked below the third do not affect the confidence. */
  lemma ConfidenceTopThree(rs: seq<RetrievalResult>, more: seq<RetrievalResult>, r: real)
    requires IsDraw(r) && |rs| >= 3
    ensures ConfidenceScore(rs + more, r) == ConfidenceScore(rs, r)
  {
    assert TopScores(rs + more) == TopScores(rs);
  }

  /** Three scores led by at least 0.9 and 0.85, none below 0.1, average at
      least 0.6. */
  lemma LeadingScoresMean(top: seq<real>)
    requires 1 <= |top| <= 3 && top[0] >= 0.9
    requires |top| >= 2 ==> top[1] >= 0.85
    requires |top| == 3 ==> top[2] >= MinScore
    ensures Mean(top) >= 0.6
  {
    SumUpToThree(top);
  }

  /** A list whose first passage scores at least 0.9, whose second scores
      at least 0.85 and whose third at least 0.1 has a confidence of at
      least 0.54. */
  lemma LeadingConfidenceFloor(rs: seq<RetrievalResult>, r: real)
    requires IsDraw(r) && |rs| > 0 && ScoreOf(rs[0]) >= 0.9
    requires |rs| >= 2 ==> ScoreOf(rs[1]) >= 0.85
    requires |rs| >= 3 ==> ScoreOf(rs[2]) >= MinScore
    ensures ConfidenceScore(rs, r) >= 0.54
  {
    var top := TopScores(rs);
    LeadingScoresMean(top);
    ScaledBounds(Mean(top), JitterFactor(r), 0.6, Mean(top));
  }

  /** Any non-empty retrieval yields a confidence of at least 0.54: after
      reranking the top passage scores at least 0.9 and the second at least
      0.85. */
  lemma RerankedConfidenceFloor(results: seq<RetrievalResult>, draws: seq<real>, r: real)
    requires AreDraws(draws, |results|) && IsDraw(r) && |results| > 0
    ensures ConfidenceScore(Rerank(results, draws), r) >= 0.54
  {
    RerankTopScores(results, draws);
    LeadingConfidenceFloor(Rerank(results, draws), r);
  }
}
