/** The embedding-protection interface as shipped: a no-op. Both protection
    functions hand back the embedding they are given, and the protector's
    distance is the constant 0.1. No clipping and no noise take place, and
    no privacy setting is consulted. */
module DifferentialPrivacy {
  import opened Wrappers

  /** An embedding vector. A non-list input is copied into a list with the
      same elements, so both input forms are the same sequence here. */
  type Embedding = seq<real>

  /** `protect_embedding`: the embedding, unchanged. */
  function ProtectEmbedding(embedding: Embedding): (r: Embedding)
    ensures |r| == |embedding|
    ensures forall i :: 0 <= i < |r| ==> r[i] == embedding[i]
  {
    embedding
  }

  /** `protect_embedding_deterministic`: the embedding, unchanged, whatever
      the document id, content hash and noise scale (default 0.05). */
  function ProtectEmbeddingDeterministic(embedding: Embedding, documentId: string,
                                         contentHash: Option<string>, scale: real := 0.05): (r: Embedding)
    ensures |r| == |embedding|
    ensures forall i :: 0 <= i < |r| ==> r[i] == embedding[i]
  {
    embedding
  }

  /** The only protector there is. */
  datatype Protector = DummyProtector {

    /** `DummyProtector.protect_embedding`: the identity. */
    function ProtectEmbedding(embedding: Embedding): (r: Embedding)
      ensures |r| == |embedding|
      ensures forall i :: 0 <= i < |r| ==> r[i] == embedding[i]
    {
      embedding
    }

    /** `DummyProtector.embedding_distance`: the mock distance 0.1 for every
        pair, with no check that the dimensions agree. */
    static function EmbeddingDistance(a: Embedding, b: Embedding): (d: real)
      ensures d == 0.1
    {
      0.1
    }
  }

  /** `get_embedding_protector`: always the no-op protector, whatever the
      privacy settings say. */
  function GetEmbeddingProtector(): (p: Protector)
    ensures forall e :: p.ProtectEmbedding(e) == e
  {
    DummyProtector
  }

  /** Protecting twice is protecting once. */
  lemma ProtectIdempotent(e: Embedding)
    ensures ProtectEmbedding(ProtectEmbedding(e)) == ProtectEmbedding(e)
    ensures DummyProtector.ProtectEmbedding(DummyProtector.ProtectEmbedding(e)) == DummyProtector.ProtectEmbedding(e)
  {
  }

  /** The deterministic variant ignores its provenance and scale: equal
      embeddings always come out equal, and equal to the plain variant. */
  lemma DeterministicIgnoresProvenance(e: Embedding, id1: string, id2: string,
                                       h1: Option<string>, h2: Option<string>, s1: real, s2: real)
    ensures ProtectEmbeddingDeterministic(e, id1, h1, s1) == ProtectEmbeddingDeterministic(e, id2, h2, s2)
    ensures ProtectEmbeddingDeterministic(e, id1, h1, s1) == ProtectEmbedding(e)
  {
  }

  /** The distance is symmetric, but it is not a metric: an embedding is at
      distance 0.1, not 0, from itself, and embeddings of different
      dimensions are compared without complaint. */
  lemma DistanceIsNotAMetric(a: Embedding, b: Embedding)
    ensures Protector.EmbeddingDistance(a, b) == Protector.EmbeddingDistance(b, a)
    ensures Protector.EmbeddingDistance(a, a) != 0.0
    ensures Protector.EmbeddingDistance([1.0], [1.0, 2.0]) == 0.1
  {
  }

  /** Distinct embeddings are as far apart as identical ones: the distance
      cannot tell them apart. */
  lemma DistanceCannotSeparate(a: Embedding, b: Embedding)
    ensures Protector.EmbeddingDistance(a, b) == Protector.EmbeddingDistance(a, a)
  {
  }
}
