/** `rag_search`, the handler of `POST /rag`: initialise on first use, rank
    the corpus against the query, keep five candidates, have the reranker pick
    and order up to `top_n` of them, generate an answer from them and return
    the answer with its sources. Every remote or numeric collaborator is a
    function parameter:
      - `scores` stands for `cosine_similarity(model.encode([query]), doc_embeddings)[0]`,
      - `argsort` for `np.argsort`,
      - `rerank` for the results of `co.rerank`,
      - `generate` for the texts in `co.generate(...).generations`. */
module Pipeline {
  import opened Wrappers
  import opened Retrieval
  import opened Augment
  import opened Index

  datatype RagError =
    | InitFailed(init: InitError)
    | NoEmbeddingRows
    | RetrievalFailed(retrieval: RetrievalError)
    | GenerationFailed(generation: GenerationError)

  /** Everything `rag_search` does once the index is ready, for the corpus
      `documents`, the similarity `scores` of its embedding rows and an
      ascending argsort `order` of them. `cosine_similarity` rejects an
      embedding matrix without rows, so no scores means failure. */
  function Answer(documents: seq<string>, scores: seq<real>, order: seq<nat>, query: string, topN: int,
                  rerank: RerankRequest -> seq<RerankHit>, generate: GenerateRequest -> seq<string>)
    : (r: Result<RagResponse, RagError>)
    requires IsAscendingArgsort(scores, order)
    requires forall req :: ValidHits(rerank(req), |req.documents|)
    ensures r.Err? && r.error.NoEmbeddingRows? <==> |scores| == 0
    ensures r.Ok? ==> r.value.query == query
    // Every source returned is a corpus document, and the ranks run 1, 2, ...
    ensures r.Ok? ==> forall i :: 0 <= i < |r.value.sourceChunks| ==>
              r.value.sourceChunks[i].rank == i + 1 && r.value.sourceChunks[i].text in documents
    // When the reranker returns no more results than asked for, there are at
    // most `min(top_n, 5)` sources; when it returns exactly as many as asked
    // for whenever that many candidates exist, there are `min(top_n, 5, rows)`.
    ensures r.Ok? && 0 <= topN && (forall req: RerankRequest :: 0 <= req.topN ==> |rerank(req)| <= req.topN) ==>
              |r.value.sourceChunks| <= Min(topN, ShortlistSize)
    ensures r.Ok? && 0 <= topN && (forall req: RerankRequest :: 0 <= req.topN <= |req.documents| ==> |rerank(req)| == req.topN) ==>
              |r.value.sourceChunks| == Min(topN, Min(ShortlistSize, |scores|))
    // Retrieval can only fail when there are more scores than documents.
    ensures r.Err? && r.error.RetrievalFailed? ==> |scores| > |documents|
    // Initialisation is not part of answering.
    ensures r.Err? ==> !r.error.InitFailed?
  {
    if |scores| == 0 then Err(NoEmbeddingRows)
    else
      var top := TopIndices(scores, order);
      match RetrieveDocs(documents, top)
      case Err(e) => Err(RetrievalFailed(e))
      case Ok(retrieved) =>
        assert |retrieved| == Min(ShortlistSize, |scores|) <= ShortlistSize;
        assert forall t :: t in retrieved ==> t in documents by {
          forall t | t in retrieved ensures t in documents {
            var j :| 0 <= j < |retrieved| && retrieved[j] == t;
            assert retrieved[j] == documents[top[j]];
          }
        }
        match Augmented(retrieved, query, topN, rerank, generate)
        case Err(e) => Err(GenerationFailed(e))
        case Ok(response) => Ok(response)
  }

  /** The steps after retrieval: rerank the retrieved texts, generate from
      their context and shape the response. */
  function Augmented(retrieved: seq<string>, query: string, topN: int,
                     rerank: RerankRequest -> seq<RerankHit>, generate: GenerateRequest -> seq<string>)
    : (r: Result<RagResponse, GenerationError>)
    requires forall req :: ValidHits(rerank(req), |req.documents|)
    ensures r.Ok? ==> r.value.query == query
    ensures r.Ok? ==> forall i :: 0 <= i < |r.value.sourceChunks| ==>
              r.value.sourceChunks[i].rank == i + 1 && r.value.sourceChunks[i].text in retrieved
    ensures r.Ok? && 0 <= topN && (forall req: RerankRequest :: 0 <= req.topN ==> |rerank(req)| <= req.topN) ==>
              |r.value.sourceChunks| <= Min(topN, |retrieved|)
    ensures r.Ok? && 0 <= topN && (forall req: RerankRequest :: 0 <= req.topN <= |req.documents| ==> |rerank(req)| == req.topN) ==>
              |r.value.sourceChunks| == Min(topN, |retrieved|)
  {
    var req := RerankRequestFor(query, retrieved, topN);
    var hits := rerank(req);
    assert 0 <= topN ==> 0 <= req.topN <= |req.documents|;
    ShapeResponse(query, retrieved, hits, generate(GenerateRequestFor(Context(retrieved, hits), query)))
  }

  /** A reranker that returns exactly the requested number of results, the
      first candidates in order, whenever that many exist: it meets both
      `Answer`'s requirement on rerankers and the hypothesis of its
      exact-count clause. */
  function ExactReranker(req: RerankRequest): (r: seq<RerankHit>)
    ensures ValidHits(r, |req.documents|)
    ensures 0 <= req.topN <= |req.documents| ==> |r| == req.topN
  {
    var n := if 0 <= req.topN <= |req.documents| then req.topN else 0;
    seq(n, i requires 0 <= i < n => RerankHit(i, 0.0))
  }

  /** One document scored once, `top_n = 3`, a reranker that returns what it
      is asked for and a generator that answers: the answer carries exactly
      one source. */
  lemma OneDocumentOneSource(generate: GenerateRequest -> seq<string>)
    requires forall req :: |generate(req)| >= 1
    ensures var r := Answer(["Paris is the capital of France."], [1.0], [0], "capital?", 3, ExactReranker, generate);
            r.Ok? && |r.value.sourceChunks| == 1
  {
  }

  /** `rag_search`: initialise when needed, then answer from the index. */
  method RagSearch(state: RagState, cache: CacheFile, apiKey: Option<string>, corpus: Option<seq<string>>,
                   encode: seq<string> -> Matrix, query: string, topN: int,
                   scores: Matrix -> seq<real>, argsort: seq<real> -> seq<nat>,
                   rerank: RerankRequest -> seq<RerankHit>, generate: GenerateRequest -> seq<string>)
    returns (res: Result<RagResponse, RagError>)
    requires state.AllOrNothing()
    requires forall m :: |scores(m)| == |m|
    requires forall s :: IsAscendingArgsort(s, argsort(s))
    requires forall req :: ValidHits(rerank(req), |req.documents|)
    modifies state, cache
    ensures state.AllOrNothing()
    ensures res.Err? && res.error.InitFailed? <==> !state.Ready()
    // A request on a ready index leaves the state and the cache file alone.
    ensures old(state.Ready()) ==> unchanged(state) && unchanged(cache)
    // A first request that cannot read the corpus changes nothing.
    ensures !old(state.Ready()) && corpus.None? ==>
              res == Err(InitFailed(CorpusUnreadable)) && unchanged(state) && unchanged(cache)
    // A first request that can read it loads the corpus, and takes the
    // cached matrix or encodes the corpus and saves the matrix.
    ensures !old(state.Ready()) && corpus.Some? ==>
              state.documents == corpus && state.model == Some(SentenceTransformer(EmbeddingModelName))
              && state.co == Some(CohereClient(apiKey))
    ensures !old(state.Ready()) && corpus.Some? && old(cache.contents).Some? ==>
              state.docEmbeddings == old(cache.contents) && unchanged(cache)
              && state.encodeCount == old(state.encodeCount)
    ensures !old(state.Ready()) && corpus.Some? && old(cache.contents).None? ==>
              state.docEmbeddings == Some(encode(corpus.value)) && cache.contents == state.docEmbeddings
              && state.encodeCount == old(state.encodeCount) + 1
    ensures state.Ready() ==>
              var similarities := scores(state.docEmbeddings.value);
              res == Answer(state.documents.value, similarities, argsort(similarities), query, topN, rerank, generate)
    // Retrieval can only fail when the embedding matrix has more rows than
    // the corpus has documents.
    ensures res.Err? && res.error.RetrievalFailed? ==>
              |state.docEmbeddings.value| > |state.documents.value|
    // An index whose matrix has no rows (an empty corpus) fails every request.
    ensures res.Err? && res.error.NoEmbeddingRows? <==> state.Ready() && |state.docEmbeddings.value| == 0
    // An encoder that gives one row per document, as a sentence encoder does,
    // makes a freshly encoded index that never fails retrieval.
    ensures !old(state.Ready()) && corpus.Some? && old(cache.contents).None? && (forall d :: |encode(d)| == |d|) ==>
              !(res.Err? && res.error.RetrievalFailed?)
  {
    var err := state.InitializingAtomic(cache, apiKey, corpus, encode);
    if err.Some? {
      return Err(InitFailed(err.value));
    }
    var similarities := scores(state.docEmbeddings.value);
    res := Answer(state.documents.value, similarities, argsort(similarities), query, topN, rerank, generate);
  }
}
