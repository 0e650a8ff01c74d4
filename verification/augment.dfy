/** What `rag_search` does between the retrieval and the answer: how many
    results it asks the reranker for, how it assembles the context from the
    reranker's answer, the prompt it sends to the generator, and the shape of
    the response. The reranker and the generator are remote services; only
    the requests sent to them and the shape of their answers are modelled. */
module Augment {
  import opened Wrappers
  import opened Text
  import opened Retrieval

  /** Fixed service parameters of the request handler. */
  const RerankModel: string := "rerank-english-v3.0"
  const GenerationModel: string := "command"
  const MaxTokens: nat := 200

  /** The request sent to the reranker. */
  datatype RerankRequest = RerankRequest(query: string, documents: seq<string>, topN: int, model: string)

  /** One result of the reranker: a position in the list of documents it was
      sent, and that document's relevance score. */
  datatype RerankHit = RerankHit(index: nat, relevanceScore: real)

  /** The request sent to the generator. */
  datatype GenerateRequest = GenerateRequest(prompt: string, model: string, maxTokens: nat)

  /** One entry of `source_chunks` in the response. */
  datatype SourceChunk = SourceChunk(rank: int, text: string, score: real)

  /** The response body. */
  datatype RagResponse = RagResponse(query: string, generatedAnswer: string, sourceChunks: seq<SourceChunk>)

  datatype GenerationError = NoGeneration

  /** `min(top_n, len(retrieved_docs))`: never more than the candidates
      available; a request within that bound passes through unchanged, and
      nothing rejects a `top_n` of zero or less. */
  function RequestedCount(topN: int, candidates: nat): (r: int)
    ensures r <= candidates && r <= topN
    ensures topN <= candidates ==> r == topN
    ensures candidates <= topN ==> r == candidates
  {
    Min(topN, candidates)
  }

  /** The reranker is sent the query, the retrieved texts in retrieval order
      and the clamped count. */
  function RerankRequestFor(query: string, retrieved: seq<string>, topN: int): (r: RerankRequest)
    ensures r.query == query && r.documents == retrieved && r.model == RerankModel
    ensures r.topN <= |r.documents| && r.topN <= topN
    ensures topN <= |retrieved| ==> r.topN == topN
    ensures r.topN == RequestedCount(topN, |retrieved|)
  {
    RerankRequest(query, retrieved, RequestedCount(topN, |retrieved|), RerankModel)
  }

  /** Every result of the reranker points into the list it was sent. */
  predicate ValidHits(hits: seq<RerankHit>, candidates: nat)
  {
    forall i :: 0 <= i < |hits| ==> hits[i].index < candidates
  }

  /** The retrieved text each reranker result points at, in the reranker's order. */
  function HitTexts(retrieved: seq<string>, hits: seq<RerankHit>): (r: seq<string>)
    requires ValidHits(hits, |retrieved|)
    ensures |r| == |hits|
    ensures forall i :: 0 <= i < |hits| ==> r[i] == retrieved[hits[i].index]
  {
    seq(|hits|, i requires 0 <= i < |hits| => retrieved[hits[i].index])
  }

  /** `"\n".join([retrieved_docs[r.index] for r in results])`. An empty answer
      from the reranker gives an empty context. */
  function Context(retrieved: seq<string>, hits: seq<RerankHit>): (r: string)
    requires ValidHits(hits, |retrieved|)
    ensures r == "" <==> |hits| == 0 || (|hits| == 1 && retrieved[hits[0].index] == "")
  {
    JoinLines(HitTexts(retrieved, hits))
  }

  /** The context keeps the reranker's order: when the reranker returned at
      least one result and no retrieved text holds a newline, splitting the
      context at newlines gives back exactly the texts the results point at,
      in the reranker's order. */
  lemma ContextRecoversChunks(retrieved: seq<string>, hits: seq<RerankHit>)
    requires ValidHits(hits, |retrieved|)
    requires |hits| >= 1 && NoNewlines(retrieved)
    ensures SplitLines(Context(retrieved, hits)) == HitTexts(retrieved, hits)
  {
    var texts := HitTexts(retrieved, hits);
    assert NoNewlines(texts);
    SplitJoinLines(texts);
  }

  /** The fixed pieces of the prompt template. */
  const ContextLabel: string := "Context: "
  const QuestionLabel: string := "\n\nQuestion: "
  const AnswerCue: string := "\n\nAnswer:"

  /** `f"Context: {context}\n\nQuestion: {query}\n\nAnswer:"`: the context and
      the query sit at fixed places between the three fixed labels. */
  function Prompt(context: string, query: string): (r: string)
    ensures |r| == |context| + |query| + 30
    ensures r[..9] == ContextLabel && r[9..9 + |context|] == context
    ensures r[9 + |context|..21 + |context|] == QuestionLabel
    ensures r[21 + |context|..21 + |context| + |query|] == query
    ensures r[|r| - 9..] == AnswerCue
  {
    ContextLabel + context + QuestionLabel + query + AnswerCue
  }

  /** The generator sees exactly the assembled context: for one query, two
      different contexts never give the same prompt. */
  lemma PromptDeterminesContext(c1: string, c2: string, query: string)
    requires Prompt(c1, query) == Prompt(c2, query)
    ensures c1 == c2
  {
  }

  /** The generator is sent the prompt with the fixed model and output budget. */
  function GenerateRequestFor(context: string, query: string): (r: GenerateRequest)
    ensures r.model == GenerationModel && r.maxTokens == MaxTokens
    ensures |r.prompt| == |context| + |query| + 30 && r.prompt[9..9 + |context|] == context
    ensures r.prompt == Prompt(context, query)
  {
    GenerateRequest(Prompt(context, query), GenerationModel, MaxTokens)
  }

  /** The `source_chunks` list: one entry per reranker result, in the
      reranker's order, the i-th ranked `i + 1`, with the text that result
      points at and its relevance score. */
  function SourceChunks(retrieved: seq<string>, hits: seq<RerankHit>): (r: seq<SourceChunk>)
    requires ValidHits(hits, |retrieved|)
    ensures |r| == |hits|
    ensures forall i :: 0 <= i < |hits| ==> r[i].rank == i + 1
    ensures forall i :: 0 <= i < |hits| ==> r[i].text == retrieved[hits[i].index] && r[i].score == hits[i].relevanceScore
  {
    seq(|hits|, i requires 0 <= i < |hits| => SourceChunk(i + 1, retrieved[hits[i].index], hits[i].relevanceScore))
  }

  function Texts(chunks: seq<SourceChunk>): (r: seq<string>)
    ensures |r| == |chunks| && forall i :: 0 <= i < |chunks| ==> r[i] == chunks[i].text
  {
    seq(|chunks|, i requires 0 <= i < |chunks| => chunks[i].text)
  }

  /** The texts returned as sources are those the generator was given as
      context, in the same order: joining them gives the context again. */
  lemma SourceChunksMatchContext(retrieved: seq<string>, hits: seq<RerankHit>)
    requires ValidHits(hits, |retrieved|)
    ensures JoinLines(Texts(SourceChunks(retrieved, hits))) == Context(retrieved, hits)
  {
    assert Texts(SourceChunks(retrieved, hits)) == HitTexts(retrieved, hits);
  }

  /** The response body. `generations` stands for `gen_resp.generations`;
      taking its first element fails when there is none. */
  function ShapeResponse(query: string, retrieved: seq<string>, hits: seq<RerankHit>, generations: seq<string>): (r: Result<RagResponse, GenerationError>)
    requires ValidHits(hits, |retrieved|)
    ensures r.Ok? <==> |generations| >= 1
    ensures r.Ok? ==> r.value.query == query && r.value.generatedAnswer == Strip(generations[0])
    ensures r.Ok? ==> r.value.sourceChunks == SourceChunks(retrieved, hits)
  {
    if |generations| == 0 then Err(NoGeneration)
    else Ok(RagResponse(query, Strip(generations[0]), SourceChunks(retrieved, hits)))
  }
}
