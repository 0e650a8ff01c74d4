# RAG query service, modelled in Dafny

The service answers a question over a fixed corpus of text chunks in
`main.py`. On the first request, `Initializing` sets the process-wide globals
`model`, `documents`, `doc_embeddings` and `co`. It loads the embedding matrix
from the cache file `embeddings.npy` when that file exists, and otherwise
encodes the corpus from `chunks.json` and saves the result. Each `POST /rag`
request (`rag_search`) then runs these steps:

1. it scores every document against the query;
2. it keeps the five best (`np.argsort(...)[::-1][:5]`);
3. it asks the Cohere reranker for `min(top_n, len(retrieved_docs))` results;
4. it joins the reranked texts with newlines into a context;
5. it sends the fixed prompt template to the generator;
6. it returns the stripped answer with a ranked `source_chunks` list.

Modules:

- `Wrappers` (`wrappers.dfy`): Option and Result.
- `Text` (`text.dfy`): `"\n".join`, its inverse `split("\n")`, and `strip()`.
- `Retrieval` (`retrieval.dfy`): argsort, the best-five selection and the
  document lookup.
- `Augment` (`augment.dfy`): the clamp, the context, the prompt, the requests
  to the two services and the response.
- `Index` (`index.dfy`): the globals as the class `RagState`, with its
  methods `Initializing` (as written) and `InitializingAtomic` (corrected,
  see Findings).
- `Pipeline` (`pipeline.dfy`): `RagSearch`, which runs the whole handler.

The remote services and the numeric libraries become function parameters:

- the similarity scores are a function from the embedding matrix to one
  `real` per row;
- `np.argsort` is any function whose result satisfies `IsAscendingArgsort`;
- the reranker returns `(index, relevance_score)` pairs that point into the
  list it was sent;
- the generator returns the texts of its generations;
- reading `chunks.json` gives `Some(chunks)` or `None` when the read fails;
- `embeddings.npy` is a `CacheFile` object whose contents are `None` while
  the file does not exist.

What the code does at the edges, as the model follows it:

- Ties in retrieval are not broken by lower index. `np.argsort` uses an
  unstable sort, so any order among equal scores is allowed, and nothing
  about tie order is proved. `TopKScoresDetermined` shows that only the
  documents of equal score can differ.
- A cached matrix whose row count differs from the corpus length is not
  rejected at initialisation. The mismatch only shows when a shortlisted row
  has no document, and then the list comprehension fails with an
  IndexError (`RetrievalFailed`).
- A `top_n` of zero or less is not rejected. It passes through `min`
  unchanged.
- The shortlist has `min(5, n)` entries, where `n` is the number of rows of
  the embedding matrix (one score per row), not always 5.
- An embedding matrix without rows (an empty corpus) makes
  `cosine_similarity` raise, so such an index fails every request
  (`NoEmbeddingRows`).
- `top_n` defaults to 3 when the request omits it (main.py:39-41). The model
  takes the request with `top_n` already filled in.
- `if model:` is read as "`model` is set". A loaded SentenceTransformer is
  truthy.

## Model

| member | source | states |
|---|---|---|
| `Index.RagState.constructor` | main.py:12 | All four globals start unset. |
| `Index.RagState.Initializing` | main.py:14-37 | Once `model` is set, a call changes nothing. On the first call `co` and `model` are set. With a cache file, its matrix is taken, and nothing is encoded or written. Without one, the corpus is encoded exactly once and the matrix is saved to the cache. A failed read of `chunks.json` leaves `co` and `model` set (and on the cached path `doc_embeddings`). A first call that succeeds leaves all four set. |
| `Index.FailedInitSticks` | main.py:16-32 | When `chunks.json` cannot be read on the first call, a second call after it becomes readable still leaves `model` set and `documents` unset. |
| `Index.RagState.InitializingAtomic` | main.py:14-37 | Keeps the all-or-nothing invariant. Once ready, a call changes nothing. A failed corpus read changes nothing. A good read leaves all four set, with the same cache-or-encode behaviour as `Initializing`. |
| `Index.FailedAtomicInitRecovers` | main.py:14-37 | The same two calls with the corrected initialisation end ready, with the corpus loaded. |
| `Retrieval.ArgSort` | main.py:60 | Every score vector has an ascending argsort: a permutation of the positions with non-decreasing scores. |
| `Retrieval.Reverse` | main.py:60 | `[::-1]` keeps the length and puts entry `i` at `n - 1 - i`. |
| `Retrieval.TopIndices` | main.py:60 | For any ascending argsort, the shortlist has length `min(5, n)`. Its positions are valid and distinct, listed by non-increasing score, and no position left out scores higher than a selected one. |
| `Retrieval.TopKScoresDetermined` | main.py:60 | Any two best-k selections have the same length and the same score at every rank. So tie order changes only which equal-scored documents appear. |
| `Retrieval.RetrieveDocs` | main.py:61 | The lookup succeeds exactly when every index is a document position. The result then has the indices' length, and entry `j` is `documents[top[j]]`. |
| `Retrieval.RetrieveShortlist` | main.py:59-61 | With one score per document, the lookup succeeds and returns `min(5, len(documents))` texts in shortlist order. |
| `Augment.RequestedCount` | main.py:69 | The count asked of the reranker is at most the number of candidates and at most `top_n`. It equals `top_n` when that fits, including `top_n <= 0`, and the number of candidates otherwise. |
| `Augment.RerankRequestFor` | main.py:66-71 | The reranker is sent the query and the retrieved texts in order, with the fixed model name and exactly the clamped count `min(top_n, len(retrieved_docs))`, which never exceeds the shortlist length. |
| `Augment.Context` | main.py:76 | The context is empty exactly when there are no results, or a single result whose text is empty. |
| `Augment.ContextRecoversChunks` | main.py:76 | When the texts have no newlines and there is at least one result, splitting the context at newlines gives back `retrieved_docs[r.index]` for each result, in the reranker's order. |
| `Text.JoinLines` | main.py:76 | No parts give `""`, one part gives itself, and the result is at least one shorter than the number of parts. Longer lists are characterised by `JoinLinesAppend`, `SplitJoinLines` and `JoinSplitLines`. |
| `Text.SplitJoinLines` | main.py:76 | For one or more newline-free parts, `split("\n")` undoes `"\n".join`. |
| `Text.JoinSplitLines` | main.py:76 | For every string, `"\n".join` undoes `split("\n")`. |
| `Text.JoinLinesAppend` | main.py:76 | Joining two non-empty lists of parts puts exactly one newline between their joins. |
| `Augment.Prompt` | main.py:79 | The prompt is `"Context: "`, the context, `"\n\nQuestion: "`, the query, then `"\n\nAnswer:"`, each at its fixed offset. Its length is the two lengths plus 30. |
| `Augment.PromptDeterminesContext` | main.py:79 | For one query, different contexts give different prompts. |
| `Augment.GenerateRequestFor` | main.py:78-82 | The generator gets model `command`, a budget of 200 tokens, and exactly the prompt template filled with the context and the query. |
| `Augment.SourceChunks` | main.py:89-92 | There is one entry per rerank result, in order. Entry `i` has rank `i + 1`, the text its result points at and that result's relevance score. |
| `Augment.SourceChunksMatchContext` | main.py:76-92 | Joining the source texts gives back the context: the sources are the texts given to the generator, in the same order. |
| `Augment.ShapeResponse` | main.py:86-93 | The response exists exactly when there is at least one generation. It carries the query, the stripped first generation and the source chunks. |
| `Text.Strip` | main.py:88 | The result is the piece of the input from `StripStart` on. It neither begins nor ends with Python whitespace, and everything removed is whitespace. |
| `Text.StripIdempotent` | main.py:88 | Stripping twice is stripping once. |
| `Pipeline.Augmented` | main.py:66-93 | After retrieval: the query is echoed, ranks run 1, 2, ..., and every source is a retrieved text. For `top_n >= 0` there are at most `min(top_n, len(retrieved_docs))` sources when the reranker returns no more than asked for, and exactly that many when it returns exactly as many as asked for. |
| `Pipeline.Answer` | main.py:55-93 | It fails for lack of embedding rows exactly when there are no scores. On success, the query is echoed, ranks run 1, 2, ..., and every source text is a corpus document. For `top_n >= 0` there are at most `min(top_n, 5)` sources when the reranker returns no more than it is asked for, and exactly `min(top_n, 5, rows)` when it returns exactly as many as asked for whenever the request asks for no more than the candidates it carries. Retrieval fails only when there are more scores than documents. It never fails at initialisation. |
| `Pipeline.ExactReranker` | main.py:66-71 | A reranker that returns exactly the requested number of valid results whenever that many candidates exist, so the hypotheses of `Answer` can all hold together. |
| `Pipeline.OneDocumentOneSource` | main.py:59-92 | With one document, `top_n = 3`, a reranker that returns what it is asked for and a generator that answers, the request succeeds with exactly one source. |
| `Pipeline.RagSearch` | main.py:50-93 | The all-or-nothing invariant holds after each request. A request on a ready index changes neither the globals nor the cache file. A first request that cannot read the corpus fails at initialisation and changes nothing. One that can read it loads the corpus, sets `model` and `co`, and takes the cached matrix or encodes the corpus once and saves it. The request fails at initialisation exactly when the index is not ready. Once ready, the result is `Answer` applied to the loaded corpus and the scores of its embedding rows. It fails for lack of rows exactly when the matrix is empty. Retrieval fails only when the matrix has more rows than the corpus, so a first request that encodes the corpus with an encoder giving one row per document never fails retrieval. |

## Findings

| source | as written | input that shows it | evidently intended | confidence | as-written member | corrected member |
|---|---|---|---|---|---|---|
| main.py:16-32 | `co` and `model` are set before `chunks.json` is read, and the guard `if model: return` tests only `model`. | A first request while `chunks.json` cannot be read, then a second request after it is restored. The second call returns at once and `documents` stays `None`. With or without a cache file, every later request fails at main.py:61, indexing `documents`, which is `None`. Without a cache `doc_embeddings` is also `None`, which `cosine_similarity` reads as comparing the query with itself, giving one score. | A failed initialisation leaves the globals unset so the next request tries again, and no request sees `model` set without the corpus. | medium; not executed | `Index.FailedInitSticks` | `Index.RagState.InitializingAtomic` |

## Left out

- HTTP transport is not modelled. That covers the FastAPI routes, `GET /health`, the CORS middleware, the static-file mount and the `uvicorn` start-up (main.py:43-47, 95-100). It is framework plumbing with no logic of its own.
- The Cohere network calls `co.rerank` and `co.generate` are not modelled. Only the requests built for them and the shape of their answers are. Network and service errors, and failures to build the client or load the SentenceTransformer, are foreign and not modelled.
- `model.encode` and `cosine_similarity` are library numerics on floats. They are replaced by an encoding parameter and an abstract score function giving one `real` per matrix row. The 384-dimensional vectors and the cosine values are not modelled.
- Pipeline.RagSearch: the encoder parameter may return any number of rows. That a fresh encoding gives one row per document is a hypothesis of its retrieval clause, not a requirement, since only the library guarantees it.
- File I/O is abstract. `load_dotenv` and the environment variable become the `apiKey` parameter. `json.load` is assumed to give a list of strings. I/O errors other than a failed read of `chunks.json` are not modelled.
- `print` logging is left out. It has no behavioural content.
- Concurrency is not modelled. The source takes no lock around the initialisation guard, so the all-or-nothing invariant is a property of sequential calls only.
- Reranker indices are natural numbers. Python's negative indexing of `retrieved_docs[r.index]` is not modelled.
- Pipeline.RagSearch: calls `InitializingAtomic` rather than the `Initializing` of main.py:51 (see Findings). It does not model the way a request fails after an earlier failed initialisation.
- Pipeline.Answer: it bounds the number of sources by `min(top_n, 5)` only for `top_n >= 0` and on the hypothesis that the reranker returns no more results than it is asked for. That is the reranking service's behaviour, not something `main.py` checks; what the service does with a negative count is not modelled. The exact count `min(top_n, 5, rows)` likewise holds only for a reranker that returns exactly as many results as asked for whenever the request asks for no more than the candidates it carries (`ExactReranker` is one).
