/** The process-wide state of the service, `model, documents, doc_embeddings,
    co`, and `Initializing`, which fills it in on the first request. The
    embedding model, the Cohere client, the corpus file `chunks.json` and the
    cache file `embeddings.npy` are abstract: the corpus is what reading
    `chunks.json` yields (None when that read fails), encoding is a function
    parameter, and the cache file is an object whose contents `np.load` reads
    and `np.save` replaces. */
module Index {
  import opened Wrappers

  type Vector = seq<real>
  type Matrix = seq<Vector>

  const EmbeddingModelName: string := "all-MiniLM-L6-v2"

  /** The sentence-embedding model object. */
  datatype Encoder = SentenceTransformer(name: string)

  /** The Cohere client, made from the `COHERE_API_KEY` environment variable
      (None when it is unset). */
  datatype Client = CohereClient(apiKey: Option<string>)

  datatype InitError = CorpusUnreadable

  /** The file `embeddings.npy`: None while it does not exist. */
  class CacheFile {
    var contents: Option<Matrix>

    constructor (contents: Option<Matrix>)
      ensures this.contents == contents
    {
      this.contents := contents;
    }
  }

  /** The four module globals, all None when the process starts. */
  class RagState {
    var model: Option<Encoder>
    var documents: Option<seq<string>>
    var docEmbeddings: Option<Matrix>
    var co: Option<Client>
    /** How many times the corpus has been encoded. */
    ghost var encodeCount: nat

    constructor ()
      ensures Pristine() && encodeCount == 0
    {
      model, documents, docEmbeddings, co := None, None, None, None;
      encodeCount := 0;
    }

    /** Nothing has been initialised. */
    ghost predicate Pristine()
      reads this
    {
      model.None? && documents.None? && docEmbeddings.None? && co.None?
    }

    /** Everything has been initialised. */
    ghost predicate Ready()
      reads this
    {
      model.Some? && documents.Some? && docEmbeddings.Some? && co.Some?
    }

    /** The state a concurrent reader may see: never a partly built index. */
    ghost predicate AllOrNothing()
      reads this
    {
      Pristine() || Ready()
    }

    /** `Initializing()` as written. Once `model` is set it returns at once and
        changes nothing. Otherwise it sets `co` and `model` first, then either
        loads the cached matrix and the corpus (no encoding, no write), or
        loads the corpus, encodes it and saves the matrix to the cache. When
        the corpus cannot be read it fails with `co` and `model` already set
        (and, on the cached path, `doc_embeddings` too), so every later call
        returns at once without loading the corpus. */
    method Initializing(cache: CacheFile, apiKey: Option<string>, corpus: Option<seq<string>>,
                        encode: seq<string> -> Matrix)
      returns (err: Option<InitError>)
      modifies this, cache
      ensures old(model).Some? ==> err == None && unchanged(this) && unchanged(cache)
      ensures old(model).None? ==> model == Some(SentenceTransformer(EmbeddingModelName))
                                   && co == Some(CohereClient(apiKey))
                                   && (err == None <==> corpus.Some?)
      ensures old(model).None? && old(cache.contents).Some? ==>
                docEmbeddings == old(cache.contents) && unchanged(cache) && encodeCount == old(encodeCount)
                && documents == (if corpus.Some? then corpus else old(documents))
      ensures old(model).None? && old(cache.contents).None? && corpus.Some? ==>
                documents == corpus && docEmbeddings == Some(encode(corpus.value))
                && cache.contents == docEmbeddings && encodeCount == old(encodeCount) + 1
      ensures old(model).None? && old(cache.contents).None? && corpus.None? ==>
                documents == old(documents) && docEmbeddings == old(docEmbeddings)
                && unchanged(cache) && encodeCount == old(encodeCount)
      ensures old(model).None? && err == None ==> Ready()
    {
      if model.Some? {
        return None;
      }
      co := Some(CohereClient(apiKey));
      model := Some(SentenceTransformer(EmbeddingModelName));
      if cache.contents.Some? {
        docEmbeddings := cache.contents;
        if corpus.None? {
          return Some(CorpusUnreadable);
        }
        documents := corpus;
      } else {
        if corpus.None? {
          return Some(CorpusUnreadable);
        }
        documents := corpus;
        docEmbeddings := Some(encode(corpus.value));
        encodeCount := encodeCount + 1;
        cache.contents := docEmbeddings;
      }
      return None;
    }

    /** `Initializing()` with its assignments to the globals moved after the
        corpus has been read: the same loads, encoding and cache write, but a
        failed call leaves every global as it was, so the next call tries
        again, and no caller ever sees a partly built index. */
    method InitializingAtomic(cache: CacheFile, apiKey: Option<string>, corpus: Option<seq<string>>,
                              encode: seq<string> -> Matrix)
      returns (err: Option<InitError>)
      requires AllOrNothing()
      modifies this, cache
      ensures AllOrNothing()
      ensures old(Ready()) ==> err == None && unchanged(this) && unchanged(cache)
      ensures !old(Ready()) && corpus.None? ==>
                err == Some(CorpusUnreadable) && unchanged(this) && unchanged(cache)
      ensures !old(Ready()) && corpus.Some? ==>
                err == None && Ready()
                && model == Some(SentenceTransformer(EmbeddingModelName))
                && co == Some(CohereClient(apiKey)) && documents == corpus
      ensures !old(Ready()) && corpus.Some? && old(cache.contents).Some? ==>
                docEmbeddings == old(cache.contents) && unchanged(cache) && encodeCount == old(encodeCount)
      ensures !old(Ready()) && corpus.Some? && old(cache.contents).None? ==>
                docEmbeddings == Some(encode(corpus.value))
                && cache.contents == docEmbeddings && encodeCount == old(encodeCount) + 1
    {
      if model.Some? {
        return None;
      }
      var client := CohereClient(apiKey);
      var encoder := SentenceTransformer(EmbeddingModelName);
      var embeddings: Matrix;
      if cache.contents.Some? {
        embeddings := cache.contents.value;
        if corpus.None? {
          return Some(CorpusUnreadable);
        }
      } else {
        if corpus.None? {
          return Some(CorpusUnreadable);
        }
        embeddings := encode(corpus.value);
        encodeCount := encodeCount + 1;
        cache.contents := Some(embeddings);
      }
      co, model, documents, docEmbeddings := Some(client), Some(encoder), corpus, Some(embeddings);
      return None;
    }
  }

  /** A first request made while `chunks.json` cannot be read, then a second
      one once it can: with `Initializing` as written the second call returns
      at once, so the corpus is never loaded although `model` is set. */
  method FailedInitSticks() returns (modelSet: bool, corpusLoaded: bool)
    ensures modelSet && !corpusLoaded
  {
    var state := new RagState();
    var cache := new CacheFile(None);
    var encode := (docs: seq<string>) => [];
    var first := state.Initializing(cache, None, None, encode);
    var second := state.Initializing(cache, None, Some(["Paris is the capital of France."]), encode);
    modelSet, corpusLoaded := state.model.Some?, state.documents.Some?;
  }

  /** The same two requests with `InitializingAtomic`: the first leaves the
      state untouched, and the second loads the corpus. */
  method FailedAtomicInitRecovers() returns (ready: bool, corpus: seq<string>)
    ensures ready && corpus == ["Paris is the capital of France."]
  {
    var state := new RagState();
    var cache := new CacheFile(None);
    var encode := (docs: seq<string>) => [];
    var first := state.InitializingAtomic(cache, None, None, encode);
    var second := state.InitializingAtomic(cache, None, Some(["Paris is the capital of France."]), encode);
    ready := state.model.Some? && state.documents.Some? && state.docEmbeddings.Some? && state.co.Some?;
    corpus := if state.documents.Some? then state.documents.value else [];
  }
}
