/** The upload path of `internal/rag/uploader`: load a file into documents,
    split them into chunks, store the chunks in the vector index, and fail
    as soon as one stage fails or produces nothing. The three stages are
    oracles; a stage that is never reached cannot change the outcome. */
module Uploader {
  import opened Common

  datatype UploadError =
    | LoadFailed(uri: string, cause: string) // "failed to load document from ...: ..."
    | NoDocuments(uri: string)               // "no documents loaded from ..."
    | TransformFailed(cause: string)         // "failed to transform documents: ..."
    | NoChunks                               // "transformer returned empty chunks"
    | IndexFailed(cause: string)             // "failed to index documents: ..."
    | NoIds                                  // "indexer did not return any IDs"

  /** `Uploader`: the loader, transformer and indexer it calls. */
  datatype Uploader = Uploader(
    load: string -> Result<seq<Document>, string>,
    transform: seq<Document> -> Result<seq<Document>, string>,
    store: seq<Document> -> Result<seq<string>, string>)

  /** `Upload(ctx, fileUrl)`. */
  function Upload(u: Uploader, uri: string): (r: Result<seq<string>, UploadError>)
    ensures r.Success? <==>
      && u.load(uri).Success? && u.load(uri).value != []
      && u.transform(u.load(uri).value).Success? && u.transform(u.load(uri).value).value != []
      && u.store(u.transform(u.load(uri).value).value).Success? && u.store(u.transform(u.load(uri).value).value).value != []
    ensures r.Success? ==> r.value != [] && r.value == u.store(u.transform(u.load(uri).value).value).value
    ensures u.load(uri).Failure? ==> r == Failure(LoadFailed(uri, u.load(uri).error))
    ensures u.load(uri) == Success([]) ==> r == Failure(NoDocuments(uri))
  {
    var docs := u.load(uri);
    if docs.Failure? then Failure(LoadFailed(uri, docs.error))
    else if |docs.value| == 0 then Failure(NoDocuments(uri))
    else
      var chunks := u.transform(docs.value);
      if chunks.Failure? then Failure(TransformFailed(chunks.error))
      else if |chunks.value| == 0 then Failure(NoChunks)
      else
        var ids := u.store(chunks.value);
        if ids.Failure? then Failure(IndexFailed(ids.error))
        else if |ids.value| == 0 then Failure(NoIds)
        else Success(ids.value)
  }

  /** A load error or an empty load ends the upload before the transformer
      and the indexer: replacing them changes nothing. */
  lemma StopsAfterLoad(u: Uploader, uri: string,
                       transform: seq<Document> -> Result<seq<Document>, string>,
                       store: seq<Document> -> Result<seq<string>, string>)
    requires u.load(uri).Failure? || u.load(uri).value == []
    ensures Upload(u, uri) == Upload(u.(transform := transform, store := store), uri)
    ensures Upload(u, uri).Failure?
  {
  }

  /** A transformer error or no chunks ends the upload before the indexer,
      with the transformer's error or "empty chunks". */
  lemma StopsAfterTransform(u: Uploader, uri: string, store: seq<Document> -> Result<seq<string>, string>)
    requires u.load(uri).Success? && u.load(uri).value != []
    requires var chunks := u.transform(u.load(uri).value); chunks.Failure? || chunks.value == []
    ensures Upload(u, uri) == Upload(u.(store := store), uri)
    ensures var chunks := u.transform(u.load(uri).value);
      Upload(u, uri) == (if chunks.Failure? then Failure(TransformFailed(chunks.error)) else Failure(NoChunks))
  {
  }

  /** An indexer error, or an indexer that returns no ids, is an error. */
  lemma IndexerMustReturnIds(u: Uploader, uri: string)
    requires u.load(uri).Success? && u.load(uri).value != []
    requires u.transform(u.load(uri).value).Success? && u.transform(u.load(uri).value).value != []
    ensures var ids := u.store(u.transform(u.load(uri).value).value);
      && (ids.Failure? ==> Upload(u, uri) == Failure(IndexFailed(ids.error)))
      && (ids == Success([]) ==> Upload(u, uri) == Failure(NoIds))
  {
  }

  datatype NewUploaderError =
    | LoaderNotCreated(cause: string)      // "failed to create loader: ..."
    | TransformerNotCreated(cause: string) // "failed to create transformer: ..."
    | IndexerNotCreated(cause: string)     // "failed to create indexer: ..."

  /** `NewUploader`, given what the three constructors return, called in
      the order loader, transformer, indexer; the first failure is reported
      and the later constructors' outcomes do not matter. */
  function NewUploader(loader: Result<string -> Result<seq<Document>, string>, string>,
                       transformer: Result<seq<Document> -> Result<seq<Document>, string>, string>,
                       indexer: Result<seq<Document> -> Result<seq<string>, string>, string>)
    : (r: Result<Uploader, NewUploaderError>)
    ensures r.Success? <==> loader.Success? && transformer.Success? && indexer.Success?
    ensures r.Success? ==> r.value == Uploader(loader.value, transformer.value, indexer.value)
    ensures loader.Failure? ==> r == Failure(LoaderNotCreated(loader.error))
    ensures loader.Success? && transformer.Failure? ==> r == Failure(TransformerNotCreated(transformer.error))
    ensures loader.Success? && transformer.Success? && indexer.Failure? ==> r == Failure(IndexerNotCreated(indexer.error))
  {
    if loader.Failure? then Failure(LoaderNotCreated(loader.error))
    else if transformer.Failure? then Failure(TransformerNotCreated(transformer.error))
    else if indexer.Failure? then Failure(IndexerNotCreated(indexer.error))
    else Success(Uploader(loader.value, transformer.value, indexer.value))
  }
}
