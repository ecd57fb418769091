/** The Milvus indexer: `floatDocumentConverter`, which turns documents and
    their float64 embeddings into Milvus rows (the same function is copied
    into five files), `Store`/`doStore`, which build an eino Milvus indexer
    and store through it, and the `IndexerRAG` test driver, which stores one
    document per call. The Milvus indexer is an oracle; a `log.Fatalf`
    (which ends the process) is a `Fatal` outcome. `F64` and `F32` stand for
    the float types and `narrow` for Go's `float32(v)`. */
module Indexer {
  import opened Common
  import opened Vectors
  import opened Fields
  import opened Gemini

  /** A value in a row (`map[string]interface{}`). */
  datatype Cell<F32> =
    | TextCell(text: string)
    | VectorCell(vector: seq<F32>)
    | MetaCell(metadata: Option<map<string, Any>>)

  type Row<F32> = map<string, Cell<F32>>

  const RowKeys: set<string> := {"id", "content", "vector", "metadata"}

  /** The row for one document and its embedding. */
  function RowOf<F64, F32>(doc: Document, vector: seq<F64>, narrow: F64 -> F32): (r: Row<F32>)
  {
    map["id" := TextCell(doc.id), "content" := TextCell(doc.content),
        "vector" := VectorCell(Converted(vector, narrow)), "metadata" := MetaCell(doc.metaData)]
  }

  /** `floatDocumentConverter`: one row per document, in document order,
      holding exactly the keys id, content, vector and metadata, copied
      from the document, with the document's embedding narrowed element by
      element. Embedding i belongs to document i, so there must be one per
      document; no error is ever returned. */
  method FloatDocumentConverter<F64, F32(0)>(docs: seq<Document>, vectors: seq<seq<F64>>, narrow: F64 -> F32)
    returns (rows: seq<Row<F32>>, err: Option<string>)
    requires |vectors| >= |docs|
    ensures err == None
    ensures |rows| == |docs|
    ensures forall i :: 0 <= i < |docs| ==>
      && rows[i].Keys == RowKeys
      && rows[i]["id"] == TextCell(docs[i].id)
      && rows[i]["content"] == TextCell(docs[i].content)
      && rows[i]["metadata"] == MetaCell(docs[i].metaData)
      && rows[i]["vector"].VectorCell?
      && |rows[i]["vector"].vector| == |vectors[i]|
      && forall j :: 0 <= j < |vectors[i]| ==> rows[i]["vector"].vector[j] == narrow(vectors[i][j])
  {
    rows := [];
    for i := 0 to |docs|
      invariant |rows| == i
      invariant forall k :: 0 <= k < i ==> rows[k] == RowOf(docs[k], vectors[k], narrow)
    {
      var doc := docs[i];
      var float32Vec := Convert(vectors[i], narrow);
      var row := map["id" := TextCell(doc.id), "content" := TextCell(doc.content),
                     "vector" := VectorCell(float32Vec), "metadata" := MetaCell(doc.metaData)];
      rows := rows + [row];
    }
    err := None;
  }

  /** What `milvus.NewIndexer` is given (the client, embedder and converter
      are fixed by the caller and left out). */
  datatype IndexerConfig = IndexerConfig(collection: string, metricType: string, fields: seq<Field>)

  /** The `Store` of an eino Milvus indexer: the ids of the stored
      documents, or an error. */
  type StoreFn = Batch -> Result<seq<string>, string>

  datatype StoreOutcome =
    | Stored(ids: seq<string>)
    | CreateFatal(cause: string) // "Failed to create indexer: ..."
    | StoreFatal(cause: string)  // "Failed to store ..."

  /** `Indexer`, with the configured collection name and `gemini.dim`. */
  datatype Indexer = Indexer(collection: string, dim: string)

  /** `doStore`: build a Milvus indexer on the default schema with the
      cosine metric, then store the documents through it; either failure
      ends the process; otherwise the store's ids come back with no error. */
  method DoStore(ix: Indexer, docs: Batch, newIndexer: IndexerConfig -> Result<StoreFn, string>)
    returns (outcome: StoreOutcome)
    ensures var made := newIndexer(IndexerConfig(ix.collection, "COSINE", FieldsOf(DefaultConfig(ix.dim))));
      && (made.Failure? ==> outcome == CreateFatal(made.error))
      && (made.Success? && made.value(docs).Failure? ==> outcome == StoreFatal(made.value(docs).error))
      && (made.Success? && made.value(docs).Success? ==> outcome == Stored(made.value(docs).value))
  {
    var fields := NewFields(None, ix.dim);
    var made := newIndexer(IndexerConfig(ix.collection, "COSINE", fields));
    if made.Failure? {
      return CreateFatal(made.error);
    }
    var ids := made.value(docs);
    if ids.Failure? {
      return StoreFatal(ids.error);
    }
    outcome := Stored(ids.value);
  }

  /** `Store` delegates to `doStore`: it ends the process when the Milvus
      indexer cannot be created or fails to store, and otherwise returns
      exactly the ids the Milvus store returned. */
  method Store(ix: Indexer, docs: Batch, newIndexer: IndexerConfig -> Result<StoreFn, string>)
    returns (outcome: StoreOutcome)
    ensures var made := newIndexer(IndexerConfig(ix.collection, "COSINE", FieldsOf(DefaultConfig(ix.dim))));
      && (outcome.Stored? <==> made.Success? && made.value(docs).Success?)
      && (made.Failure? ==> outcome == CreateFatal(made.error))
      && (made.Success? && made.value(docs).Failure? ==> outcome == StoreFatal(made.value(docs).error))
      && (outcome.Stored? ==> outcome.ids == made.value(docs).value)
  {
    outcome := DoStore(ix, docs, newIndexer);
  }

  // ---------------------------------------------------------------------
  // The stage-4 test driver

  /** The fixed schema of the stage-4 driver: id (primary key, no AutoID),
      vector (dimension 3072), content and metadata. */
  const StageFields: seq<Field> := [
    Field("id", VarChar, true, false, Some(map["max_length" := "255"])),
    Field("vector", FloatVector, false, false, Some(map["dim" := "3072"])),
    Field("content", VarChar, false, false, Some(map["max_length" := "8192"])),
    Field("metadata", Json, false, false, None)
  ]

  const StageCollection: string := "rag_doc"

  datatype RagOutcome =
    | EmbedderPanic(reason: EmbedderError) // panic(err)
    | IndexerFatal(cause: string)          // "Failed to create indexer: ..."
    | DocumentFatal(cause: string)         // "Failed to store documents: ..."
    | AllStored

  /** `IndexerRAG`: create the embedder (panic on failure) and a Milvus
      indexer (fatal on failure), then store the documents one by one, each
      as a batch holding a copy of just that document; the first store
      error ends the process. `stored` lists the batches handed to the
      store, in order. */
  method IndexerRAG(docs: seq<Document>, embedder: Result<GeminiEmbedder, EmbedderError>,
                    newIndexer: IndexerConfig -> Result<StoreFn, string>)
    returns (outcome: RagOutcome, stored: seq<Batch>)
    ensures embedder.Failure? ==> outcome == EmbedderPanic(embedder.error) && stored == []
    ensures var made := newIndexer(IndexerConfig(StageCollection, "COSINE", StageFields));
      && (embedder.Success? && made.Failure? ==> outcome == IndexerFatal(made.error) && stored == [])
      && (embedder.Success? && made.Success? ==>
            && |stored| <= |docs|
            && (forall k :: 0 <= k < |stored| ==> stored[k] == [docs[k]])
            && (forall k :: 0 <= k < |stored| - 1 ==> made.value(stored[k]).Success?)
            && (outcome == AllStored <==> |stored| == |docs| && forall k :: 0 <= k < |stored| ==> made.value(stored[k]).Success?)
            && (outcome != AllStored ==>
                  && stored != [] && made.value(stored[|stored| - 1]).Failure?
                  && outcome == DocumentFatal(made.value(stored[|stored| - 1]).error)))
  {
    stored := [];
    if embedder.Failure? {
      return EmbedderPanic(embedder.error), stored;
    }
    var made := newIndexer(IndexerConfig(StageCollection, "COSINE", StageFields));
    if made.Failure? {
      return IndexerFatal(made.error), stored;
    }
    var store := made.value;
    for i := 0 to |docs|
      invariant |stored| == i
      invariant forall k :: 0 <= k < i ==> stored[k] == [docs[k]] && store(stored[k]).Success?
    {
      var doc := docs[i];
      var storeDoc := [Document(doc.id, doc.content, doc.metaData)];
      stored := stored + [storeDoc];
      var ids := store(storeDoc);
      if ids.Failure? {
        return DocumentFatal(ids.error), stored;
      }
    }
    outcome := AllStored;
  }
}
