/** The vector-search retriever, of which the code base holds two identical
    copies (`internal/rag/generator/retriever` and `internal/rag/retriever`):
    embed the query, narrow the first embedding to float32, search the
    collection for the top K rows by cosine similarity and turn the rows of
    the first result set into documents. The embedder and the search are
    oracles; `F64` and `F32` stand for the float types and `narrow` for Go's
    `float32(v)`. */
module Retriever {
  import opened Common
  import opened Vectors

  /** `retriever.Options`, reduced to the one option read: a nil-able TopK. */
  datatype Options = Options(topK: Option<int>)

  /** The arguments of the Milvus `Search` call. */
  datatype SearchRequest<F32> = SearchRequest(
    collection: string, partitions: seq<string>, expr: string, outputFields: seq<string>,
    vectors: seq<seq<F32>>, vectorField: string, metric: string, topK: int)

  /** One result set of a search: its row count and the three columns read,
      each accessor answering None where the SDK reports an error. */
  datatype ResultSet = ResultSet(
    resultCount: int, id: int -> Option<int>, content: int -> Option<string>, metadata: int -> Option<Any>)

  datatype RetrieveError =
    | EmbedFailed(cause: string)   // "embed: ..."
    | SearchFailed(cause: string)  // "milvus search: ..."

  /** What `doRetrieve` ends with: documents, an error, or a run-time panic
      (indexing an empty embedding list, or a negative capacity for `make`). */
  datatype Outcome = Found(docs: seq<Document>) | Failed(error: RetrieveError) | Panic

  /** `Retriever`: the configured collection and default top K. */
  datatype Retriever = Retriever(collection: string, topK: int)

  /** The top K searched for: the option when it is set and positive,
      otherwise the default. */
  function EffectiveTopK(default: int, opt: Options): (k: int)
    ensures opt.topK.Some? && opt.topK.value > 0 ==> k == opt.topK.value
    ensures opt.topK.None? || opt.topK.value <= 0 ==> k == default
    ensures default > 0 ==> k > 0
  {
    if opt.topK.Some? && opt.topK.value > 0 then opt.topK.value else default
  }

  /** The search issued for a query vector. */
  function Request<F32>(collection: string, vector: seq<F32>, topK: int): (r: SearchRequest<F32>)
  {
    SearchRequest(collection, [], "", ["id", "content", "metadata"], [vector], "vector", "COSINE", topK)
  }

  /** The document for row i: the id rendered with "%d" (0 when unreadable),
      the content ("" when unreadable), and the metadata when it is a map,
      nil otherwise. */
  function RowDocument(rs: ResultSet, i: int): (r: Document)
  {
    var id := if rs.id(i).Some? then rs.id(i).value else 0;
    var content := if rs.content(i).Some? then rs.content(i).value else "";
    var metadata := if rs.metadata(i).Some? && rs.metadata(i).value.Map? then Some(rs.metadata(i).value.m) else None;
    Document(IntToDecimal(id), content, metadata)
  }

  /** What `doRetrieve` does, as a function of what the embedder and the
      search answer. */
  function Retrieval<F32, F64>(r: Retriever, query: seq<string>, opt: Options,
                               embed: seq<string> -> Result<seq<seq<F64>>, string>,
                               search: SearchRequest<F32> -> Result<seq<ResultSet>, string>,
                               narrow: F64 -> F32): (outcome: Outcome)
  {
    var vec := embed(query);
    if vec.Failure? then Failed(EmbedFailed(vec.error))
    else if vec.value == [] then Panic
    else
      var res := search(Request(r.collection, Converted(vec.value[0], narrow), EffectiveTopK(r.topK, opt)));
      if res.Failure? then Failed(SearchFailed(res.error))
      else if res.value == [] then Found([])
      else if res.value[0].resultCount < 0 then Panic
      else Found(seq(res.value[0].resultCount, i requires 0 <= i => RowDocument(res.value[0], i)))
  }

  /** `doRetrieve`: the float32 query vector is filled element by element,
      the top K reassigned when the option overrides it, and the documents
      appended row by row. */
  method DoRetrieve<F32(0), F64>(r: Retriever, query: seq<string>, opt: Options,
                                 embed: seq<string> -> Result<seq<seq<F64>>, string>,
                                 search: SearchRequest<F32> -> Result<seq<ResultSet>, string>,
                                 narrow: F64 -> F32)
    returns (outcome: Outcome)
    ensures outcome == Retrieval(r, query, opt, embed, search, narrow)
  {
    var vec := embed(query);
    if vec.Failure? {
      return Failed(EmbedFailed(vec.error));
    }
    if |vec.value| == 0 {
      return Panic;
    }
    var floatVec := Convert(vec.value[0], narrow);
    var topK := r.topK;
    if opt.topK.Some? && opt.topK.value > 0 {
      topK := opt.topK.value;
    }
    var res := search(SearchRequest(r.collection, [], "", ["id", "content", "metadata"], [floatVec], "vector", "COSINE", topK));
    if res.Failure? {
      return Failed(SearchFailed(res.error));
    }
    if |res.value| == 0 {
      return Found([]);
    }
    var rs := res.value[0];
    if rs.resultCount < 0 {
      return Panic;
    }
    var docs: seq<Document> := [];
    for i := 0 to rs.resultCount
      invariant |docs| == i
      invariant forall k :: 0 <= k < i ==> docs[k] == RowDocument(rs, k)
    {
      var id := rs.id(i);
      var content := rs.content(i);
      var metaRaw := rs.metadata(i);
      var metadata := None;
      if metaRaw.Some? && metaRaw.value.Map? {
        metadata := Some(metaRaw.value.m);
      }
      docs := docs + [Document(IntToDecimal(if id.Some? then id.value else 0),
                               if content.Some? then content.value else "", metadata)];
    }
    outcome := Found(docs);
  }

  /** `Retrieve`: the caller's options are ignored and the configured top K
      is passed down. */
  method Retrieve<F32(0), F64>(r: Retriever, query: string, callerOptions: seq<Options>,
                               embed: seq<string> -> Result<seq<seq<F64>>, string>,
                               search: SearchRequest<F32> -> Result<seq<ResultSet>, string>,
                               narrow: F64 -> F32)
    returns (outcome: Outcome)
    ensures outcome == Retrieval(r, [query], Options(Some(r.topK)), embed, search, narrow)
  {
    outcome := DoRetrieve(r, [query], Options(Some(r.topK)), embed, search, narrow);
  }

  /** One document per row of the first result set, in row order; an id is
      read back exactly from the document's ID string, and metadata is
      present only when the row's value is a map. */
  lemma RowsToDocuments<F32, F64>(r: Retriever, query: seq<string>, opt: Options,
                                  embed: seq<string> -> Result<seq<seq<F64>>, string>,
                                  search: SearchRequest<F32> -> Result<seq<ResultSet>, string>,
                                  narrow: F64 -> F32)
    requires embed(query).Success? && embed(query).value != []
    requires var req := Request(r.collection, Converted(embed(query).value[0], narrow), EffectiveTopK(r.topK, opt));
      search(req).Success? && search(req).value != [] && search(req).value[0].resultCount >= 0
    ensures var req := Request(r.collection, Converted(embed(query).value[0], narrow), EffectiveTopK(r.topK, opt));
      var rs := search(req).value[0];
      var outcome := Retrieval(r, query, opt, embed, search, narrow);
      && |req.vectors| == 1 && |req.vectors[0]| == |embed(query).value[0]|
      && outcome.Found? && |outcome.docs| == rs.resultCount
      && forall i :: 0 <= i < rs.resultCount ==>
           && ParseDecimal(outcome.docs[i].id) == Some(if rs.id(i).Some? then rs.id(i).value else 0)
           && (outcome.docs[i].metaData.Some? <==> rs.metadata(i).Some? && rs.metadata(i).value.Map?)
  {
    var req := Request(r.collection, Converted(embed(query).value[0], narrow), EffectiveTopK(r.topK, opt));
    var rs := search(req).value[0];
    forall i | 0 <= i < rs.resultCount
      ensures ParseDecimal(RowDocument(rs, i).id) == Some(if rs.id(i).Some? then rs.id(i).value else 0)
    {
      DecimalRoundTrip(if rs.id(i).Some? then rs.id(i).value else 0);
    }
  }
}
