/** The query path of `internal/rag/generator`: retrieve documents for the
    query, number and format them as context chunks (`assembleResults`),
    wrap query and chunks in a prompt and ask the generative model. The
    retriever and the model are oracles; retrieved documents are pointers,
    so an entry may be nil (None). */
module Generator {
  import opened Common

  datatype GenerateError =
    | RetrieveFailed(cause: string)  // "failed to retrieve: ..."
    | AssembleFailed(cause: string)  // "failed to assemble results: ..."
    | ModelFailed(cause: string)     // "failed to call gemini: ..."
    | EmptyResponse                  // "empty response from gemini"

  const NoResultsMessage: string := "no results to assemble"

  /** A candidate of the model's answer: its content, nil or the text it
      holds. */
  datatype Candidate = Candidate(content: Option<string>)

  datatype ModelResponse = ModelResponse(candidates: seq<Candidate>)

  /** `Generator`: the configured model name, the retriever and the model. */
  datatype Generator = Generator(
    model: string,
    retrieve: string -> Result<seq<Option<Document>>, string>,
    generateContent: (string, string) -> Result<ModelResponse, string>)

  /** The chunk for the document at 1-based position `k`: a header line,
      then the content twice when there is any. */
  function ChunkText(k: nat, content: string): (r: string)
  {
    ResultLabel + NatToDecimal(k) + HeaderEnd + content + (if content != "" then ContentLabel + content else "")
  }

  const ResultLabel: string := "Result "
  const HeaderEnd: string := ":\n"
  const ContentLabel: string := "\nContent: "

  /** The chunks for a list of results: the non-nil ones, in order. */
  function Assembled(results: seq<Option<Document>>): (r: seq<string>)
  {
    if results == [] then []
    else
      var n := |results|;
      Assembled(results[..n - 1]) + (if results[n - 1].Some? then [ChunkText(n, results[n - 1].value.content)] else [])
  }

  /** The positions (from 0) of the non-nil results, in order. */
  function Present(results: seq<Option<Document>>): (r: seq<nat>)
  {
    if results == [] then []
    else
      var n := |results|;
      Present(results[..n - 1]) + (if results[n - 1].Some? then [n - 1] else [])
  }

  /** `assembleResults`: an empty list is an error; otherwise one chunk per
      non-nil document, skipping the nil ones. */
  method AssembleResults(results: seq<Option<Document>>) returns (r: Result<seq<string>, string>)
    ensures r.Failure? <==> results == []
    ensures r.Failure? ==> r.error == NoResultsMessage
    ensures r.Success? ==> r.value == Assembled(results)
  {
    if |results| == 0 {
      return Failure(NoResultsMessage);
    }
    var chunks: seq<string> := [];
    for i := 0 to |results|
      invariant chunks == Assembled(results[..i])
    {
      assert results[..i + 1][..i] == results[..i];
      assert Assembled(results[..i + 1])
          == Assembled(results[..i]) + (if results[i].Some? then [ChunkText(i + 1, results[i].value.content)] else []);
      var doc := results[i];
      if doc.None? {
        continue;
      }
      var text := ResultLabel + NatToDecimal(i + 1) + HeaderEnd + doc.value.content;
      if doc.value.content != "" && |doc.value.content| > 0 {
        text := text + ContentLabel + doc.value.content;
      }
      assert text == ChunkText(i + 1, doc.value.content);
      chunks := chunks + [text];
    }
    assert results[..|results|] == results;
    r := Success(chunks);
  }

  /** Chunk m is built from the m-th non-nil document and carries its
      1-based position in the input, so skipped nils leave gaps in the
      numbering; there are as many chunks as non-nil documents. */
  lemma {:induction false} AssembledFromPresent(results: seq<Option<Document>>)
    ensures |Assembled(results)| == |Present(results)|
    ensures forall m :: 0 <= m < |Present(results)| ==>
              var i := Present(results)[m];
              i < |results| && results[i].Some? && Assembled(results)[m] == ChunkText(i + 1, results[i].value.content)
  {
    if results != [] {
      var n := |results|;
      var init := results[..n - 1];
      AssembledFromPresent(init);
      var a, p := Assembled(init), Present(init);
      var last := results[n - 1];
      var moreA := if last.Some? then [ChunkText(n, last.value.content)] else [];
      var moreP := if last.Some? then [n - 1] else [];
      assert Assembled(results) == a + moreA;
      assert Present(results) == p + moreP;
      forall m | 0 <= m < |p + moreP|
        ensures var i := (p + moreP)[m];
          i < n && results[i].Some? && (a + moreA)[m] == ChunkText(i + 1, results[i].value.content)
      {
        if m < |p| {
          assert (p + moreP)[m] == p[m] && (a + moreA)[m] == a[m];
          assert init[p[m]] == results[p[m]];
        } else {
          assert (p + moreP)[m] == n - 1 && (a + moreA)[m] == ChunkText(n, last.value.content);
        }
      }
    }
  }

  /** The positions listed are exactly those of the non-nil documents, in
      increasing order: chunks keep the input order. */
  lemma {:induction false} PresentExactly(results: seq<Option<Document>>)
    ensures forall i :: 0 <= i < |results| ==> (results[i].Some? <==> i in Present(results))
    ensures forall a, b :: 0 <= a < b < |Present(results)| ==> Present(results)[a] < Present(results)[b]
    ensures forall m :: 0 <= m < |Present(results)| ==> Present(results)[m] < |results|
  {
    if results != [] {
      var n := |results|;
      var init := results[..n - 1];
      PresentExactly(init);
      assert forall i :: 0 <= i < n - 1 ==> init[i] == results[i];
    }
  }

  /** Only nil documents: no chunk, and no error either. */
  lemma {:induction false} AllNilAssemblesNothing(results: seq<Option<Document>>)
    ensures Assembled(results) == [] <==> forall i :: 0 <= i < |results| ==> results[i].None?
  {
    AssembledCount(results);
    PresentExactly(results);
    var p := Present(results);
    if p != [] {
      assert p[0] in p;
      assert results[p[0]].Some?;
    }
    forall i | 0 <= i < |results| && results[i].Some?
      ensures p != []
    {
      assert i in p;
    }
  }

  /** One chunk per non-nil document. */
  lemma {:induction false} AssembledCount(results: seq<Option<Document>>)
    ensures |Assembled(results)| == |Present(results)|
  {
    if results != [] {
      AssembledCount(results[..|results| - 1]);
    }
  }

  const PromptHead: string := "\nYou are an intelligent assistant. \nUser query: "
  const PromptMiddle: string := "\n\nHere are retrieved context documents:\n"
  const PromptTail: string := "\n\nPlease refine and reorganize the context into a concise, high-quality response.\n"
  const ChunkSeparator: string := "\n---\n"

  /** The prompt sent to the model. */
  function Prompt(query: string, chunks: seq<string>): (r: string)
  {
    PromptHead + query + PromptMiddle + Join(chunks, ChunkSeparator) + PromptTail
  }

  /** Text found in the second or fourth of five concatenated pieces is
      found in the whole. */
  lemma PiecesContain(a: string, b: string, c: string, d: string, e: string, x: string)
    ensures Contains(b, x) ==> Contains(a + b + c + d + e, x)
    ensures Contains(d, x) ==> Contains(a + b + c + d + e, x)
  {
    if Contains(b, x) {
      assert a + b + c + d + e == a + b + (c + d + e);
      ContainsInfix(a, b, c + d + e, x);
    }
    if Contains(d, x) {
      assert a + b + c + d + e == (a + b + c) + d + e;
      ContainsInfix(a + b + c, d, e, x);
    }
  }

  /** The prompt holds the query and every chunk. */
  lemma PromptHoldsQueryAndChunks(query: string, chunks: seq<string>)
    ensures Contains(Prompt(query, chunks), query)
    ensures forall k :: 0 <= k < |chunks| ==> Contains(Prompt(query, chunks), chunks[k])
  {
    var joined := Join(chunks, ChunkSeparator);
    ContainsWhenOccurs(query, query, 0);
    PiecesContain(PromptHead, query, PromptMiddle, joined, PromptTail, query);
    forall k | 0 <= k < |chunks|
      ensures Contains(Prompt(query, chunks), chunks[k])
    {
      JoinContainsParts(chunks, ChunkSeparator, k);
      PiecesContain(PromptHead, query, PromptMiddle, joined, PromptTail, chunks[k]);
    }
  }

  /** `Generate`: retrieve, assemble (what `AssembleResults` returns: an
      error for no documents, otherwise `Assembled`), prompt the model, and
      return the text of the first candidate. */
  function Generate(g: Generator, query: string): (r: Result<string, GenerateError>)
    ensures g.retrieve(query).Failure? ==> r == Failure(RetrieveFailed(g.retrieve(query).error))
    ensures g.retrieve(query) == Success([]) ==> r == Failure(AssembleFailed(NoResultsMessage))
    ensures r.Success? <==>
      && g.retrieve(query).Success? && g.retrieve(query).value != []
      && var answer := g.generateContent(g.model, Prompt(query, Assembled(g.retrieve(query).value)));
         && answer.Success? && answer.value.candidates != [] && answer.value.candidates[0].content.Some?
    ensures r.Success? ==>
      r.value == g.generateContent(g.model, Prompt(query, Assembled(g.retrieve(query).value))).value.candidates[0].content.value
  {
    var docs := g.retrieve(query);
    if docs.Failure? then Failure(RetrieveFailed(docs.error))
    else if docs.value == [] then Failure(AssembleFailed(NoResultsMessage))
    else
      var answer := g.generateContent(g.model, Prompt(query, Assembled(docs.value)));
      if answer.Failure? then Failure(ModelFailed(answer.error))
      else if |answer.value.candidates| == 0 || answer.value.candidates[0].content.None? then Failure(EmptyResponse)
      else Success(answer.value.candidates[0].content.value)
  }

  /** A retrieval error or no retrieved documents ends `Generate` before the
      model is called: any other model gives the same outcome. */
  lemma StopsBeforeModel(g: Generator, query: string, other: (string, string) -> Result<ModelResponse, string>)
    requires g.retrieve(query).Failure? || g.retrieve(query).value == []
    ensures Generate(g, query) == Generate(g.(generateContent := other), query)
    ensures Generate(g, query).Failure?
  {
  }

  /** A model answer without candidates, or whose first candidate has no
      content, is an error; so is a model error. */
  lemma EmptyAnswerIsError(g: Generator, query: string)
    requires g.retrieve(query).Success? && g.retrieve(query).value != []
    ensures var answer := g.generateContent(g.model, Prompt(query, Assembled(g.retrieve(query).value)));
      && (answer.Failure? ==> Generate(g, query) == Failure(ModelFailed(answer.error)))
      && (answer.Success? && (answer.value.candidates == [] || answer.value.candidates[0].content.None?) ==>
            Generate(g, query) == Failure(EmptyResponse))
  {
  }
}
