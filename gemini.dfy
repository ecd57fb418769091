/** The Gemini embedder of `internal/embadding/gemini`: construction from the
    configured model name, the request `EmbedStrings` sends, and `doEmbed`,
    which turns the API's float32 embeddings into float64 vectors. The
    client and the API call are oracles; `F32` and `F64` stand for the two
    float types and `widen` for Go's `float64(v)`. */
module Gemini {
  import opened Common
  import opened Vectors

  datatype EmbedderError =
    | NotConfigured                  // "gemini embedder not configured"
    | ClientFailed(cause: string)    // "failed to create client: ..."
    | EmbeddingFailed(cause: string) // "embedding error: ..."

  /** `GeminiEmbedder`; the client it holds is outside the model, only the
      key it was created with is kept. */
  datatype GeminiEmbedder = GeminiEmbedder(apiKey: string, embedder: string)

  /** `genai.NewContentFromText(text, genai.RoleUser)`. */
  datatype Content = Content(text: string, role: string)

  const RoleUser: string := "user"

  /** The API's answer: a nil response is None, and so is a nil embedding
      in its list; an embedding is its list of float32 values. */
  type EmbedResponse<F32> = Option<seq<Option<seq<F32>>>>

  /** `NewEmbedder`, given the configured API key and model name and what
      `genai.NewClient` reports (None: the client was created). The name is
      checked before any client is created. */
  function NewEmbedder(apiKey: string, name: string, clientError: Option<string>): (r: Result<GeminiEmbedder, EmbedderError>)
    ensures r.Success? <==> name != "" && clientError.None?
    ensures name == "" ==> r == Failure(NotConfigured)
    ensures name != "" && clientError.Some? ==> r == Failure(ClientFailed(clientError.value))
    ensures r.Success? ==> r.value.embedder == name && r.value.apiKey == apiKey
  {
    if name == "" then Failure(NotConfigured)
    else if clientError.Some? then Failure(ClientFailed(clientError.value))
    else Success(GeminiEmbedder(apiKey, name))
  }

  /** The request body for a list of texts. */
  function Contents(texts: seq<string>): (r: seq<Content>)
  {
    seq(|texts|, i requires 0 <= i < |texts| => Content(texts[i], RoleUser))
  }

  /** The loop of `EmbedStrings` that builds the request: one user content
      per text, in order. */
  method BuildContents(texts: seq<string>) returns (contents: seq<Content>)
    ensures |contents| == |texts|
    ensures forall i :: 0 <= i < |texts| ==> contents[i] == Content(texts[i], RoleUser)
    ensures contents == Contents(texts)
  {
    contents := [];
    for i := 0 to |texts|
      invariant contents == Contents(texts[..i])
    {
      contents := contents + [Content(texts[i], RoleUser)];
    }
    assert texts[..|texts|] == texts;
  }

  /** What `doEmbed` makes of a response. */
  function Embeddings<F32, F64>(response: EmbedResponse<F32>, widen: F32 -> F64): (r: seq<seq<F64>>)
  {
    if response.None? then []
    else
      var es := response.value;
      seq(|es|, i requires 0 <= i < |es| => if es[i].None? then [] else Converted(es[i].value, widen))
  }

  /** `doEmbed`: one vector per embedding of the response, in order; a nil
      or empty embedding gives an empty vector at its position; otherwise
      element j of the vector is element j of the values, widened. A nil
      response, or one without embeddings, gives an empty list. */
  method DoEmbed<F32, F64(0)>(response: EmbedResponse<F32>, widen: F32 -> F64) returns (embeddings: seq<seq<F64>>)
    ensures response.None? || response.value == [] ==> embeddings == []
    ensures response.Some? ==> |embeddings| == |response.value|
    ensures forall i :: 0 <= i < |embeddings| ==>
              var e := response.value[i];
              && (e.None? || e.value == [] ==> embeddings[i] == [])
              && (e.Some? ==> |embeddings[i]| == |e.value| && forall j :: 0 <= j < |e.value| ==> embeddings[i][j] == widen(e.value[j]))
    ensures embeddings == Embeddings(response, widen)
  {
    if response.None? || |response.value| == 0 {
      return [];
    }
    var es := response.value;
    var out := new seq<F64>[|es|];
    for i := 0 to |es|
      invariant forall k :: 0 <= k < i ==> out[k] == (if es[k].None? then [] else Converted(es[k].value, widen))
    {
      if es[i].None? || |es[i].value| == 0 {
        out[i] := [];
      } else {
        out[i] := Convert(es[i].value, widen);
      }
    }
    embeddings := out[..];
  }

  /** `EmbedStrings`: send one user content per text to the configured
      model; an API error is wrapped and nothing is converted, otherwise the
      result is `doEmbed` of the response. */
  method EmbedStrings<F32, F64(0)>(e: GeminiEmbedder, texts: seq<string>,
                                   api: (string, seq<Content>) -> Result<EmbedResponse<F32>, string>,
                                   widen: F32 -> F64)
    returns (r: Result<seq<seq<F64>>, EmbedderError>)
    ensures var answer := api(e.embedder, Contents(texts));
      && (answer.Failure? ==> r == Failure(EmbeddingFailed(answer.error)))
      && (answer.Success? ==> r == Success(Embeddings(answer.value, widen)))
  {
    var contents := BuildContents(texts);
    var answer := api(e.embedder, contents);
    if answer.Failure? {
      return Failure(EmbeddingFailed(answer.error));
    }
    var embeddings := DoEmbed(answer.value, widen);
    r := Success(embeddings);
  }
}
