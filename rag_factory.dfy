/**
 * The schema types the retrieval-augmented generation services share
 * (`schemas/rag.py`) and the factory that picks a service by model name
 * (`services/rag/factory.py`).
 */
module RagFactory {
  import opened Wrappers
  import opened Text

  /** `RAGCitation`: where a part of an answer came from. */
  datatype Citation = Citation(title: Option<string>, content: Option<string>)

  /** `RAGResponse`: the answer text and its citations. */
  datatype RagResponse = RagResponse(answer: string, citations: seq<Citation>)

  /** `DocumentInfo`: one stored document as the admin pages list it. */
  datatype DocumentInfo = DocumentInfo(
    fileId: string,
    displayName: string,
    createdAt: Option<string>,
    status: Option<string>,
    sizeBytes: Option<int>)

  /** The two service implementations. */
  datatype RagProvider = GeminiRag | OpenAIRag

  /** The rule that sends a name to OpenAI, when the Gemini rule has not matched first. */
  predicate NamesOpenAI(provider: string) {
    StartsWith(provider, "gpt") || provider == "openai"
  }

  /**
   * Lines 15-23: a name starting with "gemini" goes to Gemini; otherwise one
   * starting with "gpt", or exactly "openai", goes to OpenAI; anything else
   * falls back to Gemini.
   */
  function RagServiceFor(provider: string): (r: RagProvider)
    ensures StartsWith(provider, "gemini") ==> r == GeminiRag
    ensures r == OpenAIRag <==> !StartsWith(provider, "gemini") && NamesOpenAI(provider)
  {
    if StartsWith(provider, "gemini") then GeminiRag
    else if NamesOpenAI(provider) then OpenAIRag
    else GeminiRag
  }

  /**
   * The order of the two tests never matters: no name satisfies both, so
   * every OpenAI-style name does reach OpenAI.
   */
  lemma RulesAreDisjoint(provider: string)
    ensures StartsWith(provider, "gemini") ==> !NamesOpenAI(provider)
    ensures NamesOpenAI(provider) ==> RagServiceFor(provider) == OpenAIRag
  {
    if StartsWith(provider, "gemini") {
      assert provider[1] == "gemini"[1];
      assert provider[0] != "openai"[0];
    }
  }
}
