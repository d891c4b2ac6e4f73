/** The remote services the application calls, reduced to what it sends and what comes back.
    Their internals (speech recognition, embedding, generation) are not modelled: each is an
    arbitrary function of the request that may fail. */
module Services {
  import opened Wrappers
  import opened Store

  /** Voyage's `input_type`: documents to store, or a query to search with. */
  datatype InputType = DocumentInput | QueryInput

  /** The arguments of one `vo.embed` call. */
  datatype EmbedRequest = EmbedRequest(texts: seq<string>, model: string, inputType: InputType)

  /** The `embeddings` of `vo.embed(...)`, or the exception it raised. */
  type Embedder = EmbedRequest -> Result<seq<Embedding>>

  const EmbeddingModel: string := "voyage-2"
  const GenerationModel: string := "gemini-2.0-flash-exp"

  /** A generation client that remembers every prompt it was sent. What it answers is decided by
      `reply`, which stands for the model and for reading `candidates[0].content.parts[0].text`. */
  class Llm {
    const reply: (string, string) -> Result<string>
    var prompts: seq<string>

    constructor (reply: (string, string) -> Result<string>)
      ensures this.reply == reply && prompts == []
    {
      this.reply := reply;
      prompts := [];
    }

    /** `generate_content(model, contents)`. */
    method GenerateContent(model: string, contents: string) returns (r: Result<string>)
      modifies this`prompts
      ensures prompts == old(prompts) + [contents]
      ensures r == reply(model, contents)
    {
      prompts := prompts + [contents];
      r := reply(model, contents);
    }
  }
}
