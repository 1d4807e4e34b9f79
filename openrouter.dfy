/** openrouter_provider.go: the OpenRouter back-end, a JSON POST to the
    chat-completions endpoint. */
module OpenRouter {
  import opened Wrappers
  import opened ProviderTypes

  const Name: string := "OpenRouter"
  const Models: seq<string> := ["openai/gpt-5.1", "openai/gpt-4o", "openai/gpt-4.1", "google/gemini-3-pro",
                                 "mistral/mistral-large", "anthropic/claude-opus-4.5", "anthropic/claude-sonnet-4.5"]
  const DefaultModel: string := "openai/gpt-5.1"

  /** The request body: model and messages. */
  datatype Request = Request(model: string, messages: seq<ChatMessage>)

  class OpenRouterProvider {
    const apiKey: string
    var model: string

    constructor (apiKey: string, model: string)
      ensures this.apiKey == apiKey
      ensures this.model == (if model == "" then DefaultModel else model)
    {
      this.apiKey := apiKey;
      this.model := if model == "" then DefaultModel else model;
    }

    method SetModel(model: string)
      modifies this
      ensures this.model == model
    {
      this.model := model;
    }

    /** Posts the prompt as the single user message for the stored model and
        interprets what came back. */
    method GetResponse(prompt: string, outcome: HttpOutcome)
      returns (request: Request, r: Result<string, ProviderError>)
      ensures request.model == model && request.messages == [ChatMessage("user", prompt)]
      ensures r == Interpret(model, outcome)
      ensures outcome.Replied? && outcome.status == 400 ==> r == Failure(BadRequest(model))
    {
      request := Request(model, [ChatMessage("user", prompt)]);
      r := Interpret(model, outcome);
    }
  }
}
