/** mistral_provider.go: the Mistral back-end, a JSON POST to the
    chat-completions endpoint. */
module Mistral {
  import opened Wrappers
  import opened ProviderTypes

  const Name: string := "Mistral"
  const Models: seq<string> := ["mistral-large-latest", "mistral-medium-latest", "devstral-small-latest"]
  const DefaultModel: string := "mistral-large-latest"

  /** The request body: model, messages and the safe-mode switch. */
  datatype Request = Request(model: string, messages: seq<ChatMessage>, safeMode: bool)

  class MistralProvider {
    const apiKey: string
    var model: string

    constructor (apiKey: string, model: string)
      ensures this.apiKey == apiKey
      ensures this.model == (if model == "" then DefaultModel else model)
    {
      this.apiKey := apiKey;
      this.model := if model == "" then DefaultModel else model;
    }

    method SetModel(model: string)
      modifies this
      ensures this.model == model
    {
      this.model := model;
    }

    /** Posts the prompt as the single user message, with safe mode off, for
        the stored model, and interprets what came back. */
    method GetResponse(prompt: string, outcome: HttpOutcome)
      returns (request: Request, r: Result<string, ProviderError>)
      ensures request.model == model && request.messages == [ChatMessage("user", prompt)] && !request.safeMode
      ensures r == Interpret(model, outcome)
      ensures outcome.Replied? && outcome.status == 400 ==> r == Failure(BadRequest(model))
    {
      request := Request(model, [ChatMessage("user", prompt)], false);
      r := Interpret(model, outcome);
    }
  }
}
