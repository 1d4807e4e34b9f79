/** What the four provider back-ends share: the canned reply, the choice
    fallback, the errors they report, and the HTTP status mapping of the two
    REST back-ends (mistral_provider.go and openrouter_provider.go). */
module ProviderTypes {
  import opened Wrappers

  /** Reply used when the back-end produced no usable text. */
  const Fallback: string := "Sorry, I cannot respond to this."

  /** The reply for a completion's choices: the first choice's content, or
      the fallback when there is no choice or its content is empty. */
  function FirstChoice(choices: seq<string>): (reply: string)
    ensures reply != ""
    ensures choices != [] && choices[0] != "" ==> reply == choices[0]
    ensures choices == [] || choices[0] == "" ==> reply == Fallback
  {
    if |choices| == 0 then Fallback
    else if choices[0] == "" then Fallback
    else choices[0]
  }

  /** The errors a provider reports; the wording of each message is not
      modelled, only which one is returned and what it names. */
  datatype ProviderError =
    | RateLimited
    | Unavailable
    | Unauthorized
    | Forbidden
    | BadRequest(model: string)
    | UnexpectedStatus(status: int, body: string)
    | Unreachable(detail: string)
    | ReadFailed(detail: string)
    | DecodeFailed(detail: string)
    | ConnectionTimeout
    | CallFailed(detail: string)
    | AuthenticationFailed(code: int)
    | RetriesExhausted(retries: nat, detail: string)

  /** One chat message of a request body. */
  datatype ChatMessage = ChatMessage(role: string, content: string)

  /** What the HTTP exchange of a REST back-end produced: no response, a
      body that could not be read, or a status with its body; `decoded` is
      the JSON decoding of the body (the choices' contents, or the decoder's
      error). */
  datatype HttpOutcome =
    | NoResponse(detail: string)
    | BodyUnreadable(detail: string)
    | Replied(status: int, body: string, decoded: Result<seq<string>, string>)

  const StatusOK: int := 200

  /** The `switch` on a non-200 status; `model` is the configured model. */
  function StatusError(status: int, model: string, body: string): (e: ProviderError)
    requires status != StatusOK
    ensures status == 429 <==> e == RateLimited
    ensures status == 503 <==> e == Unavailable
    ensures status == 401 <==> e == Unauthorized
    ensures status == 403 <==> e == Forbidden
    ensures status == 400 <==> e == BadRequest(model)
    ensures status !in {429, 503, 401, 403, 400} <==> e == UnexpectedStatus(status, body)
  {
    match status
    case 429 => RateLimited
    case 503 => Unavailable
    case 401 => Unauthorized
    case 403 => Forbidden
    case 400 => BadRequest(model)
    case _ => UnexpectedStatus(status, body)
  }

  /** Different statuses are reported as different errors. */
  lemma StatusErrorInjective(s1: int, s2: int, model: string, b1: string, b2: string)
    requires s1 != StatusOK && s2 != StatusOK
    requires StatusError(s1, model, b1) == StatusError(s2, model, b2)
    ensures s1 == s2
  {
  }

  /** `GetResponse` of a REST back-end after the request was sent: transport
      errors, then the status, then decoding, then the choice fallback. */
  function Interpret(model: string, outcome: HttpOutcome): (r: Result<string, ProviderError>)
    ensures outcome.NoResponse? ==> r == Failure(Unreachable(outcome.detail))
    ensures outcome.BodyUnreadable? ==> r == Failure(ReadFailed(outcome.detail))
    ensures outcome.Replied? && outcome.status != StatusOK ==>
      r == Failure(StatusError(outcome.status, model, outcome.body))
    ensures r.Success? <==> outcome.Replied? && outcome.status == StatusOK && outcome.decoded.Success?
    ensures r.Success? ==> r.value == FirstChoice(outcome.decoded.value) && r.value != ""
  {
    match outcome
    case NoResponse(detail) => Failure(Unreachable(detail))
    case BodyUnreadable(detail) => Failure(ReadFailed(detail))
    case Replied(status, body, decoded) =>
      if status != StatusOK then Failure(StatusError(status, model, body))
      else if decoded.Failure? then Failure(DecodeFailed(decoded.error))
      else Success(FirstChoice(decoded.value))
  }

  /** A non-200 reply is an error whatever its body decodes to: decoding and
      the fallback are never reached. */
  lemma ErrorStatusIgnoresDecoding(model: string, status: int, body: string,
                                   d1: Result<seq<string>, string>, d2: Result<seq<string>, string>)
    requires status != StatusOK
    ensures Interpret(model, Replied(status, body, d1)) == Interpret(model, Replied(status, body, d2))
    ensures Interpret(model, Replied(status, body, d1)).Failure?
  {
  }
}
