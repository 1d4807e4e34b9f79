/** gemini_provider.go: the Gemini back-end, whose `GetResponse` retries on
    rate limiting and classifies the other googleapi errors. */
module Gemini {
  import opened Wrappers
  import opened Retry
  import opened ProviderTypes

  const Name: string := "Gemini"
  const Models: seq<string> := ["gemini-3-pro", "gemini-2.5-flash", "gemini-2.5-pro"]
  /** The model every request asks for. */
  const RequestModel: string := "gemini-3-pro"

  /** What each generator call is given: the model and the prompt. */
  datatype Request = Request(model: string, prompt: string)

  /** The error for a call that failed with something other than a rate
      limit. */
  function Classify(o: Outcome): (e: ProviderError)
    requires !o.Generated? && !IsRateLimited(o)
    ensures o.ApiError? && o.code == 503 <==> e == Unavailable
    ensures e.AuthenticationFailed? <==> o.ApiError? && (o.code == 401 || o.code == 403)
    ensures e.AuthenticationFailed? ==> e.code == o.code
    ensures e.CallFailed? <==> o.OtherError? || o.code !in {503, 401, 403}
    ensures e.CallFailed? ==> e.detail == o.detail
  {
    match o
    case ApiError(code, detail) =>
      if code == 503 then Unavailable
      else if code == 401 || code == 403 then AuthenticationFailed(code)
      else CallFailed(detail)
    case OtherError(detail) => CallFailed(detail)
  }

  /** What `GetResponse` returns for a generator script. */
  function Response(script: seq<Outcome>): (r: Result<string, ProviderError>)
    requires MaxRetries <= |script|
  {
    var k := Stop(script, 0);
    if k == MaxRetries then Failure(RetriesExhausted(MaxRetries, script[MaxRetries - 1].detail))
    else match script[k]
      case Generated(text) => Success(if text == "" then Fallback else text)
      case _ => Failure(Classify(script[k]))
  }

  /** A call that does not hit the rate limit decides the result at once:
      text (or the fallback for empty text) or its classified error. */
  lemma {:induction false} FirstSettledCallDecides(script: seq<Outcome>, k: nat)
    requires MaxRetries <= |script| && k < MaxRetries
    requires forall i :: 0 <= i < k ==> IsRateLimited(script[i])
    requires !IsRateLimited(script[k])
    ensures Calls(script) == k + 1
    ensures script[k].Generated? ==> Response(script) == Success(FirstChoice([script[k].text]))
    ensures !script[k].Generated? ==> Response(script) == Failure(Classify(script[k]))
  {
    assert Stop(script, 0) == k;
  }

  /** A first call that fails with 503, 401 or 403 is not retried. */
  lemma {:induction false} NoRetryOnServerOrAuthErrors(script: seq<Outcome>)
    requires MaxRetries <= |script|
    requires script[0].ApiError? && script[0].code in {503, 401, 403}
    ensures Calls(script) == 1 && Backoff(Stop(script, 0)) == []
    ensures Response(script).Failure?
    ensures Response(script).error == Unavailable || Response(script).error == AuthenticationFailed(script[0].code)
  {
    FirstSettledCallDecides(script, 0);
  }

  /** Five rate-limited calls end in the "after 5 retries" error. */
  lemma {:induction false} ExhaustedAfterFiveRateLimits(script: seq<Outcome>)
    requires MaxRetries <= |script|
    requires forall i :: 0 <= i < MaxRetries ==> IsRateLimited(script[i])
    ensures IsRateLimited(script[4]) && Response(script) == Failure(RetriesExhausted(5, script[4].detail))
  {
    RateLimitedThroughout(script);
  }

  class GeminiProvider {
    const apiKey: string

    constructor (apiKey: string)
      ensures this.apiKey == apiKey
    {
      this.apiKey := apiKey;
    }

    /** Calls the generator with `RequestModel` until it stops being rate
        limited (at most five times), sleeping 2^i seconds after the i-th
        rate-limited call. */
    method GetResponse(prompt: string, script: seq<Outcome>)
      returns (request: Request, r: Result<string, ProviderError>, calls: nat, delays: seq<nat>)
      requires MaxRetries <= |script|
      ensures request == Request(RequestModel, prompt)
      ensures r == Response(script)
      ensures calls == Calls(script) && delays == Backoff(Stop(script, 0))
    {
      request := Request(RequestModel, prompt);
      var last;
      calls, delays, last := GenerateWithRetry(script);
      if IsRateLimited(last) {
        return request, Failure(RetriesExhausted(MaxRetries, last.detail)), calls, delays;
      }
      match last {
        case Generated(text) =>
          if text == "" {
            r := Success(Fallback);
          } else {
            r := Success(text);
          }
        case ApiError(code, detail) =>
          if code == 503 {
            r := Failure(Unavailable);
          } else if code == 401 || code == 403 {
            r := Failure(AuthenticationFailed(code));
          } else {
            r := Failure(CallFailed(detail));
          }
        case OtherError(detail) =>
          r := Failure(CallFailed(detail));
      }
    }
  }

  /** `NewGeminiProvider`: fails only when the client cannot be created. */
  method NewGeminiProvider(apiKey: string, clientErr: Option<string>) returns (r: Result<GeminiProvider, string>)
    ensures clientErr.Some? ==> r == Failure(clientErr.value)
    ensures clientErr.None? ==> r.Success? && fresh(r.value) && r.value.apiKey == apiKey
  {
    if clientErr.Some? {
      return Failure(clientErr.value);
    }
    var g := new GeminiProvider(apiKey);
    r := Success(g);
  }
}
