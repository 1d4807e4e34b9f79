/** openai_provider.go: the OpenAI back-end. Errors from the SDK are
    classified by their message text with a hand-written substring search. */
module OpenAI {
  import opened Wrappers
  import Strings
  import opened ProviderTypes

  const Name: string := "OpenAI"
  const Models: seq<string> := ["gpt-5.1", "gpt-5", "gpt-4.1", "o3"]
  const DefaultModel: string := "gpt-5.1"
  /** `shared.ChatModelGPT4o`, the model every request asks for. */
  const RequestModel: string := "gpt-4o"

  /** The package's `contains` helper: scans every start position
      `0 <= i <= |s| - |sub|` and compares the slice there. */
  method Contains(s: string, sub: string) returns (found: bool)
    ensures found <==> exists i :: Strings.Occurs(s, sub, i)
    ensures found <==> Strings.Contains(s, sub)
  {
    Strings.ContainsIff(s, sub);
    var i := 0;
    while i <= |s| - |sub|
      invariant 0 <= i
      invariant |sub| <= |s| ==> i <= |s| - |sub| + 1
      invariant forall j :: 0 <= j < i ==> !Strings.Occurs(s, sub, j)
      decreases |s| - |sub| + 1 - i
    {
      if s[i..i + |sub|] == sub {
        assert Strings.Occurs(s, sub, i);
        return true;
      }
      i := i + 1;
    }
    found := false;
  }

  /** An empty needle is found in every string; a needle longer than the
      haystack in none. */
  lemma ContainsEdgeCases(s: string, sub: string)
    ensures Strings.Contains(s, "")
    ensures |sub| > |s| ==> !Strings.Contains(s, sub)
  {
    Strings.ContainsIff(s, "");
    assert Strings.Occurs(s, "", 0);
    Strings.ContainsIff(s, sub);
  }

  /** One line of the classification: a message equal to `exact` or
      containing one of `needles` is reported as `error`. */
  datatype Rule = Rule(exact: Option<string>, needles: seq<string>, error: ProviderError)

  predicate Matches(rule: Rule, msg: string) {
    (rule.exact.Some? && msg == rule.exact.value)
    || exists k :: 0 <= k < |rule.needles| && Strings.Contains(msg, rule.needles[k])
  }

  /** The classification rules, in the order they are tried. */
  const Rules: seq<Rule> := [
    Rule(Some("429"), ["rate limit"], RateLimited),
    Rule(Some("503"), ["service unavailable"], Unavailable),
    Rule(Some("401"), ["unauthorized"], Unauthorized),
    Rule(Some("403"), ["forbidden"], Forbidden),
    Rule(None, ["timeout", "connection"], ConnectionTimeout)
  ]

  /** The error of the first rule from index `i` on that matches; a generic
      error wrapping the message when none matches. */
  function FirstMatch(rules: seq<Rule>, msg: string, i: nat): ProviderError
    decreases |rules| - i
  {
    if i >= |rules| then CallFailed(msg)
    else if Matches(rules[i], msg) then rules[i].error
    else FirstMatch(rules, msg, i + 1)
  }

  /** The if-chain of `GetResponse` on an SDK error message. */
  function Classify(msg: string): (e: ProviderError)
    ensures e == RateLimited <==> msg == "429" || Strings.Contains(msg, "rate limit")
    ensures e.CallFailed? ==> e.detail == msg
  {
    if msg == "429" || Strings.Contains(msg, "rate limit") then RateLimited
    else if msg == "503" || Strings.Contains(msg, "service unavailable") then Unavailable
    else if msg == "401" || Strings.Contains(msg, "unauthorized") then Unauthorized
    else if msg == "403" || Strings.Contains(msg, "forbidden") then Forbidden
    else if Strings.Contains(msg, "timeout") || Strings.Contains(msg, "connection") then ConnectionTimeout
    else CallFailed(msg)
  }

  /** The if-chain is the first-match reading of the rule table. */
  lemma {:induction false} ClassifyIsFirstMatch(msg: string)
    ensures Classify(msg) == FirstMatch(Rules, msg, 0)
  {
    var r := Rules;
    assert Matches(r[0], msg) <==> msg == "429" || Strings.Contains(msg, r[0].needles[0]);
    assert Matches(r[1], msg) <==> msg == "503" || Strings.Contains(msg, r[1].needles[0]);
    assert Matches(r[2], msg) <==> msg == "401" || Strings.Contains(msg, r[2].needles[0]);
    assert Matches(r[3], msg) <==> msg == "403" || Strings.Contains(msg, r[3].needles[0]);
    assert Matches(r[4], msg) <==> Strings.Contains(msg, r[4].needles[0]) || Strings.Contains(msg, r[4].needles[1]);
    assert FirstMatch(r, msg, 5) == CallFailed(msg);
  }

  /** An earlier rule wins: a message about both a rate limit and missing
      authorisation is reported as rate limited. */
  lemma EarlierRuleWins(msg: string)
    requires Strings.Contains(msg, "rate limit") && Strings.Contains(msg, "unauthorized")
    ensures Classify(msg) == RateLimited
  {
  }

  /** What the chat-completions call produced: an SDK error with its message,
      or a completion with its choices' contents. */
  datatype CallOutcome = SdkError(message: string) | Completed(choices: seq<string>)

  /** The request body: the model and the user's prompt. */
  datatype Request = Request(model: string, messages: seq<ChatMessage>)

  class OpenAIProvider {
    const apiKey: string
    var model: string

    constructor (apiKey: string, model: string)
      ensures this.apiKey == apiKey
      ensures this.model == (if model == "" then DefaultModel else model)
    {
      this.apiKey := apiKey;
      this.model := if model == "" then DefaultModel else model;
    }

    method SetModel(model: string)
      modifies this
      ensures this.model == model
    {
      this.model := model;
    }

    /** Sends the prompt as the single user message and turns the outcome
        into a reply or an error. The request names `RequestModel`, not the
        stored `model`. */
    method GetResponse(prompt: string, outcome: CallOutcome)
      returns (request: Request, r: Result<string, ProviderError>)
      ensures request == Request(RequestModel, [ChatMessage("user", prompt)])
      ensures outcome.SdkError? ==> r == Failure(Classify(outcome.message))
      ensures outcome.Completed? ==> r == Success(FirstChoice(outcome.choices))
    {
      request := Request(RequestModel, [ChatMessage("user", prompt)]);
      match outcome {
        case SdkError(message) =>
          r := Failure(Classify(message));
        case Completed(choices) =>
          if |choices| == 0 {
            r := Success(Fallback);
          } else if choices[0] == "" {
            r := Success(Fallback);
          } else {
            r := Success(choices[0]);
          }
      }
    }
  }
}
