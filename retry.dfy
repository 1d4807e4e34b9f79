/** The generator call with exponential back-off shared by ml_service.go and
    gemini_provider.go: up to five calls, a retry (after sleeping 2^i
    seconds) only on an API error with code 429. The generator is a script:
    `script[i]` is what the i-th call returns. */
module Retry {
  /** What one `GenerateContent` call returns: text, a googleapi error (with
      its HTTP code) or any other error. */
  datatype Outcome =
    | Generated(text: string)
    | ApiError(code: int, detail: string)
    | OtherError(detail: string)

  predicate IsRateLimited(o: Outcome) {
    o.ApiError? && o.code == 429
  }

  const MaxRetries: nat := 5

  function Pow2(i: nat): (p: nat)
    ensures p >= 1
  {
    if i == 0 then 1 else 2 * Pow2(i - 1)
  }

  /** The sleeps, in seconds, taken after the first `n` calls all hit the
      rate limit. */
  function Backoff(n: nat): (delays: seq<nat>)
    ensures |delays| == n
    ensures forall i :: 0 <= i < n ==> delays[i] == Pow2(i)
  {
    if n == 0 then [] else Backoff(n - 1) + [Pow2(n - 1)]
  }

  /** The index, from `from` on, of the first call that does not hit the rate
      limit; `MaxRetries` when every call up to the limit does. */
  function Stop(script: seq<Outcome>, from: nat): (k: nat)
    requires from <= MaxRetries <= |script|
    ensures from <= k <= MaxRetries
    ensures forall i :: from <= i < k ==> IsRateLimited(script[i])
    ensures k < MaxRetries ==> !IsRateLimited(script[k])
    decreases MaxRetries - from
  {
    if from == MaxRetries || !IsRateLimited(script[from]) then from else Stop(script, from + 1)
  }

  /** How many calls the loop makes. */
  function Calls(script: seq<Outcome>): (n: nat)
    requires MaxRetries <= |script|
    ensures 1 <= n <= MaxRetries
    ensures forall i :: 0 <= i < n - 1 ==> IsRateLimited(script[i])
    ensures n < MaxRetries ==> !IsRateLimited(script[n - 1])
  {
    var k := Stop(script, 0);
    if k < MaxRetries then k + 1 else MaxRetries
  }

  /** The retry loop: the number of calls made, the sleeps taken and the
      outcome of the last call. */
  method GenerateWithRetry(script: seq<Outcome>) returns (calls: nat, delays: seq<nat>, last: Outcome)
    requires MaxRetries <= |script|
    ensures calls == Calls(script) && last == script[calls - 1]
    ensures delays == Backoff(Stop(script, 0))
    ensures Stop(script, 0) == MaxRetries <==> IsRateLimited(last)
  {
    calls, delays, last := 0, [], script[0];
    var i := 0;
    while i < MaxRetries
      invariant 0 <= i <= MaxRetries
      invariant calls == i && delays == Backoff(i)
      invariant forall j :: 0 <= j < i ==> IsRateLimited(script[j])
      invariant i > 0 ==> last == script[i - 1]
    {
      last := script[i];
      calls := calls + 1;
      if !IsRateLimited(last) {
        return;
      }
      delays := delays + [Pow2(i)];
      i := i + 1;
    }
  }

  /** Two rate-limited calls and then text: three calls, sleeps of one and two
      seconds. */
  lemma RateLimitedTwiceThenText(script: seq<Outcome>, text: string)
    requires |script| >= MaxRetries
    requires IsRateLimited(script[0]) && IsRateLimited(script[1]) && script[2] == Generated(text)
    ensures Calls(script) == 3 && Backoff(Stop(script, 0)) == [1, 2]
  {
    assert Stop(script, 2) == 2;
    assert Stop(script, 0) == 2;
    assert Backoff(2) == Backoff(1) + [Pow2(1)];
  }

  /** Five rate-limited calls use up the attempts, having slept 1+2+4+8+16
      seconds. */
  lemma RateLimitedThroughout(script: seq<Outcome>)
    requires |script| >= MaxRetries
    requires forall i :: 0 <= i < MaxRetries ==> IsRateLimited(script[i])
    ensures Stop(script, 0) == MaxRetries && Calls(script) == MaxRetries
    ensures Backoff(Stop(script, 0)) == [1, 2, 4, 8, 16]
  {
    assert Backoff(5) == Backoff(4) + [Pow2(4)];
    assert Backoff(4) == Backoff(3) + [Pow2(3)];
    assert Backoff(3) == Backoff(2) + [Pow2(2)];
    assert Backoff(2) == Backoff(1) + [Pow2(1)];
  }
}
