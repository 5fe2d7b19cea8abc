/**
 * `makeRequestWithRetry` of the database-backed services: a request that
 * fails with HTTP 429 "Too Many Requests" (section 4 of RFC 6585) is
 * repeated after an exponentially growing delay, at most three times;
 * any other failure is rethrown at once.
 */
module RateLimit {
  import opened Upstream

  const MaxRetries: nat := 3
  const BaseDelay: nat := 1000
  const TooManyRequests: int := 429

  function Pow2(k: nat): (r: nat)
    ensures r >= 1
  {
    if k == 0 then 1 else 2 * Pow2(k - 1)
  }

  /** The final response and the delays (milliseconds) slept before each repetition. */
  datatype Retried = Retried(response: Response, delays: seq<nat>)

  /** `error.status === 429 && retryCount < maxRetries`. */
  predicate Retryable(r: Response, retryCount: nat)
  {
    r.Failed? && r.status == TooManyRequests && retryCount < MaxRetries
  }

  /**
   * `makeRequestWithRetry(requestFn, retryCount)`, where `call(k)` is what
   * the request yields on attempt `k`.
   */
  function MakeRequestWithRetry(call: nat -> Response, retryCount: nat): (r: Retried)
    decreases MaxRetries - retryCount
    ensures r.delays == [] || retryCount + |r.delays| <= MaxRetries
    ensures r.response == call(retryCount + |r.delays|)
    ensures !Retryable(r.response, retryCount + |r.delays|)
    ensures forall k :: 0 <= k < |r.delays| ==>
              Retryable(call(retryCount + k), retryCount + k) && r.delays[k] == BaseDelay * Pow2(retryCount + k)
  {
    var response := call(retryCount);
    if Retryable(response, retryCount) then
      var rest := MakeRequestWithRetry(call, retryCount + 1);
      Retried(rest.response, [BaseDelay * Pow2(retryCount)] + rest.delays)
    else
      Retried(response, [])
  }

  function Sum(s: seq<nat>): nat
  {
    if s == [] then 0 else s[0] + Sum(s[1..])
  }

  /** The delays double from `1000 * 2^retryCount`, so together they last `1000 * (2^(retryCount+n) - 2^retryCount)`. */
  lemma {:induction false} TotalDelay(call: nat -> Response, retryCount: nat)
    decreases MaxRetries - retryCount
    ensures var r := MakeRequestWithRetry(call, retryCount);
            Sum(r.delays) == BaseDelay * (Pow2(retryCount + |r.delays|) - Pow2(retryCount))
  {
    var r := MakeRequestWithRetry(call, retryCount);
    if Retryable(call(retryCount), retryCount) {
      TotalDelay(call, retryCount + 1);
      var rest := MakeRequestWithRetry(call, retryCount + 1);
      assert r.delays == [BaseDelay * Pow2(retryCount)] + rest.delays;
      assert r.delays[1..] == rest.delays;
    }
  }

  /** A first call: at most four attempts in all, at most 7 seconds of waiting, and a non-429 failure is never repeated. */
  lemma FirstCallBounds(call: nat -> Response)
    ensures |MakeRequestWithRetry(call, 0).delays| <= MaxRetries
    ensures Sum(MakeRequestWithRetry(call, 0).delays) <= 7000
    ensures call(0).Ok? || call(0).status != TooManyRequests ==> MakeRequestWithRetry(call, 0) == Retried(call(0), [])
  {
    TotalDelay(call, 0);
    var n := |MakeRequestWithRetry(call, 0).delays|;
    assert Pow2(n) <= 8 by {
      assert Pow2(3) == 8;
      assert n == 0 || n == 1 || n == 2 || n == 3;
    }
  }

  /** An endpoint answering 429 on every attempt: the request is made four times and the 429 is rethrown. */
  lemma AlwaysRateLimited(call: nat -> Response)
    requires forall k :: call(k) == Failed(TooManyRequests)
    ensures MakeRequestWithRetry(call, 0) == Retried(Failed(TooManyRequests), [1000, 2000, 4000])
  {
    var r := MakeRequestWithRetry(call, 0);
    assert |r.delays| == 3;
    assert Pow2(1) == 2 && Pow2(2) == 4;
  }
}
