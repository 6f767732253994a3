/**
 * The generation gateway: the primary model is tried up to `retryCount + 1`
 * times, backing off linearly after rate-limit failures, and then the
 * fallback model is tried once. The two models are not called here: what
 * each call would produce is given as an `Outcome`, and the requested sleeps
 * are returned instead of being slept.
 */
module Gateway {
  import Text

  /** The default `retry_count`. */
  const RETRY_COUNT: int := 2
  /** The default `retry_delay` of 3.0 seconds, in tenths of a second. */
  const RETRY_DELAY: nat := 30

  const FALLBACK_FAILURE: string := "Both primary and fallback LLMs failed"

  /** What one call to a model does: answer with text, or raise with a message. */
  datatype Outcome = Success(text: string) | Failure(message: string)

  /** What `invoke_llm` does: return the response text, or raise `RuntimeError(FALLBACK_FAILURE)`. */
  datatype Generation = Generated(text: string) | GenerationFailed

  /** The exception type the callers see when generation fails. */
  const GENERATION_EXCEPTION: string := "RuntimeError"

  /** An error counts as a rate limit when its lower-cased text names one of four keywords. */
  predicate IsRateLimit(message: string) {
    var m := Text.Lower(message);
    Text.Contains(m, "rate limit") || Text.Contains(m, "429")
    || Text.Contains(m, "quota") || Text.Contains(m, "resource exhausted")
  }

  /** A primary failure after which the loop may wait and retry. */
  predicate Retryable(o: Outcome) {
    o.Failure? && IsRateLimit(o.message)
  }

  /**
   * `invoke_llm`: `primary[i]` is what the primary model does on attempt `i`
   * and `fallback` what the fallback model does. Returns the result, the
   * number of primary calls, whether the fallback was called and the waits
   * requested between attempts.
   */
  method InvokeLlm(primary: seq<Outcome>, fallback: Outcome, retryCount: int, retryDelay: nat)
    returns (r: Generation, calls: nat, fallbackCalled: bool, sleeps: seq<nat>)
    requires retryCount + 1 <= |primary|
    ensures retryCount < 0 ==> calls == 0
    ensures 0 <= retryCount ==> 1 <= calls <= retryCount + 1
    // every attempt but the last failed on a rate limit and was followed by a wait
    ensures forall i :: 0 <= i < calls - 1 ==> Retryable(primary[i])
    // the last attempt succeeded, failed otherwise, or used up the retries
    ensures calls > 0 ==> !Retryable(primary[calls - 1]) || calls == retryCount + 1
    ensures |sleeps| == if calls == 0 then 0 else calls - 1
    ensures forall i :: 0 <= i < |sleeps| ==> sleeps[i] == retryDelay * (i + 1)
    ensures fallbackCalled <==> calls == 0 || primary[calls - 1].Failure?
    ensures !fallbackCalled ==> r == Generated(primary[calls - 1].text)
    ensures fallbackCalled ==> r == (if fallback.Success? then Generated(fallback.text) else GenerationFailed)
  {
    calls := 0;
    sleeps := [];
    var attempt := 0;
    while attempt < retryCount + 1
      invariant 0 <= attempt && (retryCount < 0 ==> attempt == 0)
      invariant 0 <= retryCount ==> attempt <= retryCount
      invariant calls == attempt && |sleeps| == attempt
      invariant forall i :: 0 <= i < attempt ==> Retryable(primary[i])
      invariant forall i :: 0 <= i < |sleeps| ==> sleeps[i] == retryDelay * (i + 1)
      decreases retryCount + 1 - attempt
    {
      calls := attempt + 1;
      match primary[attempt]
      case Success(text) =>
        return Generated(text), calls, false, sleeps;
      case Failure(message) =>
        if IsRateLimit(message) && attempt < retryCount {
          sleeps := sleeps + [retryDelay * (attempt + 1)];
          attempt := attempt + 1;
        } else {
          break;
        }
    }
    fallbackCalled := true;
    match fallback
    case Success(text) => r := Generated(text);
    case Failure(_) => r := GenerationFailed;
  }

  /** `n * (n + 1) / 2`, built up one term at a time. */
  function Triangle(n: nat): nat {
    if n == 0 then 0 else n + Triangle(n - 1)
  }

  lemma {:induction false} TriangleClosedForm(n: nat)
    ensures 2 * Triangle(n) == n * (n + 1)
  {
    if n > 0 {
      TriangleClosedForm(n - 1);
    }
  }

  lemma Distribute(a: nat, x: nat, y: nat)
    ensures a * x + a * y == a * (x + y)
  {
  }

  function Sum(xs: seq<nat>): nat {
    if xs == [] then 0 else Sum(xs[..|xs| - 1]) + xs[|xs| - 1]
  }

  /** The waits of a run add up to `retryDelay * Triangle(number of waits)`. */
  lemma {:induction false} SleepSum(sleeps: seq<nat>, retryDelay: nat)
    requires forall i :: 0 <= i < |sleeps| ==> sleeps[i] == retryDelay * (i + 1)
    ensures Sum(sleeps) == retryDelay * Triangle(|sleeps|)
  {
    if sleeps != [] {
      var n := |sleeps|;
      SleepSum(sleeps[..n - 1], retryDelay);
      Distribute(retryDelay, Triangle(n - 1), n);
    }
  }

  lemma {:induction false} TriangleMonotone(m: nat, n: nat)
    requires m <= n
    ensures Triangle(m) <= Triangle(n)
    decreases n - m
  {
    if m < n {
      TriangleMonotone(m, n - 1);
    }
  }

  lemma ScaleMonotone(a: nat, x: nat, y: nat)
    requires x <= y
    ensures 2 * (a * x) <= a * (2 * y)
  {
    assert a * x <= a * y;
  }

  /** The total wait of one `invoke_llm` call is at most `retryDelay * retryCount * (retryCount + 1) / 2`. */
  lemma TotalSleepBound(retryCount: nat, retryDelay: nat, calls: nat, sleeps: seq<nat>)
    requires 1 <= calls <= retryCount + 1
    requires |sleeps| == calls - 1
    requires forall i :: 0 <= i < |sleeps| ==> sleeps[i] == retryDelay * (i + 1)
    ensures 2 * Sum(sleeps) <= retryDelay * (retryCount * (retryCount + 1))
  {
    SleepSum(sleeps, retryDelay);
    TriangleMonotone(|sleeps|, retryCount);
    ScaleMonotone(retryDelay, Triangle(|sleeps|), Triangle(retryCount));
    TriangleClosedForm(retryCount);
  }

  /** The keywords are matched whatever their case. */
  lemma RateLimitIgnoresCase(message: string)
    ensures IsRateLimit(message) == IsRateLimit(Text.Lower(message))
  {
    assert Text.Lower(Text.Lower(message)) == Text.Lower(message);
  }

  /** A 429 status in the message is a rate limit. */
  lemma TooManyRequestsIsRateLimit()
    ensures IsRateLimit("Error code: 429 - Too Many Requests")
  {
    var m := Text.Lower("Error code: 429 - Too Many Requests");
    assert m[12] == '4' && m[13] == '2' && m[14] == '9';
    assert m[12..15] == "429";
    Text.ContainsAt(m, "429", 12);
  }

  /** A plain timeout is not a rate limit, so it is not retried. */
  lemma TimeoutIsNotRateLimit()
    ensures !IsRateLimit("timeout")
  {
    assert Text.Lower("timeout") == "timeout";
    Text.LacksNowhere("timeout", 'r');
    Text.LacksNowhere("timeout", '4');
    Text.LacksNowhere("timeout", 'q');
    Text.NotContainsWithout("timeout", "rate limit", 0);
    Text.NotContainsWithout("timeout", "429", 0);
    Text.NotContainsWithout("timeout", "quota", 0);
    Text.NotContainsWithout("timeout", "resource exhausted", 0);
  }
}
