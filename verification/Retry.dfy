/** The retry policy: whether a failed attempt is followed by another one, and after which delay. */
module Retry {
  import opened Prelude

  datatype Engine = Typesafe | Llm | Laya

  datatype Status = ErrorStatus | Timeout | RateLimited | InvalidResponse | AuthError | InvalidRequest

  datatype Decision = RetryAfter(delayMs: int) | NotRetryable | Exhausted

  const RETRY_BASE_DELAY_MS := 500
  const RETRY_JITTER: real := 0.2
  const MAX_INVALID_RESPONSE_RETRIES := 1
  const MAX_RETRY_AFTER_MS := 86400000

  function MaxAttempts(e: Engine): nat {
    match e
    case Typesafe => 4
    case Llm => 2
    case Laya => 1
  }

  predicate Transient(s: Status) {
    s == ErrorStatus || s == Timeout || s == RateLimited || s == InvalidResponse
  }

  /** Math.round. */
  function Round(x: real): int {
    (x + 0.5).Floor
  }

  /** `random` is the draw, clamped into [0, 1]; 0.5 means no jitter. */
  function BackoffDelayMs(attempt: nat, random: real): int
    requires attempt >= 2
  {
    var base := (RETRY_BASE_DELAY_MS * Pow2(attempt - 2)) as real;
    var r := MinR(MaxR(random, 0.0), 1.0);
    Round(base * (1.0 + (2.0 * r - 1.0) * RETRY_JITTER))
  }

  function DecideRetry(
    engine: Engine, attempt: nat, status: Status, retryable: bool, retryAfterMs: Option<int>,
    invalidResponseRetries: nat, random: real): Decision
    requires attempt >= 1
  {
    if !retryable || !Transient(status) then NotRetryable
    else if status == InvalidResponse && invalidResponseRetries >= MAX_INVALID_RESPONSE_RETRIES then
      NotRetryable
    else if attempt >= MaxAttempts(engine) then Exhausted
    else
      var backoff := BackoffDelayMs(attempt + 1, random);
      var server := if retryAfterMs.Some? && retryAfterMs.value > 0
                    then MinI(retryAfterMs.value, MAX_RETRY_AFTER_MS) else 0;
      RetryAfter(MaxI(backoff, server))
  }

  /** The jitter keeps a backoff within a fifth of 500 ms doubled per attempt, whatever the draw. */
  lemma BackoffIsWithinJitter(attempt: nat, random: real)
    requires attempt >= 2
    ensures var base := 500 * Pow2(attempt - 2);
      base * 4 / 5 <= BackoffDelayMs(attempt, random) <= base * 6 / 5
    ensures BackoffDelayMs(attempt, 0.5) == 500 * Pow2(attempt - 2)
  {
    var base := 500 * Pow2(attempt - 2);
    var b := base as real;
    var r := MinR(MaxR(random, 0.0), 1.0);
    var x := b * (1.0 + (2.0 * r - 1.0) * RETRY_JITTER);
    assert 0.8 <= 1.0 + (2.0 * r - 1.0) * RETRY_JITTER <= 1.2;
    assert b * 0.8 <= x <= b * 1.2;
    assert b * 0.8 == (base * 4 / 5) as real && b * 1.2 == (base * 6 / 5) as real by {
      assert base == 5 * (100 * Pow2(attempt - 2));
    }
  }

  /** A retry never comes sooner than a valid server delay (up to a day), nor past the last attempt. */
  lemma RetryHonoursServerAndCap(
    engine: Engine, attempt: nat, status: Status, retryable: bool, retryAfterMs: Option<int>,
    invalid: nat, random: real)
    requires attempt >= 1
    ensures var d := DecideRetry(engine, attempt, status, retryable, retryAfterMs, invalid, random);
      d.RetryAfter? ==>
        && attempt < MaxAttempts(engine) && retryable && status != AuthError && status != InvalidRequest
        && (status == InvalidResponse ==> invalid == 0)
        && d.delayMs >= 400 * Pow2(attempt - 1)
        && (retryAfterMs.Some? && retryAfterMs.value <= MAX_RETRY_AFTER_MS ==> d.delayMs >= retryAfterMs.value)
  {
    BackoffIsWithinJitter(attempt + 1, random);
  }

  /** The jitter moves a backoff evenly from four fifths of the base to six fifths as the draw grows. */
  lemma BackoffFollowsDraw(attempt: nat, random: real)
    requires attempt >= 2 && 0.0 <= random <= 1.0
    ensures var exact := (500 * Pow2(attempt - 2)) as real * (0.8 + 0.4 * random);
      exact - 0.5 <= BackoffDelayMs(attempt, random) as real <= exact + 0.5
    ensures random == 0.0 ==> BackoffDelayMs(attempt, random) == 400 * Pow2(attempt - 2)
    ensures random == 1.0 ==> BackoffDelayMs(attempt, random) == 600 * Pow2(attempt - 2)
  {
    var b := (500 * Pow2(attempt - 2)) as real;
    assert 1.0 + (2.0 * random - 1.0) * RETRY_JITTER == 0.8 + 0.4 * random;
    if random == 0.0 {
      assert b * 0.8 == (400 * Pow2(attempt - 2)) as real;
    } else if random == 1.0 {
      assert b * 1.2 == (600 * Pow2(attempt - 2)) as real;
    }
  }

  /**
   * Exactly when a failed attempt is retried: the failure is retryable and transient, the engine has
   * an attempt left, and it is not a second invalid response. The delay is the backoff of the next
   * attempt, or the server's if that is longer, of which at most a day counts.
   */
  lemma RetriedExactly(
    engine: Engine, attempt: nat, status: Status, retryable: bool, retryAfterMs: Option<int>,
    invalid: nat, random: real)
    requires attempt >= 1
    ensures var d := DecideRetry(engine, attempt, status, retryable, retryAfterMs, invalid, random);
      var worth := retryable && status != AuthError && status != InvalidRequest
                   && !(status == InvalidResponse && invalid >= 1);
      var last := match engine case Typesafe => 4 case Llm => 2 case Laya => 1;
      && (d == NotRetryable <==> !worth)
      && (d == Exhausted <==> worth && attempt >= last)
      && (d.RetryAfter? <==> worth && attempt < last)
      && (d.RetryAfter? ==>
            var backoff := BackoffDelayMs(attempt + 1, random);
            var server := if retryAfterMs.None? || retryAfterMs.value < 0 then 0
                          else if retryAfterMs.value > 86400000 then 86400000
                          else retryAfterMs.value;
            d.delayMs == if backoff >= server then backoff else server)
  {
    hide BackoffDelayMs;
  }
}
