/** The generation client and its retry orchestrator (src/utils/api.ts).

    The single-attempt client `generateImage` is an oracle: the orchestrator
    is given, for each attempt number k, the outcome of the call made in
    attempt k, which is a returned result or a thrown value. The abort signal
    is sticky and is read only at the head of each attempt; the awaited waits
    are recorded as the list of their delay values. */
module Api {
  import opened Types
  import opened Strings
  import ImageUtils

  const AbortMessage := "Request aborted"
  const UnknownErrorMessage := "Unknown error"
  const OverloadedMessage := "Model overloaded"

  /** The configuration used when the caller passes none. */
  const DefaultRetryConfig := RetryConfig(3, 1000, 8000, 0)

  /** A thrown value: an `Error` with its message, or anything else. */
  datatype Thrown = ErrorObject(message: string) | NonError

  /** What one awaited call of the client produced. */
  datatype AttemptOutcome = Returned(result: APIResult) | Threw(thrown: Thrown)

  predicate Succeeded(o: AttemptOutcome) {
    o.Returned? && o.result.Success?
  }

  /** The message a failed attempt leaves in `lastError`. */
  function FailureMessage(o: AttemptOutcome): string
    requires !Succeeded(o)
  {
    match o
    case Returned(r) => r.message
    case Threw(ErrorObject(m)) => m
    case Threw(NonError) => UnknownErrorMessage
  }

  // ---------------------------------------------------------------------
  // The mock client

  /** The random and clock inputs of one mock call: the failure roll, the
      clock reading and random suffix the id is built from, the roll the
      image seed is drawn from,
      and the creation timestamp text. */
  datatype Draw = Draw(
    errorRoll: ImageUtils.UnitInterval,
    now: nat,
    idSuffix: string,
    seedRoll: ImageUtils.UnitInterval,
    createdAt: string)

  /** One call of the mock `generateImage`: it fails with "Model overloaded"
      exactly when the roll is below 0.2, and otherwise returns a generation
      that carries the request's prompt and style verbatim. */
  function GenerateImage(request: GenerationRequest, draw: Draw): (r: APIResult)
    ensures r.Failure? <==> draw.errorRoll < 0.2
    ensures r.Failure? ==> r.message == OverloadedMessage
    ensures r.Success? ==>
              && r.data.prompt == request.prompt
              && r.data.style == request.style
              && r.data.imageUrl == ImageUtils.GenerateMockImageUrl(ImageUtils.MockSeed(draw.seedRoll))
              && StartsWith(r.data.id, "gen_")
  {
    if draw.errorRoll < 0.2 then
      Failure(OverloadedMessage)
    else
      Success(Generation(
        "gen_" + NatToString(draw.now) + "_" + draw.idSuffix,
        ImageUtils.GenerateMockImageUrl(ImageUtils.MockSeed(draw.seedRoll)),
        request.prompt,
        request.style,
        draw.createdAt))
  }

  // ---------------------------------------------------------------------
  // Backoff

  function Pow2(n: nat): (p: nat)
    ensures p >= 1
  {
    if n == 0 then 1 else 2 * Pow2(n - 1)
  }

  /** `Math.min` of two numbers. */
  function Min(a: int, b: int): (m: int)
    ensures m <= a && m <= b
    ensures m == a || m == b
  {
    if a <= b then a else b
  }

  /** The wait after failed attempt `attempt`:
      `Math.min(baseDelay * 2^(attempt - 1), maxDelay)`. */
  function BackoffDelay(config: RetryConfig, attempt: int): (d: int)
    requires attempt >= 1
    ensures d <= config.maxDelay
    ensures d <= config.baseDelay * Pow2(attempt - 1)
    ensures d == config.maxDelay || d == config.baseDelay * Pow2(attempt - 1)
  {
    Min(config.baseDelay * Pow2(attempt - 1), config.maxDelay)
  }

  lemma {:induction false} Pow2Monotone(i: nat, j: nat)
    requires i <= j
    ensures Pow2(i) <= Pow2(j)
  {
    if i < j {
      Pow2Monotone(i, j - 1);
    }
  }

  /** With a non-negative base the waits never shrink from one attempt to
      the next, and they never exceed the cap. */
  lemma BackoffMonotone(config: RetryConfig, j: int, k: int)
    requires config.baseDelay >= 0
    requires 1 <= j <= k
    ensures BackoffDelay(config, j) <= BackoffDelay(config, k) <= config.maxDelay
  {
    Pow2Monotone(j - 1, k - 1);
    MulMonotone(config.baseDelay, Pow2(j - 1), Pow2(k - 1));
  }

  lemma {:induction false} MulMonotone(a: nat, x: nat, y: nat)
    requires x <= y
    ensures a * x <= a * y
  {
    if a > 0 {
      MulMonotone(a - 1, x, y);
      assert a * x == (a - 1) * x + x;
      assert a * y == (a - 1) * y + y;
    }
  }

  /** The default schedule: 1000, 2000, 4000, then capped at 8000. */
  lemma DefaultBackoffSchedule()
    ensures BackoffDelay(DefaultRetryConfig, 1) == 1000
    ensures BackoffDelay(DefaultRetryConfig, 2) == 2000
    ensures BackoffDelay(DefaultRetryConfig, 3) == 4000
    ensures BackoffDelay(DefaultRetryConfig, 4) == 8000
    ensures BackoffDelay(DefaultRetryConfig, 5) == 8000
  {
    assert Pow2(4) == 16;
  }

  // ---------------------------------------------------------------------
  // The retry orchestrator

  /** The caller's abort signal as the loop sees it: never set, or first
      seen set at the head of attempt `attempt` (0 or 1: before any call).
      Once set it stays set. */
  datatype AbortSignal = Never | AbortedFrom(attempt: nat)

  predicate AbortedAt(signal: AbortSignal, attempt: int) {
    signal.AbortedFrom? && signal.attempt <= attempt
  }

  function ExhaustedMessage(maxAttempts: int, lastError: string): string {
    "Failed after " + IntToString(maxAttempts) + " attempts. Last error: " + lastError
  }

  /** `lastError` after `calls` calls that all failed. */
  function LastError(client: nat -> AttemptOutcome, calls: nat): string
    requires calls > 0 ==> !Succeeded(client(calls))
  {
    if calls == 0 then "" else FailureMessage(client(calls))
  }

  /** What a run of the orchestrator promises, for its result, the number of
      client calls it made and the waits it awaited:
      - no more calls than `maxAttempts`; each call was preceded by a clear
        abort check, and every call but the last failed;
      - one wait after each failed attempt that was not the final permitted
        one, the k-th wait being `BackoffDelay(config, k)`;
      - the run ended in exactly one way: the last call succeeded and its
        result is returned unchanged, or the signal was seen at the head of
        the next attempt, or all permitted attempts failed and the message
        names their number and the last failure. */
  predicate RetryOutcome(
    config: RetryConfig, client: nat -> AttemptOutcome, signal: AbortSignal,
    result: APIResult, calls: nat, delays: seq<int>)
  {
    && (calls == 0 || calls <= config.maxAttempts)
    && (forall k :: 1 <= k <= calls ==> !AbortedAt(signal, k))
    && (forall k :: 1 <= k < calls ==> !Succeeded(client(k)))
    && |delays| == (if calls == 0 then 0
                    else if !Succeeded(client(calls)) && calls < config.maxAttempts then calls
                    else calls - 1)
    && (forall i :: 0 <= i < |delays| ==> delays[i] == BackoffDelay(config, i + 1))
    && (|| (calls >= 1 && Succeeded(client(calls)) && client(calls) == Returned(result))
        || (&& calls < config.maxAttempts
            && AbortedAt(signal, calls + 1)
            && (calls > 0 ==> !Succeeded(client(calls)))
            && result == Failure(AbortMessage))
        || (&& (if config.maxAttempts <= 0 then calls == 0 else calls == config.maxAttempts)
            && (calls > 0 ==> !Succeeded(client(calls)))
            && result == Failure(ExhaustedMessage(config.maxAttempts, LastError(client, calls)))))
  }

  /** `generateImageWithRetry`: a loop over attempts 1..maxAttempts that
      checks the abort signal, calls the client, returns the first success,
      records each failure (returned or thrown) as `lastError`, and waits
      before the next attempt only when one remains. Besides the result it
      reports how many client calls it made and the waits it awaited. */
  method GenerateImageWithRetry(
    config: RetryConfig, client: nat -> AttemptOutcome, signal: AbortSignal)
    returns (result: APIResult, calls: nat, delays: seq<int>)
    ensures RetryOutcome(config, client, signal, result, calls, delays)
  {
    var lastError := "";
    calls, delays := 0, [];
    var attempt := 1;
    while attempt <= config.maxAttempts
      invariant 1 <= attempt && calls == attempt - 1
      invariant calls == 0 || calls <= config.maxAttempts
      invariant forall k :: 1 <= k <= calls ==> !AbortedAt(signal, k)
      invariant forall k :: 1 <= k <= calls ==> !Succeeded(client(k))
      invariant lastError == LastError(client, calls)
      invariant |delays| == (if calls == 0 || calls < config.maxAttempts then calls else calls - 1)
      invariant forall i :: 0 <= i < |delays| ==> delays[i] == BackoffDelay(config, i + 1)
      decreases config.maxAttempts - attempt
    {
      if AbortedAt(signal, attempt) {
        return Failure(AbortMessage), calls, delays;
      }
      var outcome := client(attempt);
      calls := calls + 1;
      if Succeeded(outcome) {
        return outcome.result, calls, delays;
      }
      lastError := FailureMessage(outcome);
      if attempt < config.maxAttempts {
        delays := delays + [BackoffDelay(config, attempt)];
      }
      attempt := attempt + 1;
    }
    result := Failure(ExhaustedMessage(config.maxAttempts, lastError));
  }

  // ---------------------------------------------------------------------
  // What follows from RetryOutcome

  /** The promise pins the run down: for one configuration, client and
      signal there is exactly one result, call count and list of waits that
      meets it. */
  lemma RetryOutcomeUnique(
    config: RetryConfig, client: nat -> AttemptOutcome, signal: AbortSignal,
    r1: APIResult, c1: nat, d1: seq<int>, r2: APIResult, c2: nat, d2: seq<int>)
    requires RetryOutcome(config, client, signal, r1, c1, d1)
    requires RetryOutcome(config, client, signal, r2, c2, d2)
    ensures r1 == r2 && c1 == c2 && d1 == d2
  {
    CallsDetermined(config, client, signal, r1, c1, d1, r2, c2, d2);
    CallsDetermined(config, client, signal, r2, c2, d2, r1, c1, d1);
    assert |d1| == |d2|;
    forall i | 0 <= i < |d1| ensures d1[i] == d2[i] {
    }
  }

  /** Helper for RetryOutcomeUnique: a run cannot stop earlier than another
      run over the same inputs. */
  lemma CallsDetermined(
    config: RetryConfig, client: nat -> AttemptOutcome, signal: AbortSignal,
    r1: APIResult, c1: nat, d1: seq<int>, r2: APIResult, c2: nat, d2: seq<int>)
    requires RetryOutcome(config, client, signal, r1, c1, d1)
    requires RetryOutcome(config, client, signal, r2, c2, d2)
    ensures c1 >= c2
  {
  }

  /** A signal already set before the loop starts: no call, no wait, and the
      run reports the abort. */
  lemma AbortBeforeFirstAttempt(
    config: RetryConfig, client: nat -> AttemptOutcome, signal: AbortSignal,
    result: APIResult, calls: nat, delays: seq<int>)
    requires RetryOutcome(config, client, signal, result, calls, delays)
    requires AbortedAt(signal, 1) && config.maxAttempts >= 1
    ensures calls == 0 && delays == [] && result == Failure(AbortMessage)
  {
  }

  /** Once the signal is seen at the head of attempt k, no call is made from
      attempt k on; and when no earlier attempt succeeded, the run reports
      the abort. */
  lemma AbortStopsCalls(
    config: RetryConfig, client: nat -> AttemptOutcome, signal: AbortSignal,
    result: APIResult, calls: nat, delays: seq<int>, k: nat)
    requires RetryOutcome(config, client, signal, result, calls, delays)
    requires 1 <= k <= config.maxAttempts && AbortedAt(signal, k)
    requires forall j :: 1 <= j < k ==> !Succeeded(client(j))
    ensures calls < k
    ensures result == Failure(AbortMessage)
  {
  }

  /** A success is the end of the run: it is the last call, it is returned
      unchanged, every earlier call failed and no wait follows it. */
  lemma SuccessShortCircuits(
    config: RetryConfig, client: nat -> AttemptOutcome, signal: AbortSignal,
    result: APIResult, calls: nat, delays: seq<int>)
    requires RetryOutcome(config, client, signal, result, calls, delays)
    requires result.Success?
    ensures calls >= 1 && client(calls) == Returned(result)
    ensures forall k :: 1 <= k < calls ==> !Succeeded(client(k))
    ensures |delays| == calls - 1
  {
  }

  /** The first success within the permitted attempts, with no abort seen
      before it, is the result; exactly the failed attempts before it are
      followed by a wait. */
  lemma FirstSuccessReturned(
    config: RetryConfig, client: nat -> AttemptOutcome, signal: AbortSignal,
    result: APIResult, calls: nat, delays: seq<int>, k: nat)
    requires RetryOutcome(config, client, signal, result, calls, delays)
    requires 1 <= k <= config.maxAttempts && Succeeded(client(k))
    requires forall j :: 1 <= j <= k ==> !AbortedAt(signal, j)
    requires forall j :: 1 <= j < k ==> !Succeeded(client(j))
    ensures calls == k && client(k) == Returned(result) && |delays| == k - 1
  {
  }

  /** Every permitted attempt fails and no abort is seen: `maxAttempts`
      calls, one wait fewer than calls, and the exhaustion message carries
      the attempt count and the last failure's message. */
  lemma AllAttemptsFail(
    config: RetryConfig, client: nat -> AttemptOutcome, signal: AbortSignal,
    result: APIResult, calls: nat, delays: seq<int>)
    requires RetryOutcome(config, client, signal, result, calls, delays)
    requires config.maxAttempts >= 1
    requires forall k :: 1 <= k <= config.maxAttempts ==> !Succeeded(client(k)) && !AbortedAt(signal, k)
    ensures calls == config.maxAttempts && |delays| == calls - 1
    ensures result == Failure(ExhaustedMessage(config.maxAttempts, FailureMessage(client(config.maxAttempts))))
  {
  }

  /** No permitted attempt: no call, no wait, and `lastError` stays empty. */
  lemma NonPositiveMaxAttempts(
    config: RetryConfig, client: nat -> AttemptOutcome, signal: AbortSignal,
    result: APIResult, calls: nat, delays: seq<int>)
    requires RetryOutcome(config, client, signal, result, calls, delays)
    requires config.maxAttempts <= 0
    ensures calls == 0 && delays == []
    ensures result == Failure("Failed after " + IntToString(config.maxAttempts) + " attempts. Last error: ")
  {
  }

  /** A single permitted attempt never waits. */
  lemma SingleAttemptNeverWaits(
    config: RetryConfig, client: nat -> AttemptOutcome, signal: AbortSignal,
    result: APIResult, calls: nat, delays: seq<int>)
    requires RetryOutcome(config, client, signal, result, calls, delays)
    requires config.maxAttempts == 1
    ensures calls <= 1 && delays == []
  {
  }

  /** Whether a failure was thrown or returned does not matter, only its
      message does: two clients that agree on every success and on the
      message of every failure lead to the same run. */
  lemma ThrownRetriedLikeReturned(
    config: RetryConfig, a: nat -> AttemptOutcome, b: nat -> AttemptOutcome, signal: AbortSignal,
    ra: APIResult, ca: nat, da: seq<int>, rb: APIResult, cb: nat, db: seq<int>)
    requires forall k :: Succeeded(a(k)) <==> Succeeded(b(k))
    requires forall k :: Succeeded(a(k)) ==> a(k) == b(k)
    requires forall k :: !Succeeded(a(k)) ==> FailureMessage(a(k)) == FailureMessage(b(k))
    requires RetryOutcome(config, a, signal, ra, ca, da)
    requires RetryOutcome(config, b, signal, rb, cb, db)
    ensures ra == rb && ca == cb && da == db
  {
    assert ca > 0 ==> (Succeeded(a(ca)) <==> Succeeded(b(ca)));
    assert ca > 0 && Succeeded(a(ca)) ==> a(ca) == b(ca);
    assert ca > 0 && !Succeeded(a(ca)) ==> LastError(a, ca) == LastError(b, ca);
    assert RetryOutcome(config, b, signal, ra, ca, da);
    RetryOutcomeUnique(config, b, signal, ra, ca, da, rb, cb, db);
  }

  /** The scenario of two overloaded attempts and then a success under the
      default configuration: three calls, waits of 1000 and 2000, and the
      success is returned. */
  lemma TwoFailuresThenSuccess(
    g: Generation, result: APIResult, calls: nat, delays: seq<int>)
    requires RetryOutcome(DefaultRetryConfig,
      k => if k < 3 then Returned(Failure(OverloadedMessage)) else Returned(Success(g)),
      Never, result, calls, delays)
    ensures calls == 3 && delays == [1000, 2000] && result == Success(g)
  {
    var client := (k: nat) => if k < 3 then Returned(Failure(OverloadedMessage)) else Returned(Success(g));
    FirstSuccessReturned(DefaultRetryConfig, client, Never, result, calls, delays, 3);
    DefaultBackoffSchedule();
  }

  /** Driving the mock client: a success carries the request's prompt and
      style, and a failure is either the abort or the exhaustion message
      whose last error is "Model overloaded". */
  lemma MockRunOutcomes(
    config: RetryConfig, request: GenerationRequest, draws: nat -> Draw, signal: AbortSignal,
    result: APIResult, calls: nat, delays: seq<int>)
    requires RetryOutcome(config, (k: nat) => Returned(GenerateImage(request, draws(k))), signal, result, calls, delays)
    ensures result.Success? ==> result.data.prompt == request.prompt && result.data.style == request.style
    ensures result.Failure? ==>
              || result.message == AbortMessage
              || result.message == ExhaustedMessage(config.maxAttempts, if calls == 0 then "" else OverloadedMessage)
  {
    var client := (k: nat) => Returned(GenerateImage(request, draws(k)));
    if calls > 0 {
      assert client(calls) == Returned(GenerateImage(request, draws(calls)));
    }
  }
}
