/**
 * One page fetch with retries (client.go:282-366): the request body, the
 * classification done by the operation closure and isRetryableError, and the
 * attempt loop that backoff.RetryNotify runs under WithMaxRetries and
 * WithContext. The network and the caller's context are an oracle, Env.
 */
module Retrying {
  import opened Wrappers
  import opened Types

  const CodeOK: int := 0
  const CodeRateLimitExceeded: int := 40203

  /** The JSON body of one request (client.go:193-198). */
  datatype RequestParams = RequestParams(apiName: string, token: string, params: map<string, Value>, fields: string)

  /** What one HTTP exchange (doRequest) yields: a decoded envelope, or a failure described by text. */
  datatype Reply = Delivered(resp: Response) | Broken(detail: string)

  /**
   * The world outside the client. `reply(req, a)` is the outcome of the a-th
   * attempt (from 0) at sending `req`; `cancelledBeforeRetry(req, a)` says the
   * caller's context is done when the retry policy decides after attempt a
   * (at NextBackOff or during the wait that follows); `cancelledBeforePage(k)`
   * says it is done when Query is about to dispatch page k.
   */
  datatype Env = Env(
    reply: (RequestParams, nat) -> Reply,
    cancelledBeforeRetry: (RequestParams, nat) -> bool,
    cancelledBeforePage: nat -> bool)

  /** doRequest's (resp, err) pair: exactly one of the two is present. */
  function RespOf(r: Reply): Option<Response>
  {
    if r.Delivered? then Some(r.resp) else None
  }

  function ErrOf(r: Reply): Option<Error>
  {
    if r.Broken? then Some(TransportError(r.detail)) else None
  }

  /**
   * isRetryableError (client.go:282-294): any error is retryable, and so is a
   * response with the rate-limit code; nothing else is.
   */
  function IsRetryableError(resp: Option<Response>, err: Option<Error>): (retry: bool)
    ensures err.Some? ==> retry
    ensures err.None? ==> (retry <==> resp.Some? && resp.value.code == CodeRateLimitExceeded)
  {
    if err.Some? then true
    else if resp.Some? && resp.value.code == CodeRateLimitExceeded then true
    else false
  }

  /**
   * The error the operation closure returns for one attempt (client.go:314-338):
   * None stops the loop and hands the response back; a Permanent error would
   * stop it with that error; any other error asks for a retry.
   */
  function Operation(r: Reply): (e: Option<Error>)
    // success, and any code but the rate limit, stop at once with the response
    ensures e.None? <==> r.Delivered? && r.resp.code != CodeRateLimitExceeded
    // a transport failure is retried with its own error
    ensures r.Broken? ==> e == Some(TransportError(r.detail))
    // the rate limit is retried with a formatted API error
    ensures r.Delivered? && r.resp.code == CodeRateLimitExceeded ==>
      e == Some(RetryableAPIError(CodeRateLimitExceeded, r.resp.msg))
    // the backoff.Permanent branch is never taken
    ensures e.Some? ==> !e.value.Permanent?
  {
    var resp, err := RespOf(r), ErrOf(r);
    if err.None? && resp.value.IsSuccess() then None
    else if !IsRetryableError(resp, err) then
      match err
      case Some(x) => Some(Permanent(x))
      case None => None
    else if err.Some? then err
    else Some(RetryableAPIError(resp.value.code, resp.value.msg))
  }

  /** PermanentError (client.go:515-517): marks an error as not to be retried. */
  function PermanentError(e: Error): (p: Error)
    ensures IsPermanentError(p) && Unwrap(p) == e
  {
    Permanent(e)
  }

  /** IsPermanentError (client.go:520-523). */
  predicate IsPermanentError(e: Error)
  {
    e.Permanent?
  }

  /** The errors IsPermanentError recognises are exactly those PermanentError builds. */
  lemma PermanentErrorsAreWrapped(e: Error)
    ensures IsPermanentError(e) <==> exists inner :: e == PermanentError(inner)
  {
    if IsPermanentError(e) {
      assert e == PermanentError(e.inner);
    }
  }

  /** The error RetryNotify returns for a permanent one: the wrapped cause. */
  function Unwrap(e: Error): Error
  {
    if e.Permanent? then e.inner else e
  }

  /** The outcome of postWithRetry and how many exchanges it made. */
  datatype Fetched = Fetched(result: Result<Response, Error>, exchanges: nat)

  /** Replies that ask for another attempt: a transport failure or the rate-limit code. */
  predicate Retryable(r: Reply)
  {
    r.Broken? || r.resp.code == CodeRateLimitExceeded
  }

  /**
   * postWithRetry from attempt `a` on, with at most `maxRetries` retries after
   * attempt 0 (client.go:303-366 with backoff.RetryNotify): stop when the
   * operation returns nil; after a retryable failure, a done context ends with
   * the context's error, exhausted retries end with the attempt's own error,
   * and otherwise the next attempt follows.
   */
  function RetryFrom(env: Env, req: RequestParams, maxRetries: nat, a: nat): (f: Fetched)
    requires a <= maxRetries
    decreases maxRetries - a
    ensures a < f.exchanges <= maxRetries + 1
    ensures f.result.Success? ==> env.reply(req, f.exchanges - 1) == Delivered(f.result.value)
    ensures f.result.Success? ==> f.result.value.code != CodeRateLimitExceeded
    ensures f.result.Failure? ==> (f.result.error.TransportError? || f.result.error.ContextError? ||
      (f.result.error.RetryableAPIError? && f.result.error.code == CodeRateLimitExceeded))
    ensures f.result.Failure? ==> Retryable(env.reply(req, f.exchanges - 1))
  {
    var r := env.reply(req, a);
    var made: nat := a + 1;
    match Operation(r)
    case None => Fetched(Success(r.resp), made)
    case Some(err) =>
      if IsPermanentError(err) then Fetched(Failure(Unwrap(err)), made)
      else if env.cancelledBeforeRetry(req, a) then Fetched(Failure(ContextError), made)
      else if a == maxRetries then Fetched(Failure(err), made)
      else RetryFrom(env, req, maxRetries, a + 1)
  }

  /**
   * Rate limits (or transport failures) on the first R attempts, then a
   * success, with R <= maxRetries and no cancellation: the fetch succeeds with
   * that response after exactly R + 1 exchanges.
   */
  lemma {:induction false} RetriesUntilSuccess(env: Env, req: RequestParams, maxRetries: nat, a: nat, rounds: nat)
    requires a <= rounds <= maxRetries
    requires forall i :: a <= i < rounds ==> Retryable(env.reply(req, i)) && !env.cancelledBeforeRetry(req, i)
    requires env.reply(req, rounds).Delivered? && env.reply(req, rounds).resp.code == CodeOK
    ensures RetryFrom(env, req, maxRetries, a) == Fetched(Success(env.reply(req, rounds).resp), rounds + 1)
    decreases rounds - a
  {
    if a < rounds {
      RetriesUntilSuccess(env, req, maxRetries, a + 1, rounds);
    }
  }

  /**
   * A server that is always rate-limited (or unreachable) and a context that
   * stays live: the fetch fails with the last attempt's error after exactly
   * maxRetries + 1 exchanges.
   */
  lemma {:induction false} RetriesExhausted(env: Env, req: RequestParams, maxRetries: nat, a: nat)
    requires a <= maxRetries
    requires forall i :: a <= i <= maxRetries ==> Retryable(env.reply(req, i)) && !env.cancelledBeforeRetry(req, i)
    ensures var last := env.reply(req, maxRetries);
      RetryFrom(env, req, maxRetries, a) == Fetched(Failure(
        if last.Broken? then TransportError(last.detail)
        else RetryableAPIError(CodeRateLimitExceeded, last.resp.msg)), maxRetries + 1)
    decreases maxRetries - a
  {
    if a < maxRetries {
      RetriesExhausted(env, req, maxRetries, a + 1);
    }
  }

  /**
   * A response with a code other than 0 and 40203 after retryable attempts ends
   * the fetch at once: it is handed back as a success of the exchange, with no
   * error, and no further attempt is made.
   */
  lemma {:induction false} BusinessErrorStops(env: Env, req: RequestParams, maxRetries: nat, a: nat, at: nat)
    requires a <= at <= maxRetries
    requires forall i :: a <= i < at ==> Retryable(env.reply(req, i)) && !env.cancelledBeforeRetry(req, i)
    requires env.reply(req, at).Delivered? && env.reply(req, at).resp.code != CodeRateLimitExceeded
    ensures RetryFrom(env, req, maxRetries, a) == Fetched(Success(env.reply(req, at).resp), at + 1)
    decreases at - a
  {
    if a < at {
      BusinessErrorStops(env, req, maxRetries, a + 1, at);
    }
  }

  /**
   * A context that is done when a retry is due ends the fetch with the
   * context's error, and the attempt just made is the last exchange.
   */
  lemma {:induction false} CancelledDuringRetry(env: Env, req: RequestParams, maxRetries: nat, a: nat, at: nat)
    requires a <= at <= maxRetries
    requires forall i :: a <= i < at ==> Retryable(env.reply(req, i)) && !env.cancelledBeforeRetry(req, i)
    requires Retryable(env.reply(req, at)) && env.cancelledBeforeRetry(req, at)
    ensures RetryFrom(env, req, maxRetries, a) == Fetched(Failure(ContextError), at + 1)
    decreases at - a
  {
    if a < at {
      CancelledDuringRetry(env, req, maxRetries, a + 1, at);
    }
  }
}
