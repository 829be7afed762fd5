/** The attempt loop around an outbound HTTP call: deadlines, bounded retries of
    safe methods, and no replay of anything else. */
module HttpAttempts {

  datatype HttpMethod = Get | Head | Post | Put | Delete | Patch

  /** How one attempt can throw. */
  datatype HttpError = AbortError | TimeoutError | OtherDomException | NetworkError | OtherError

  datatype Attempt = Response(status: int) | Threw(error: HttpError)

  datatype Result =
    | Got(status: int)
    | AmbiguousPostOutcome(error: HttpError)
    | DeadlineExceeded
    | RetriesExhausted(attempts: nat, error: HttpError)
    | Rethrown(error: HttpError)

  /** GET and HEAD are safe to repeat (section 9.2.2 of RFC 9110). */
  predicate IsIdempotent(m: HttpMethod) {
    m == Get || m == Head
  }

  predicate IsRetryableStatus(status: int) {
    status == 429 || status == 502 || status == 503 || status == 504
  }

  predicate IsRetryableError(e: HttpError) {
    e == AbortError || e == TimeoutError || e == NetworkError
  }

  predicate Retryable(a: Attempt) {
    match a
    case Response(status) => IsRetryableStatus(status)
    case Threw(error) => IsRetryableError(error)
  }

  function Retries(m: HttpMethod, maxRetries: nat): nat {
    if IsIdempotent(m) then maxRetries else 0
  }

  /** What the caller sees of the last attempt made. */
  function Verdict(m: HttpMethod, maxRetries: nat, last: Attempt): Result {
    match last
    case Response(status) => Got(status)
    case Threw(error) =>
      if !IsIdempotent(m) then AmbiguousPostOutcome(error)
      else if error == AbortError || error == TimeoutError || error == OtherDomException then DeadlineExceeded
      else if maxRetries > 0 then RetriesExhausted(1 + maxRetries, error)
      else Rethrown(error)
  }

  /** Too many requests, a bad gateway, an unavailable or a slow one; or a call that
      was aborted, timed out or never got through. */
  predicate IsTransient(a: Attempt) {
    if a.Response? then a.status in {429, 502, 503, 504} else a.error in {AbortError, TimeoutError, NetworkError}
  }

  /** `network(k)` is what attempt `k` would meet. The loop makes exactly one
      attempt for anything but GET and HEAD; otherwise it stops at the first attempt
      that did not fail transiently, or at the last allowed one. A response is always
      handed on. An error after a POST is reported as an unknown outcome, and one
      after a GET or HEAD as a missed deadline, as exhausted retries, or as itself. */
  method FetchWithDeadline(m: HttpMethod, maxRetries: nat, network: nat -> Attempt) returns (r: Result, made: nat)
    ensures 1 <= made <= 1 + Retries(m, maxRetries)
    ensures m != Get && m != Head ==> made == 1
    ensures m == Get || m == Head ==> made <= 1 + maxRetries
    ensures forall k :: 0 <= k < made - 1 ==> IsTransient(network(k))
    ensures (m == Get || m == Head) && made < 1 + maxRetries ==> !IsTransient(network(made - 1))
    ensures var last := network(made - 1);
            (last.Response? ==> r == Got(last.status))
            && (last.Threw? && m != Get && m != Head ==> r == AmbiguousPostOutcome(last.error))
            && (last.Threw? && (m == Get || m == Head) ==>
                  r == if last.error in {AbortError, TimeoutError, OtherDomException} then DeadlineExceeded
                       else if maxRetries > 0 then RetriesExhausted(1 + maxRetries, last.error)
                       else Rethrown(last.error))
    ensures !IsIdempotent(m) ==> made == 1
    ensures forall k :: 0 <= k < made - 1 ==> Retryable(network(k))
    ensures made == 1 + Retries(m, maxRetries) || !Retryable(network(made - 1))
    ensures r == Verdict(m, maxRetries, network(made - 1))
  {
    var retries := if IsIdempotent(m) then maxRetries else 0;
    made := 0;
    var lastError := OtherError;
    while made < 1 + retries
      invariant made <= 1 + retries
      invariant forall k :: 0 <= k < made ==> Retryable(network(k))
      invariant 0 < made ==> IsIdempotent(m) && made <= retries
    {
      var attempt := made;
      var outcome := network(attempt);
      made := made + 1;
      match outcome {
        case Response(status) =>
          if !(IsIdempotent(m) && IsRetryableStatus(status) && attempt < retries) {
            return Got(status), made;
          }
        case Threw(error) =>
          lastError := error;
          if !IsIdempotent(m) {
            return AmbiguousPostOutcome(error), made;
          }
          if !IsRetryableError(error) || attempt >= retries {
            break;
          }
      }
    }
    if lastError == AbortError || lastError == TimeoutError || lastError == OtherDomException {
      return DeadlineExceeded, made;
    }
    if retries > 0 {
      return RetriesExhausted(1 + retries, lastError), made;
    }
    return Rethrown(lastError), made;
  }
}
