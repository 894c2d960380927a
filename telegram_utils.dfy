/**
 * `safe_send` (services/telegram_utils.py): a bounded retry loop around a
 * Telegram call that waits on flood control and gives up on requests the
 * API refuses.
 *
 * The call's outcome on each attempt is a parameter; the waits themselves
 * are not modelled.
 */
module TelegramUtils {
  import opened Wrappers

  /** `max_attempts` */
  const MaxAttempts: nat := 5

  datatype ErrorKind =
    | RetryAfterError   // TelegramRetryAfter (flood control)
    | BadRequest        // TelegramBadRequest
    | Forbidden         // TelegramForbiddenError
    | OtherError        // anything else

  /** A raised exception: its class and its `retry_after` / `timeout`
      attributes when it has them. */
  datatype Exception = Exception(kind: ErrorKind, retryAfter: Option<int>, timeout: Option<int>)

  /** What one call of `send_func` did. */
  datatype Attempt<T> = Sent(value: T) | Failed(error: Exception)

  /** How `safe_send` ended. `Returned(None)` is the silent `None`. */
  datatype SendResult<T> = Returned(value: Option<T>) | Raised(error: Exception) | GaveUp

  /** `getattr(e, 'retry_after', None) or getattr(e, 'timeout', None)` is truthy. */
  predicate HasRetryInfo(e: Exception) {
    (e.retryAfter.Some? && e.retryAfter.value != 0) || (e.timeout.Some? && e.timeout.value != 0)
  }

  /** The exceptions after which another attempt is made. */
  predicate Retryable(e: Exception) {
    e.kind == RetryAfterError || HasRetryInfo(e)
  }

  predicate FailedRetryably<T>(a: Attempt<T>) {
    a.Failed? && Retryable(a.error)
  }

  /** The request errors that `silent` turns into `None`. */
  predicate Silenceable(e: Exception) {
    e.kind == BadRequest || e.kind == Forbidden
  }

  /**
   * `safe_send` from attempt `i` on: the result and the number of calls of
   * `send_func` made in all. Every call before the last one failed with a
   * retryable error, and the last one decides the result: a success is
   * returned, a request error gives `None` when silent and is raised
   * otherwise, any other error is raised.
   */
  function SendFrom<T>(attempt: nat -> Attempt<T>, silent: bool, i: nat): (out: (SendResult<T>, nat))
    requires i <= MaxAttempts
    ensures i <= out.1 <= MaxAttempts
    ensures forall j :: i <= j < out.1 - 1 ==> FailedRetryably(attempt(j))
    ensures out.0.Returned? && out.0.value.Some? ==> out.1 >= 1 && attempt(out.1 - 1) == Sent(out.0.value.value)
    ensures out.0.Raised? ==>
              out.1 >= 1 && attempt(out.1 - 1) == Failed(out.0.error) && !Retryable(out.0.error)
              && (out.0.error.kind == BadRequest || out.0.error.kind == Forbidden ==> !silent)
    ensures out.0.GaveUp? ==> !silent && out.1 == MaxAttempts
    ensures out.1 == MaxAttempts && i < MaxAttempts && FailedRetryably(attempt(MaxAttempts - 1)) ==>
              out.0 == (if silent then Returned(None) else GaveUp)
    ensures i < MaxAttempts ==> i < out.1
    ensures out.1 < MaxAttempts ==> !FailedRetryably(attempt(out.1 - 1))
    ensures i < out.1 && attempt(out.1 - 1).Sent? ==> out.0 == Returned(Some(attempt(out.1 - 1).value))
    ensures i < out.1 && attempt(out.1 - 1).Failed? && !Retryable(attempt(out.1 - 1).error) ==>
              out.0 == (if silent && Silenceable(attempt(out.1 - 1).error) then Returned(None)
                        else Raised(attempt(out.1 - 1).error))
    ensures out.0 == Returned(None) ==> silent
    decreases MaxAttempts - i
  {
    if i == MaxAttempts then (if silent then Returned(None) else GaveUp, i)
    else match attempt(i)
      case Sent(v) => (Returned(Some(v)), i + 1)
      case Failed(e) =>
        if Retryable(e) then SendFrom(attempt, silent, i + 1)
        else if Silenceable(e) then
          (if silent then Returned(None) else Raised(e), i + 1)
        else (Raised(e), i + 1)
  }

  /** Five retryable failures in a row exhaust the attempts. */
  lemma {:induction false} AllRetryableGivesUp<T>(attempt: nat -> Attempt<T>, silent: bool, i: nat)
    requires i <= MaxAttempts
    requires forall j :: i <= j < MaxAttempts ==> FailedRetryably(attempt(j))
    ensures SendFrom(attempt, silent, i) == (if silent then Returned(None) else GaveUp, MaxAttempts)
    decreases MaxAttempts - i
  {
    if i < MaxAttempts {
      AllRetryableGivesUp(attempt, silent, i + 1);
    }
  }

  /** The call that decides `safe_send` is the first one that is not a
      retryable failure: the result is that call's outcome, after `k + 1`
      calls. */
  lemma SendStopsAtFirst<T>(attempt: nat -> Attempt<T>, silent: bool, i: nat, k: nat)
    requires i <= k < MaxAttempts
    requires forall j :: i <= j < k ==> FailedRetryably(attempt(j))
    requires !FailedRetryably(attempt(k))
    ensures SendFrom(attempt, silent, i).1 == k + 1
    ensures attempt(k).Sent? ==> SendFrom(attempt, silent, i).0 == Returned(Some(attempt(k).value))
    ensures attempt(k).Failed? ==>
              SendFrom(attempt, silent, i).0 == (if silent && Silenceable(attempt(k).error) then Returned(None)
                                                 else Raised(attempt(k).error))
  {
  }

  /** An error class other than the two request errors, without retry
      information, is raised at once whatever `silent` says. */
  lemma OtherErrorsPropagate<T>(attempt: nat -> Attempt<T>, silent: bool, e: Exception)
    requires attempt(0) == Failed(e) && e.kind == OtherError && !HasRetryInfo(e)
    ensures SendFrom(attempt, silent, 0) == (Raised(e), 1)
  {
  }

  /** `safe_send(send_func, silent=silent)` */
  method SafeSend<T>(attempt: nat -> Attempt<T>, silent: bool) returns (r: SendResult<T>, calls: nat)
    ensures (r, calls) == SendFrom(attempt, silent, 0)
  {
    for i := 0 to MaxAttempts
      invariant SendFrom(attempt, silent, i) == SendFrom(attempt, silent, 0)
    {
      match attempt(i)
      case Sent(v) =>
        return Returned(Some(v)), i + 1;
      case Failed(e) =>
        if e.kind == RetryAfterError || HasRetryInfo(e) {
          // wait and try again
        } else if e.kind == BadRequest || e.kind == Forbidden {
          if silent {
            return Returned(None), i + 1;
          }
          return Raised(e), i + 1;
        } else {
          return Raised(e), i + 1;
        }
    }
    calls := MaxAttempts;
    if silent {
      return Returned(None), calls;
    }
    r := GaveUp;
  }
}
