/** Go error chains: which errors a chain contains decides what both retry loops do. */
module Errors {
  import opened Message

  datatype Err =
    | Plain(code: int)
    | Duplicate                       // inbox.ErrDuplicate
    | MaxRetriesExceeded              // retry.ErrMaxRetriesExceeded
    | Cancelled                       // the context's own error
    | Retryable(inner: Err)           // *retry.RetryableError
    | Action(inner: Err)              // *executor.actionError
    | Wrap(inner: Err)                // fmt.Errorf with one %w
    | Join(first: Err, second: Err)   // fmt.Errorf with two %w

  /** errors.As with a *RetryableError target. */
  predicate HasRetryable(e: Err) {
    match e
    case Retryable(_) => true
    case Action(x) => HasRetryable(x)
    case Wrap(x) => HasRetryable(x)
    case Join(x, y) => HasRetryable(x) || HasRetryable(y)
    case _ => false
  }

  /** errors.As with an *actionError target, followed by Unwrap. */
  function FindAction(e: Err): Option<Err> {
    match e
    case Retryable(x) => FindAction(x)
    case Action(x) => Some(x)
    case Wrap(x) => FindAction(x)
    case Join(x, y) => if FindAction(x).Some? then FindAction(x) else FindAction(y)
    case _ => None
  }

  /** errors.Is. */
  predicate Is(e: Err, target: Err) {
    e == target ||
    match e
    case Retryable(x) => Is(x, target)
    case Action(x) => Is(x, target)
    case Wrap(x) => Is(x, target)
    case Join(x, y) => Is(x, target) || Is(y, target)
    case _ => false
  }

  /** Errors made outside the executor and the inbox, whose error types and sentinel are internal. */
  predicate Foreign(e: Err) {
    match e
    case Plain(_) => true
    case MaxRetriesExceeded => true
    case Cancelled => true
    case Retryable(x) => Foreign(x)
    case Wrap(x) => Foreign(x)
    case Join(x, y) => Foreign(x) && Foreign(y)
    case _ => false
  }

  type ForeignErr = e: Err | Foreign(e) witness Plain(0)

  lemma {:induction false} ForeignIsClean(e: Err)
    requires Foreign(e)
    ensures FindAction(e) == None && !Is(e, Duplicate)
  {
    match e
    case Retryable(x) => ForeignIsClean(x);
    case Wrap(x) => ForeignIsClean(x);
    case Join(x, y) => ForeignIsClean(x); ForeignIsClean(y);
    case _ =>
  }

  /** A begin, claim, insert or commit failure as the executor reports it. */
  function InfraError(e: Err): Err {
    Retryable(Wrap(e))
  }

  lemma InfraErrorIsClean(e: Err)
    requires Foreign(e)
    ensures HasRetryable(InfraError(e)) && FindAction(InfraError(e)) == None && !Is(InfraError(e), Duplicate)
  {
    ForeignIsClean(e);
    assert !Is(Wrap(e), Duplicate) && FindAction(Wrap(e)) == None;
  }

  /** What a retrier returns when its budget is used up; the last error stays inside. */
  function Exhausted(last: Option<Err>): Err {
    if last.Some? then Join(MaxRetriesExceeded, last.value) else MaxRetriesExceeded
  }

  lemma ExhaustedKeepsLast(last: Err)
    ensures Is(Exhausted(Some(last)), Duplicate) <==> Is(last, Duplicate)
    ensures HasRetryable(Exhausted(Some(last))) <==> HasRetryable(last)
    ensures FindAction(Exhausted(Some(last))) == FindAction(last)
  {
    assert !Is(MaxRetriesExceeded, Duplicate) && FindAction(MaxRetriesExceeded) == None;
  }

  /** Unwrapping an actionError loses neither a sentinel nor retryability of the action's own error. */
  lemma {:induction false} FoundActionIsInside(e: Err, target: Err)
    requires FindAction(e).Some?
    ensures Is(FindAction(e).value, target) ==> Is(e, target)
    ensures HasRetryable(FindAction(e).value) ==> HasRetryable(e)
  {
    match e
    case Retryable(x) => FoundActionIsInside(x, target);
    case Wrap(x) => FoundActionIsInside(x, target);
    case Join(x, y) =>
      if FindAction(x).Some? { FoundActionIsInside(x, target); } else { FoundActionIsInside(y, target); }
    case _ =>
  }
}
