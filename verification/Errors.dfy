/** Go errors as the platform uses them: sentinels, wrapped once or twice, and matched by identity. */
module Errors {
  import opened Prelude

  datatype Sentinel =
    | Unavailable | Timeout | Stalled | Throttled
    | StreamBroken | EffectsCommitted | NoProvider | RetriesExhausted
    | ToolLoop | ToolFailed | InvalidRequest | InvalidResponse | Unsupported
    | ModelNotFound | Unauthorized | ModelAccessDenied | ContextExceeded | EmptyCompletion | SchemaViolation
    | Canceled

  datatype Error =
    | Leaf(sentinel: Sentinel)
    | Opaque(text: string)
    | Wrapped(cause: Error)
    | Joined(first: Error, second: Error)
    | RetryAfter(err: Error, delay: int)

  /** errors.Is. */
  predicate Is(e: Error, target: Sentinel) {
    match e
    case Leaf(s) => s == target
    case Opaque(_) => false
    case Wrapped(c) => Is(c, target)
    case Joined(a, b) => Is(a, target) || Is(b, target)
    case RetryAfter(c, _) => Is(c, target)
  }

  /** errors.As with a RetryAfterError: the first one met, depth first. */
  function ServerDelay(e: Error): Option<int> {
    match e
    case Leaf(_) => None
    case Opaque(_) => None
    case Wrapped(c) => ServerDelay(c)
    case Joined(a, b) => if ServerDelay(a).Some? then ServerDelay(a) else ServerDelay(b)
    case RetryAfter(_, d) => Some(d)
  }

  /** llm.Retryable: may a failed inference be tried again from the top? */
  predicate Retryable(e: Option<Error>) {
    if e.None? then false
    else if Is(e.value, EffectsCommitted) then false
    else if Is(e.value, StreamBroken) then false
    else if Is(e.value, NoProvider) then false
    else Is(e.value, Throttled) || Is(e.value, Unavailable) || Is(e.value, Timeout) || Is(e.value, Stalled)
  }
}
