/** The shared retry loop: which attempts are made, what error comes back, and how long it waits. */
module Httpx {
  import opened Prelude
  import opened Errors

  const MAX_BACKOFF := 30_000_000_000

  datatype Policy = Policy(attempts: int, delay: int, retryable: Option<Error -> bool>, jitter: (nat, int) -> int)

  /** A policy that names no retryable errors repeats none. */
  predicate Repeats(p: Policy, e: Error) {
    p.retryable.Some? && p.retryable.value(e)
  }

  function Total(p: Policy): nat
    ensures Total(p) >= 1
  {
    if p.attempts < 1 then 1 else p.attempts
  }

  datatype Done = Done(attempts: nat, err: Option<Error>)

  /** What Do returns when its k-th attempt is about to be made: result(k) is what attempt k would do. */
  function From(p: Policy, result: nat -> Option<Error>, cut: nat -> bool, k: nat): (d: Done)
    requires 1 <= k <= Total(p)
    ensures k <= d.attempts <= Total(p)
    decreases Total(p) - k
  {
    match result(k)
    case None => Done(k, None)
    case Some(last) =>
      if !Repeats(p, last) then Done(k, Some(last))
      else if k == Total(p) then Done(k, Some(Joined(Leaf(RetriesExhausted), last)))
      else if cut(k) then Done(k, Some(Wrapped(last)))
      else From(p, result, cut, k + 1)
  }

  function Power2(n: nat): nat {
    if n == 0 then 1 else 2 * Power2(n - 1)
  }

  /** Exponential, capped, jittered, and yielding to a server that said when to come back. */
  function Backoff(p: Policy, attempt: nat, err: Error): int
    requires attempt >= 1
  {
    var after := ServerDelay(err);
    if after.Some? && after.value > 0 then after.value
    else
      var grown := p.delay * Power2(attempt - 1);
      p.jitter(attempt, if grown < MAX_BACKOFF then grown else MAX_BACKOFF)
  }

  /** The sleeps asked for from the k-th attempt on. */
  function WaitFrom(p: Policy, result: nat -> Option<Error>, cut: nat -> bool, k: nat): int
    requires 1 <= k <= Total(p)
    decreases Total(p) - k
  {
    match result(k)
    case None => 0
    case Some(last) =>
      if !Repeats(p, last) || k == Total(p) then 0
      else Backoff(p, k, last) + (if cut(k) then 0 else WaitFrom(p, result, cut, k + 1))
  }

  method Do(p: Policy, result: nat -> Option<Error>, cut: nat -> bool) returns (attempts: nat, err: Option<Error>, waited: int)
    ensures Done(attempts, err) == From(p, result, cut, 1)
    ensures waited == WaitFrom(p, result, cut, 1)
  {
    var total := p.attempts;
    if total < 1 {
      total := 1;
    }
    waited := 0;
    attempts := 0;
    var last := Opaque("");
    var attempt := 1;
    while attempt <= total
      invariant 1 <= attempt <= total == Total(p)
      invariant From(p, result, cut, 1) == From(p, result, cut, attempt)
      invariant WaitFrom(p, result, cut, 1) == waited + WaitFrom(p, result, cut, attempt)
    {
      attempts := attempt;
      var outcome := result(attempt);
      if outcome.None? {
        return attempts, None, waited;
      }
      last := outcome.value;
      if !Repeats(p, last) {
        return attempts, Some(last), waited;
      }
      if attempt == total {
        break;
      }
      var pause := Backoff(p, attempt, last);
      waited := waited + pause;
      if cut(attempt) {
        return attempts, Some(Wrapped(last)), waited;
      }
      attempt := attempt + 1;
    }
    return attempts, Some(Joined(Leaf(RetriesExhausted), last)), waited;
  }

  /** Attempt k failed in a way worth repeating, and the wait after it was not cut short. */
  predicate Retried(p: Policy, result: nat -> Option<Error>, cut: nat -> bool, k: nat) {
    result(k).Some? && Repeats(p, result(k).value) && !cut(k)
  }

  lemma {:induction false} FromIsCharacterised(p: Policy, result: nat -> Option<Error>, cut: nat -> bool, k: nat)
    requires 1 <= k <= Total(p)
    ensures var d := From(p, result, cut, k);
            && k <= d.attempts <= Total(p)
            && (forall i :: k <= i < d.attempts ==> Retried(p, result, cut, i))
            && (d.attempts < Total(p) ==> !Retried(p, result, cut, d.attempts))
            && (d.err.None? <==> result(d.attempts).None?)
            && (d.err.Some? ==>
                  var last := result(d.attempts).value;
                  && (Is(d.err.value, RetriesExhausted) || d.err == Some(last) || d.err == Some(Wrapped(last)))
                  && (d.err != Some(last) ==> Repeats(p, last))
                  && forall s :: Is(last, s) ==> Is(d.err.value, s))
    decreases Total(p) - k
  {
    if Retried(p, result, cut, k) && k < Total(p) {
      FromIsCharacterised(p, result, cut, k + 1);
    }
  }

  /**
   * Do makes between one and max(1, Attempts) attempts; every one but the last failed on something worth
   * repeating, it stops at the first that did not, succeeds exactly when the last one did, and otherwise
   * returns an error in which the last cause can still be found.
   */
  lemma DoIsCharacterised(p: Policy, result: nat -> Option<Error>, cut: nat -> bool)
    ensures var d := From(p, result, cut, 1);
            && 1 <= d.attempts <= Total(p)
            && (forall i :: 1 <= i < d.attempts ==> Retried(p, result, cut, i))
            && (d.attempts < Total(p) ==> !Retried(p, result, cut, d.attempts))
            && (d.err.None? <==> result(d.attempts).None?)
            && (d.err.Some? ==> forall s :: Is(result(d.attempts).value, s) ==> Is(d.err.value, s))
  {
    FromIsCharacterised(p, result, cut, 1);
  }

  /** Jitter picks from zero to the delay it is given, as FullJitter does. */
  ghost predicate FullJitter(p: Policy) {
    forall k, d :: 0 <= p.jitter(k, d) <= if d > 0 then d else 0
  }

  ghost predicate NoServerDelay(result: nat -> Option<Error>) {
    forall k :: result(k).Some? ==> ServerDelay(result(k).value).None?
  }

  lemma {:induction false} WaitFromIsBounded(p: Policy, result: nat -> Option<Error>, cut: nat -> bool, k: nat)
    requires 1 <= k <= Total(p) && p.delay >= 0 && FullJitter(p) && NoServerDelay(result)
    ensures 0 <= WaitFrom(p, result, cut, k)
    ensures WaitFrom(p, result, cut, k) <= p.delay * Power2(Total(p) - 1) - p.delay * Power2(k - 1)
    ensures WaitFrom(p, result, cut, k) <= (Total(p) - k) * MAX_BACKOFF
    decreases Total(p) - k
  {
    PowersGrow(p.delay, k - 1, Total(p) - 1);
    if result(k).Some? && Repeats(p, result(k).value) && k < Total(p) {
      var grown := p.delay * Power2(k - 1);
      assert grown >= 0;
      assert 0 <= Backoff(p, k, result(k).value) <= (if grown < MAX_BACKOFF then grown else MAX_BACKOFF);
      assert p.delay * Power2(k) == 2 * grown;
      PowersGrow(p.delay, k, Total(p) - 1);
      WaitFromIsBounded(p, result, cut, k + 1);
    }
  }

  lemma {:induction false} PowersGrow(d: int, a: nat, b: nat)
    requires d >= 0 && a <= b
    ensures 0 <= d * Power2(a) <= d * Power2(b)
    decreases b - a
  {
    if a < b {
      PowersGrow(d, a, b - 1);
      assert d * Power2(b) == 2 * (d * Power2(b - 1));
    }
  }

  /**
   * With full jitter and no Retry-After, the whole of Do waits at most
   * min(Delay * (2^(A-1) - 1), (A-1) * 30s), where A is the number of attempts allowed.
   */
  lemma TotalWaitIsBounded(p: Policy, result: nat -> Option<Error>, cut: nat -> bool)
    requires p.delay >= 0 && FullJitter(p) && NoServerDelay(result)
    ensures 0 <= WaitFrom(p, result, cut, 1) <= p.delay * (Power2(Total(p) - 1) - 1)
    ensures WaitFrom(p, result, cut, 1) <= (Total(p) - 1) * MAX_BACKOFF
  {
    WaitFromIsBounded(p, result, cut, 1);
    assert p.delay * Power2(0) == p.delay;
  }
}
