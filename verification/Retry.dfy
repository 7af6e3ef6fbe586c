/** The loop's own retry layer: how long to wait, and whether another attempt is worth making. */
module Retry {
  import opened LoopVocabulary

  /** Conversion of a float to a time.Duration: towards zero. */
  function Trunc(r: real): int {
    if r >= 0.0 then r.Floor else -((-r).Floor)
  }

  function Grow(delay: Time, multiplier: real): Time {
    Trunc(delay as real * multiplier)
  }

  /** The delay after some retries, compounding for as long as compounding makes it longer. */
  function Grown(delay: Time, multiplier: real, steps: nat): (r: Time)
    ensures delay <= r
    decreases steps
  {
    if steps == 0 || Grow(delay, multiplier) <= delay then delay
    else Grown(Grow(delay, multiplier), multiplier, steps - 1)
  }

  function Capped(p: RetryPolicy, delay: Time): Time {
    if p.maxDelay > 0 && delay > p.maxDelay then p.maxDelay else delay
  }

  function Backoff(p: RetryPolicy, attempt: int): Time {
    if attempt < 1 then 0 else Capped(p, Grown(p.baseDelay, p.multiplier, attempt - 1))
  }

  /** The source's loop, which stops compounding as soon as the cap is reached. */
  method ComputeBackoff(p: RetryPolicy, attempt: int) returns (delay: Time)
    ensures delay == Backoff(p, attempt)
  {
    if attempt < 1 {
      return 0;
    }
    delay := p.baseDelay;
    for i := 1 to attempt
      invariant Grown(p.baseDelay, p.multiplier, attempt - 1) == Grown(delay, p.multiplier, attempt - i)
    {
      var next := Grow(delay, p.multiplier);
      if next <= delay {
        break;
      }
      delay := next;
      if p.maxDelay > 0 && delay >= p.maxDelay {
        return p.maxDelay;
      }
    }
    if p.maxDelay > 0 && delay > p.maxDelay {
      return p.maxDelay;
    }
  }

  /** Plain compounding, with no early exit: the delay multiplied and truncated n times. */
  function Compounded(delay: Time, multiplier: real, n: nat): Time
    decreases n
  {
    if n == 0 then delay else Compounded(Grow(delay, multiplier), multiplier, n - 1)
  }

  lemma GrowKeepsOrder(delay: Time, multiplier: real)
    requires delay >= 0 && multiplier >= 1.0
    ensures Grow(delay, multiplier) >= delay
  {
    var d := delay as real;
    assert d * multiplier - d == d * (multiplier - 1.0) >= 0.0;
  }

  lemma {:induction false} FixedPointStays(delay: Time, multiplier: real, n: nat)
    requires Grow(delay, multiplier) == delay
    ensures Compounded(delay, multiplier, n) == delay
  {
    if n > 0 {
      FixedPointStays(delay, multiplier, n - 1);
    }
  }

  /** Under the bounds configuration enforces, giving up on compounding early changes nothing. */
  lemma {:induction false} GrownIsCompounded(delay: Time, multiplier: real, n: nat)
    requires delay >= 0 && multiplier >= 1.0
    ensures Grown(delay, multiplier, n) == Compounded(delay, multiplier, n)
    decreases n
  {
    if n > 0 {
      GrowKeepsOrder(delay, multiplier);
      if Grow(delay, multiplier) == delay {
        FixedPointStays(delay, multiplier, n);
      } else {
        GrownIsCompounded(Grow(delay, multiplier), multiplier, n - 1);
      }
    }
  }

  lemma {:induction false} GrownIsMonotone(delay: Time, multiplier: real, m: nat, n: nat)
    requires m <= n
    ensures Grown(delay, multiplier, m) <= Grown(delay, multiplier, n)
    decreases m
  {
    if m > 0 && Grow(delay, multiplier) > delay {
      GrownIsMonotone(Grow(delay, multiplier), multiplier, m - 1, n - 1);
    }
  }

  /** For every policy: later retries never wait less, and a positive MaxDelay is never exceeded. */
  lemma BackoffIsMonotoneAndCapped(p: RetryPolicy, a: int, b: int)
    requires 1 <= a <= b
    ensures Backoff(p, a) <= Backoff(p, b)
    ensures p.maxDelay > 0 ==> Backoff(p, b) <= p.maxDelay
  {
    GrownIsMonotone(p.baseDelay, p.multiplier, a - 1, b - 1);
  }

  function Power(m: nat, n: nat): nat {
    if n == 0 then 1 else m * Power(m, n - 1)
  }

  lemma GrowByInteger(delay: Time, m: nat)
    requires delay >= 0
    ensures Grow(delay, m as real) == delay * m
  {
    assert delay as real * m as real == (delay * m) as real;
    assert delay * m >= 0;
  }

  lemma Reassociate(a: int, b: int, c: int)
    ensures a * b * c == a * (b * c)
  {
  }

  lemma {:induction false} CompoundedByInteger(delay: Time, m: nat, n: nat)
    requires delay >= 0
    ensures Compounded(delay, m as real, n) == delay * Power(m, n)
    decreases n
  {
    if n > 0 {
      GrowByInteger(delay, m);
      CompoundedByInteger(delay * m, m, n - 1);
      Reassociate(delay, m, Power(m, n - 1));
      hide Grow;
    }
  }

  /** The closed form an operator reads the configuration as: Base * m^(attempt-1), cut off at MaxDelay. */
  lemma BackoffClosedForm(p: RetryPolicy, m: nat, attempt: int)
    requires p.baseDelay >= 0 && m >= 1 && p.multiplier == m as real && attempt >= 1
    ensures var uncapped := p.baseDelay * Power(m, attempt - 1);
            Backoff(p, attempt) == if p.maxDelay > 0 && uncapped > p.maxDelay then p.maxDelay else uncapped
  {
    GrownIsCompounded(p.baseDelay, p.multiplier, attempt - 1);
    CompoundedByInteger(p.baseDelay, m, attempt - 1);
  }

  /** Only a failure that is transient, was asked to be retried, and is within budget is repeated. */
  predicate ShouldRetry(o: Outcome, e: Evaluation, retriesSoFar: nat, policy: RetryPolicy) {
    !e.taskSucceeded && e.retry && o.transient && retriesSoFar < policy.maxRetries
  }
}
