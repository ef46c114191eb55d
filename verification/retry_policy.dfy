/** The retry policy: its defaults, queue names and backoff schedule. */
module RetryPolicies {
  // Durations are in nanoseconds, as Go's time.Duration.
  const SECOND := 1_000_000_000
  const MILLISECOND := 1_000_000
  const FIVE_MINUTES := 300 * SECOND

  const DEFAULT_MAX_RETRIES := 3

  datatype RetryPolicy = RetryPolicy(
    maxRetries: int,
    backoff: int,
    multiplier: real,
    maxBackoff: int,
    retryQueue: string,
    dlq: string)
  {
    function MaxRetries(): nat {
      if maxRetries == 0 then DEFAULT_MAX_RETRIES else if maxRetries < 0 then 0 else maxRetries
    }

    function RetryQueueFor(queue: string): string {
      if retryQueue != "" then retryQueue else queue + ".retry"
    }

    function DlqFor(queue: string): string {
      if dlq != "" then dlq else queue + ".dlq"
    }

    function Base(): int {
      if backoff <= 0 then SECOND else backoff
    }

    function Multiplier(): real {
      if multiplier >= 1.0 then multiplier else if multiplier == 0.0 then 2.0 else 1.0
    }

    function Cap(): int {
      if maxBackoff <= 0 then FIVE_MINUTES else maxBackoff
    }

    /** The uncapped exponential delay before retry number `attempt` (1-based). */
    function Exponential(attempt: int): real {
      Grown(Base() as real, Multiplier(), Multiplications(attempt))
    }

    /** The delay before retry number `attempt`. */
    function Delay(attempt: int): int {
      Min(Exponential(attempt).Floor, Cap())
    }
  }

  function Min(a: int, b: int): int {
    if a <= b then a else b
  }

  /** How often a delay has been multiplied by retry number `attempt`. */
  function Multiplications(attempt: int): nat {
    if attempt <= 1 then 0 else attempt - 1
  }

  /** A duration after n multiplications. */
  function Grown(d: real, mult: real, n: nat): real {
    if n == 0 then d else Grown(d, mult, n - 1) * mult
  }

  function Pow(x: real, n: nat): real {
    if n == 0 then 1.0 else x * Pow(x, n - 1)
  }

  lemma {:induction false} GrownIsPower(d: real, mult: real, n: nat)
    ensures Grown(d, mult, n) == d * Pow(mult, n)
  {
    if n > 0 {
      GrownIsPower(d, mult, n - 1);
      SwapFactors(d, mult, Pow(mult, n - 1));
    }
  }

  lemma SwapFactors(b: real, x: real, y: real)
    ensures b * (x * y) == (b * y) * x
  {
  }

  /** The uncapped delay in closed form: base * multiplier^(attempt - 1), from the first attempt on. */
  lemma ExponentialClosedForm(p: RetryPolicy, attempt: int)
    ensures attempt >= 1 ==> p.Exponential(attempt) == p.Base() as real * Pow(p.Multiplier(), attempt - 1)
    ensures attempt <= 1 ==> p.Exponential(attempt) == p.Base() as real
  {
    if attempt >= 1 {
      GrownIsPower(p.Base() as real, p.Multiplier(), attempt - 1);
    }
  }

  /** The uncapped delay attempt by attempt: the base first, then each one times the multiplier. */
  lemma ExponentialSteps(p: RetryPolicy, attempt: int)
    ensures p.Exponential(1) == p.Base() as real
    ensures attempt >= 1 ==> p.Exponential(attempt + 1) == p.Exponential(attempt) * p.Multiplier()
  {
  }

  /** A delay is the uncapped one in whole nanoseconds while that is below the cap, and else the cap. */
  lemma DelayIsCut(p: RetryPolicy, attempt: int)
    ensures p.Exponential(attempt) >= p.Cap() as real ==> p.Delay(attempt) == p.Cap()
    ensures p.Exponential(attempt) < p.Cap() as real ==> p.Delay(attempt) == p.Exponential(attempt).Floor
  {
  }

  /** The values a policy's own fields stand for, defaults included: 1 s, doubled, up to 5 min, 3 times. */
  lemma Defaults(p: RetryPolicy, queue: string)
    ensures p.backoff <= 0 ==> p.Base() == 1_000_000_000
    ensures p.backoff > 0 ==> p.Base() == p.backoff
    ensures p.multiplier == 0.0 ==> p.Multiplier() == 2.0
    ensures p.multiplier < 1.0 && p.multiplier != 0.0 ==> p.Multiplier() == 1.0
    ensures p.multiplier >= 1.0 ==> p.Multiplier() == p.multiplier
    ensures p.maxBackoff <= 0 ==> p.Cap() == 5 * 60 * 1_000_000_000
    ensures p.maxBackoff > 0 ==> p.Cap() == p.maxBackoff
    ensures p.maxRetries == 0 ==> p.MaxRetries() == 3
    ensures p.maxRetries < 0 ==> p.MaxRetries() == 0
    ensures p.maxRetries > 0 ==> p.MaxRetries() == p.maxRetries
    ensures p.RetryQueueFor(queue) == if p.retryQueue == "" then queue + ".retry" else p.retryQueue
    ensures p.DlqFor(queue) == if p.dlq == "" then queue + ".dlq" else p.dlq
  {
  }

  /** The default schedule: one second, two, four. */
  lemma DefaultSchedule(p: RetryPolicy)
    requires p.backoff == 0 && p.multiplier == 0.0 && p.maxBackoff == 0
    ensures p.Delay(1) == 1_000_000_000 && p.Delay(2) == 2_000_000_000 && p.Delay(3) == 4_000_000_000
  {
    ExponentialSteps(p, 1);
    ExponentialSteps(p, 2);
  }

  lemma {:induction false} GrownMonotone(d: real, mult: real, m: nat, n: nat)
    requires d >= 0.0 && mult >= 1.0 && m <= n
    ensures d <= Grown(d, mult, m) <= Grown(d, mult, n)
    decreases n
  {
    if n > 0 {
      GrownMonotone(d, mult, 0, n - 1);
      ScaleUp(Grown(d, mult, n - 1), mult);
      if m < n {
        GrownMonotone(d, mult, m, n - 1);
      }
    }
  }

  lemma ScaleUp(y: real, x: real)
    requires x >= 1.0 && y >= 0.0
    ensures y * x >= y
  {
    assert y * (x - 1.0) >= 0.0;
  }

  lemma ExponentialMonotone(p: RetryPolicy, a: int, b: int)
    requires a <= b
    ensures p.Base() as real <= p.Exponential(a) <= p.Exponential(b)
  {
    GrownMonotone(p.Base() as real, p.Multiplier(), Multiplications(a), Multiplications(b));
  }

  /** Growing a duration until it reaches the cap; the early exit there changes nothing. */
  method GrowToCap(base: int, mult: real, cap: int, attempt: int) returns (delay: int)
    requires base >= 0 && mult >= 1.0
    ensures delay == Min(Grown(base as real, mult, Multiplications(attempt)).Floor, cap)
  {
    var d := base as real;
    var i := 1;
    while i < attempt
      invariant 1 <= i && (i <= attempt || i == 1)
      invariant d == Grown(base as real, mult, i - 1)
    {
      d := d * mult;
      if d >= cap as real {
        GrownMonotone(base as real, mult, i, attempt - 1);
        return cap;
      }
      i := i + 1;
    }
    delay := Min(d.Floor, cap);
  }

  /** The delay before a retry: the policy's values or their defaults, then the loop. */
  method Backoff(p: RetryPolicy, attempt: int) returns (delay: int)
    ensures delay == p.Delay(attempt)
  {
    var base := p.backoff;
    if base <= 0 {
      base := SECOND;
    }
    var mult := p.multiplier;
    if mult < 1.0 {
      if mult == 0.0 {
        mult := 2.0;
      } else {
        mult := 1.0;
      }
    }
    var maxB := p.maxBackoff;
    if maxB <= 0 {
      maxB := FIVE_MINUTES;
    }
    delay := GrowToCap(base, mult, maxB, attempt);
  }

  /** Every delay is a positive duration no longer than the cap, whatever the policy and attempt. */
  lemma DelayInRange(p: RetryPolicy, attempt: int)
    ensures 0 < p.Delay(attempt) <= p.Cap()
  {
    ExponentialMonotone(p, attempt, attempt);
  }

  /** Later retries never wait less than earlier ones. */
  lemma DelayMonotone(p: RetryPolicy, a: int, b: int)
    requires a <= b
    ensures p.Delay(a) <= p.Delay(b)
  {
    ExponentialMonotone(p, a, b);
  }

  /** Once one attempt is at the cap, so is every later one. */
  lemma CapIsAbsorbing(p: RetryPolicy, a: int, b: int)
    requires a <= b && p.Delay(a) == p.Cap()
    ensures p.Delay(b) == p.Cap()
  {
    DelayMonotone(p, a, b);
    DelayInRange(p, b);
  }

  /** With the default queue names the three queues of a retry topology never coincide. */
  lemma DefaultNamesDistinct(p: RetryPolicy, queue: string)
    requires p.retryQueue == "" && p.dlq == ""
    ensures queue != p.RetryQueueFor(queue) && queue != p.DlqFor(queue)
    ensures p.RetryQueueFor(queue) != p.DlqFor(queue)
  {
    assert |queue + ".retry"| == |queue| + 6;
    assert |queue + ".dlq"| == |queue| + 4;
  }
}
