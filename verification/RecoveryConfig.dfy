/** Recovery settings: what makes them valid, and the delay before each attempt. Delays are computed over
    exact reals and cut down to whole milliseconds. */
module RecoveryConfigs {
  import opened Results

  datatype RecoveryPolicy = NoRecovery | ComponentRestart | SessionRestart | FailSession

  datatype RecoveryConfig = RecoveryConfig(
    enabled: bool, maxAttempts: nat, windowMs: nat,
    backoffInitialMs: nat, backoffMultiplier: real, backoffMaxMs: nat,
    allowComponentRestart: bool, allowSessionRestart: bool, defaultPolicy: RecoveryPolicy)

  function Validate(c: RecoveryConfig): Result<()> {
    if c.maxAttempts == 0 then Failure(RecoveryPreconditionFailed)
    else if c.windowMs < 100 then Failure(RecoveryPreconditionFailed)
    else if c.backoffMultiplier < 1.0 then Failure(RecoveryPreconditionFailed)
    else if c.backoffMaxMs < c.backoffInitialMs then Failure(RecoveryPreconditionFailed)
    else Success(())
  }

  function Pow(base: real, n: nat): real {
    if n == 0 then 1.0 else base * Pow(base, n - 1)
  }

  function Min(a: real, b: real): real {
    if b < a then b else a
  }

  /** The delay before the given attempt, without its limit. */
  function Growing(c: RecoveryConfig, attempt: nat): real
    requires attempt > 0
  {
    c.backoffInitialMs as real * Pow(c.backoffMultiplier, attempt - 1)
  }

  /** The delay before the given attempt, before truncation. */
  function Delay(c: RecoveryConfig, attempt: nat): real
    requires attempt > 0
  {
    Min(Growing(c, attempt), c.backoffMaxMs as real)
  }

  function CalculateBackoff(c: RecoveryConfig, attempt: nat): int {
    if attempt == 0 || c.backoffInitialMs == 0 then 0 else Delay(c, attempt).Floor
  }

  lemma {:induction false} PowGrows(base: real, m: nat, n: nat)
    requires base >= 1.0 && m <= n
    ensures 1.0 <= Pow(base, m) <= Pow(base, n)
  {
    if n > 0 {
      if m == n {
        PowGrows(base, n - 1, n - 1);
        Stretch(base, Pow(base, n - 1));
      } else {
        PowGrows(base, m, n - 1);
        Stretch(base, Pow(base, n - 1));
      }
    }
  }

  lemma Stretch(a: real, x: real)
    requires a >= 1.0 && x >= 0.0
    ensures x <= a * x
  {
    assert (a - 1.0) * x >= 0.0;
  }

  lemma ScaleUp(a: real, x: real, y: real)
    requires a >= 0.0 && x <= y
    ensures a * x <= a * y
  {
    assert a * (y - x) >= 0.0;
  }

  /** Exactly which settings are valid. */
  lemma ValidSettings(c: RecoveryConfig)
    ensures Validate(c).Success? <==>
              c.maxAttempts > 0 && c.windowMs >= 100 && c.backoffMultiplier >= 1.0
              && c.backoffInitialMs <= c.backoffMaxMs
    ensures Validate(c).Failure? ==> Validate(c).code == RecoveryPreconditionFailed
  {
  }

  /** The first attempt waits the initial delay; without one nobody waits. */
  lemma FirstBackoff(c: RecoveryConfig)
    requires Validate(c).Success?
    ensures CalculateBackoff(c, 1) == c.backoffInitialMs && CalculateBackoff(c, 0) == 0
    ensures c.backoffInitialMs == 0 ==> forall attempt :: CalculateBackoff(c, attempt) == 0
  {
    if c.backoffInitialMs > 0 {
      assert Pow(c.backoffMultiplier, 0) == 1.0;
      assert Delay(c, 1) == c.backoffInitialMs as real;
    }
  }

  /** Every further attempt waits the multiple of the last delay, cut to whole milliseconds, until the largest
      delay is reached. */
  lemma NextBackoff(c: RecoveryConfig, attempt: nat)
    requires Validate(c).Success? && c.backoffInitialMs > 0 && attempt > 0
    ensures var now, next := CalculateBackoff(c, attempt) as real, CalculateBackoff(c, attempt + 1) as real;
            next < c.backoffMaxMs as real ==>
              c.backoffMultiplier * now - 1.0 < next <= c.backoffMultiplier * (now + 1.0)
    ensures CalculateBackoff(c, attempt) == c.backoffMaxMs ==> CalculateBackoff(c, attempt + 1) == c.backoffMaxMs
  {
    var m, x := c.backoffMultiplier, Growing(c, attempt);
    OneAttemptMore(c, attempt);
    PowGrows(m, 0, attempt - 1);
    ScaleUp(c.backoffInitialMs as real, 1.0, Pow(m, attempt - 1));
    Stretch(m, x);
    CutStep(m, x, Growing(c, attempt + 1), c.backoffMaxMs);
  }

  /** One attempt more multiplies the delay before it is limited. */
  lemma OneAttemptMore(c: RecoveryConfig, attempt: nat)
    requires attempt > 0
    ensures Growing(c, attempt + 1) == c.backoffMultiplier * Growing(c, attempt)
  {
    PowStep(c.backoffMultiplier, attempt);
    Exchange(c.backoffInitialMs as real, c.backoffMultiplier, Pow(c.backoffMultiplier, attempt - 1));
  }

  lemma PowStep(base: real, n: nat)
    requires n > 0
    ensures Pow(base, n) == base * Pow(base, n - 1)
  {
  }

  lemma Exchange(a: real, b: real, c: real)
    ensures a * (b * c) == b * (a * c)
  {
  }

  lemma CutStep(m: real, x: real, y: real, max: nat)
    requires m >= 1.0 && x >= 1.0 && y == m * x && x <= y
    ensures var now, next := Min(x, max as real).Floor, Min(y, max as real).Floor;
            && (next < max ==> m * now as real - 1.0 < next as real <= m * (now as real + 1.0))
            && (now == max ==> next == max)
  {
    if Min(y, max as real).Floor < max {
      assert y < max as real && Min(x, max as real) == x && Min(y, max as real) == y;
      FloorStep(m, x, y);
    }
    if Min(x, max as real).Floor == max {
      assert x >= max as real;
    }
  }

  lemma FloorStep(m: real, x: real, y: real)
    requires m >= 1.0 && y == m * x
    ensures m * x.Floor as real - 1.0 < y.Floor as real <= m * (x.Floor as real + 1.0)
  {
    var lo, hi := x.Floor as real, x.Floor as real + 1.0;
    assert lo <= x <= hi;
    ScaleUp(m, lo, x);
    ScaleUp(m, x, hi);
  }

  /** With a whole multiplier this is exact. */
  lemma NextBackoffExactly(c: RecoveryConfig, k: nat, attempt: nat)
    requires Validate(c).Success? && c.backoffInitialMs > 0 && attempt > 0 && c.backoffMultiplier == k as real
    ensures CalculateBackoff(c, attempt + 1) ==
              if k * CalculateBackoff(c, attempt) < c.backoffMaxMs then k * CalculateBackoff(c, attempt)
              else c.backoffMaxMs
  {
    var x := WholeGrowing(c, k, attempt);
    OneAttemptMore(c, attempt);
    WholeProduct(k, x);
    Backoffs(c, attempt);
    Backoffs(c, attempt + 1);
    CutExactly(k, x, c.backoffMaxMs, CalculateBackoff(c, attempt), CalculateBackoff(c, attempt + 1));
  }

  lemma Backoffs(c: RecoveryConfig, attempt: nat)
    requires c.backoffInitialMs > 0 && attempt > 0
    ensures CalculateBackoff(c, attempt) == Min(Growing(c, attempt), c.backoffMaxMs as real).Floor
  {
  }

  lemma WholeGrowing(c: RecoveryConfig, k: nat, attempt: nat) returns (x: nat)
    requires attempt > 0 && c.backoffMultiplier == k as real
    ensures Growing(c, attempt) == x as real
  {
    var n := WholePow(k, attempt - 1);
    WholeProduct(c.backoffInitialMs, n);
    x := c.backoffInitialMs * n;
  }

  lemma CutExactly(k: nat, x: nat, max: nat, now: int, next: int)
    requires k > 0 && now == Min(x as real, max as real).Floor && next == Min((k * x) as real, max as real).Floor
    ensures next == if k * now < max then k * now else max
  {
    AtLeast(k, x);
    AtLeast(k, max);
  }

  lemma AtLeast(k: nat, x: nat)
    requires k > 0
    ensures k * x >= x
  {
  }

  lemma WholeProduct(a: nat, b: nat)
    ensures a as real * b as real == (a * b) as real
  {
  }

  lemma {:induction false} WholePow(k: nat, e: nat) returns (n: nat)
    ensures Pow(k as real, e) == n as real
  {
    if e == 0 {
      n := 1;
    } else {
      var m := WholePow(k, e - 1);
      WholeProduct(k, m);
      n := k * m;
    }
  }

  /** From the first attempt on the delay lies between the initial and the largest one. */
  lemma BackoffBounds(c: RecoveryConfig, attempt: nat)
    requires Validate(c).Success? && c.backoffInitialMs > 0 && attempt > 0
    ensures c.backoffInitialMs <= CalculateBackoff(c, attempt) <= c.backoffMaxMs
  {
    PowGrows(c.backoffMultiplier, 0, attempt - 1);
    ScaleUp(c.backoffInitialMs as real, 1.0, Pow(c.backoffMultiplier, attempt - 1));
    assert c.backoffInitialMs as real <= Growing(c, attempt);
    assert c.backoffInitialMs as real <= Delay(c, attempt) <= c.backoffMaxMs as real;
  }

  /** Later attempts never wait less. */
  lemma BackoffNeverDecreases(c: RecoveryConfig, earlier: nat, later: nat)
    requires Validate(c).Success? && 0 < earlier <= later
    ensures CalculateBackoff(c, earlier) <= CalculateBackoff(c, later)
  {
    PowGrows(c.backoffMultiplier, earlier - 1, later - 1);
    ScaleUp(c.backoffInitialMs as real, Pow(c.backoffMultiplier, earlier - 1), Pow(c.backoffMultiplier, later - 1));
    assert Growing(c, earlier) <= Growing(c, later);
    assert Delay(c, earlier) <= Delay(c, later);
  }

  /** Bernoulli's inequality. */
  lemma {:induction false} PowAtLeast(base: real, n: nat)
    requires base >= 1.0
    ensures Pow(base, n) >= 1.0 + n as real * (base - 1.0)
  {
    if n > 0 {
      PowAtLeast(base, n - 1);
      var x, k := base - 1.0, (n - 1) as real;
      ScaleUp(base, 1.0 + k * x, Pow(base, n - 1));
      assert base * (1.0 + k * x) == 1.0 + k * x + x + k * (x * x);
      assert k * (x * x) >= 0.0;
      assert n as real * x == k * x + x;
    }
  }

  /** With a real growth factor the largest delay is reached after finitely many attempts, for good. */
  lemma BackoffReachesMaximum(c: RecoveryConfig) returns (n: nat)
    requires Validate(c).Success? && c.backoffInitialMs > 0 && c.backoffMultiplier > 1.0
    ensures n > 0 && forall attempt: nat :: attempt >= n ==> CalculateBackoff(c, attempt) == c.backoffMaxMs
  {
    var x := c.backoffMultiplier - 1.0;
    var k := EnoughSteps(x, c.backoffMaxMs as real);
    n := k + 1;
    forall attempt: nat | attempt >= n
      ensures CalculateBackoff(c, attempt) == c.backoffMaxMs
    {
      AtMaximum(c, k, attempt);
    }
  }

  lemma AtMaximum(c: RecoveryConfig, k: nat, attempt: nat)
    requires Validate(c).Success? && c.backoffInitialMs > 0 && attempt > k
    requires k as real * (c.backoffMultiplier - 1.0) >= c.backoffMaxMs as real
    ensures CalculateBackoff(c, attempt) == c.backoffMaxMs
  {
    var base, max := c.backoffMultiplier, c.backoffMaxMs as real;
    var p := Pow(base, attempt - 1);
    assert p >= max by {
      PowAtLeast(base, k);
      PowGrows(base, k, attempt - 1);
    }
    assert c.backoffInitialMs as real * p >= max by {
      Stretch(c.backoffInitialMs as real, p);
    }
    assert Delay(c, attempt) == max;
  }

  /** Without growth every attempt waits the initial delay. */
  lemma {:induction false} BackoffWithoutGrowth(c: RecoveryConfig, attempt: nat)
    requires Validate(c).Success? && c.backoffMultiplier == 1.0 && attempt > 0
    ensures CalculateBackoff(c, attempt) == c.backoffInitialMs
  {
    PowOfOne(attempt - 1);
  }

  lemma {:induction false} PowOfOne(n: nat)
    ensures Pow(1.0, n) == 1.0
  {
    if n > 0 {
      PowOfOne(n - 1);
    }
  }

  lemma EnoughSteps(x: real, bound: real) returns (k: nat)
    requires x > 0.0 && bound >= 0.0
    ensures k as real * x >= bound
  {
    var q := bound / x;
    assert q >= 0.0;
    k := q.Floor + 1;
    assert k as real >= q;
    ScaleUp(x, q, k as real);
    assert x * q == bound;
  }
}
