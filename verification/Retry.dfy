// Backoff arithmetic of core/execution/retry.go.

module Retry {
  import opened Option

  datatype Strategy = Constant | Linear | Exponential | OtherStrategy(name: string)

  // Durations are int64 nanoseconds.
  datatype Policy = Policy(maxAttempts: int, strategy: Strategy, baseDelay: int, maxDelay: int, jitter: bool)

  const MIN_INT64: int := -0x8000_0000_0000_0000
  const MAX_INT64: int := 0x7FFF_FFFF_FFFF_FFFF
  const TWO_64: int := 0x1_0000_0000_0000_0000
  const CAP: int := 1000000

  predicate Fits(x: int) { MIN_INT64 <= x <= MAX_INT64 }

  // Two's complement truncation of a product to 64 bits.
  function Wrap(x: int): (r: int)
    ensures Fits(r)
    ensures r == x <==> Fits(x)
  {
    (x - MIN_INT64) % TWO_64 + MIN_INT64
  }

  function Pow2(n: nat): (r: nat)
    ensures r >= 1
  {
    if n == 0 then 1 else 2 * Pow2(n - 1)
  }

  function Min(a: int, b: int): int { if a < b then a else b }

  // The exponential factor: doubling per attempt, capped.
  function Multiplier(attempt: nat): int
    requires attempt >= 1
  {
    Min(Pow2(attempt - 1), CAP)
  }

  // The attempt number CalculateBackoff really uses.
  function Effective(attempt: int): (a: nat)
    ensures a >= 1
  {
    if attempt <= 0 then 1 else attempt
  }

  // The mathematical delay before clamping.
  function Ideal(p: Policy, attempt: int): int {
    match p.strategy
    case Constant => p.baseDelay
    case Linear => p.baseDelay * Effective(attempt)
    case Exponential => p.baseDelay * Multiplier(Effective(attempt))
    case OtherStrategy(_) => p.baseDelay
  }

  function Clamp(p: Policy, delay: int): int {
    if p.maxDelay > 0 && delay > p.maxDelay then p.maxDelay else delay
  }

  // The delay before jitter, on 64-bit arithmetic.
  function Delay(p: Policy, attempt: int): int { Clamp(p, Wrap(Ideal(p, attempt))) }

  lemma {:induction false} Pow2Monotone(a: nat, b: nat)
    requires a <= b
    ensures Pow2(a) <= Pow2(b)
  {
    if a < b { Pow2Monotone(a, b - 1); }
  }

  // randVal stands for the number globalRand.Intn draws; Intn needs a positive argument and
  // draws below it.
  method CalculateBackoff(policy: Option<Policy>, attemptArg: int, draw: int -> int) returns (delay: int)
    requires policy.Some? ==> Fits(policy.value.baseDelay) && Fits(policy.value.maxDelay) && Fits(attemptArg)
    requires forall n :: 0 < n ==> 0 <= draw(n) < n
    ensures policy.None? ==> delay == 0
    ensures policy.Some? ==>
      var d := Delay(policy.value, attemptArg);
      if policy.value.jitter && d > 0 then delay == draw(d) && 0 <= delay < d else delay == d
  {
    if policy.None? { return 0; }
    var p := policy.value;
    var attempt := attemptArg;
    if attempt <= 0 { attempt := 1; }
    match p.strategy {
      case Constant => delay := p.baseDelay;
      case Linear => delay := Wrap(p.baseDelay * attempt);
      case Exponential =>
        var multiplier := 1;
        var i := 1;
        var capped := false;
        while i < attempt && !capped
          invariant 1 <= i <= attempt
          invariant !capped ==> multiplier == Pow2(i - 1) <= CAP
          invariant capped ==> multiplier == CAP && CAP < Pow2(attempt - 1)
          decreases attempt - i, !capped
        {
          multiplier := multiplier * 2;
          if multiplier > CAP {
            multiplier := CAP;
            Pow2Monotone(i, attempt - 1);
            capped := true;
          } else {
            i := i + 1;
          }
        }
        delay := Wrap(p.baseDelay * multiplier);
      case OtherStrategy(_) => delay := p.baseDelay;
    }
    assert Wrap(Ideal(p, attemptArg)) == delay;
    if p.maxDelay > 0 && delay > p.maxDelay { delay := p.maxDelay; }
    if p.jitter && delay > 0 { delay := draw(delay); }
  }

  // ---------------------------------------------------------------- meaning

  // The delay is the clamped mathematical value exactly when the product fits in 64 bits, or
  // when both the product and its truncation reach a positive MaxDelay.
  lemma DelayExactIff(p: Policy, attempt: int)
    requires Fits(p.maxDelay)
    ensures Delay(p, attempt) == Clamp(p, Ideal(p, attempt)) <==>
      (Fits(Ideal(p, attempt))
       || (p.maxDelay > 0 && Ideal(p, attempt) > MAX_INT64 && Wrap(Ideal(p, attempt)) >= p.maxDelay))
  {
  }

  // An overflow is reachable: three hours doubled to the cap wrap to a negative delay, which
  // no MaxDelay clamps.
  lemma OverflowWitness()
    ensures var p := Policy(30, Exponential, 10_800_000_000_000, 30_000_000_000, false);
      Delay(p, 21) < 0 && Clamp(p, Ideal(p, 21)) == p.maxDelay
  {
    assert Pow2(10) == 1024;
    Pow2Split(10, 10);
    assert Multiplier(21) == CAP;
  }

  lemma {:induction false} Pow2Split(a: nat, b: nat)
    ensures Pow2(a + b) == Pow2(a) * Pow2(b)
  {
    if a > 0 {
      Pow2Split(a - 1, b);
      assert 2 * Pow2(a - 1 + b) == 2 * (Pow2(a - 1) * Pow2(b));
    }
  }

  lemma MulMonotone(base: int, a: int, b: int)
    requires base >= 0 && a <= b
    ensures base * a <= base * b
  {
  }

  lemma IdealMonotone(p: Policy, a: int, b: int)
    requires p.baseDelay >= 0 && a <= b
    ensures 0 <= Ideal(p, a) <= Ideal(p, b)
  {
    var m, n := Effective(a), Effective(b);
    match p.strategy
    case Linear =>
      MulMonotone(p.baseDelay, m, n);
    case Exponential =>
      Pow2Monotone(m - 1, n - 1);
      MulMonotone(p.baseDelay, Multiplier(m), Multiplier(n));
    case _ =>
  }

  // Without jitter and overflow, no strategy ever shortens the delay from one attempt to a later one.
  lemma DelayMonotone(p: Policy, a: int, b: int)
    requires p.baseDelay >= 0 && a <= b
    requires Fits(Ideal(p, b))
    ensures 0 <= Delay(p, a) <= Delay(p, b)
  {
    IdealMonotone(p, a, b);
    assert Fits(Ideal(p, a));
  }

  // The delays of the three strategies, with no MaxDelay and no overflow: constant ones equal
  // the base; linear ones start with it and grow by it; exponential ones start with it, double
  // while the factor stays within a million, and are a million times the base from then on. An
  // attempt number below 1 counts as 1, and an unknown strategy as constant.
  lemma DelaysGrow(p: Policy, attempt: int)
    requires p.maxDelay <= 0 && Fits(p.baseDelay) && Fits(Ideal(p, attempt)) && Fits(Ideal(p, attempt + 1))
    ensures attempt < 1 ==> Delay(p, attempt) == Delay(p, 1)
    ensures Delay(p, 1) == p.baseDelay
    ensures p.strategy.Constant? || p.strategy.OtherStrategy? ==> Delay(p, attempt) == p.baseDelay
    ensures p.strategy.Linear? && attempt >= 1 ==> Delay(p, attempt + 1) == Delay(p, attempt) + p.baseDelay
    ensures p.strategy.Exponential? && attempt >= 1 ==>
      Delay(p, attempt + 1) == if Pow2(attempt) <= 1000000 then 2 * Delay(p, attempt) else p.baseDelay * 1000000
  {
    var b := p.baseDelay;
    assert b * 1 == b;
    if attempt >= 1 {
      assert b * (attempt + 1) == b * attempt + b;
      assert Pow2(attempt) == 2 * Pow2(attempt - 1);
      assert b * (2 * Pow2(attempt - 1)) == 2 * (b * Pow2(attempt - 1));
    }
  }

  // A positive MaxDelay caps the delay and does nothing else.
  lemma MaxDelayCaps(p: Policy, attempt: int)
    ensures var free := Delay(p.(maxDelay := 0), attempt);
      Delay(p, attempt) == if p.maxDelay > 0 && free > p.maxDelay then p.maxDelay else free
  {
  }

  // The delay between attempts in the Python SDK (get_delay), before its own jitter, over reals.
  function SdkDelay(base: real, max: real, attempt: int): real {
    if attempt <= 0 then 0.0
    else if base * Pow2(attempt - 1) as real < max then base * Pow2(attempt - 1) as real else max
  }

  // Whenever the cap on the multiplier cannot bite before MaxDelay does, the engine and the
  // SDK wait equally long.
  lemma AgreesWithSdk(p: Policy, attempt: int)
    requires p.strategy == Exponential && attempt >= 1 && p.baseDelay >= 0
    requires 0 < p.maxDelay <= p.baseDelay * CAP
    requires Fits(Ideal(p, attempt))
    ensures Delay(p, attempt) as real == SdkDelay(p.baseDelay as real, p.maxDelay as real, attempt)
  {
    var m := Pow2(attempt - 1);
    assert p.baseDelay as real * m as real == (p.baseDelay * m) as real;
    if m > CAP {
      MulMonotone(p.baseDelay, CAP, m);
    }
  }

  // The engine and the SDK wait equally long before every attempt exactly when MaxDelay is
  // reached before the multiplier is capped, or there is nothing to multiply.
  lemma AgreesWithSdkIff(p: Policy)
    requires p.strategy == Exponential && p.baseDelay >= 0 && p.maxDelay > 0 && Fits(p.baseDelay * CAP)
    ensures (forall attempt: nat :: attempt >= 1 ==>
               Delay(p, attempt) as real == SdkDelay(p.baseDelay as real, p.maxDelay as real, attempt))
       <==> (p.baseDelay == 0 || p.maxDelay <= p.baseDelay * CAP)
  {
    var base, max := p.baseDelay, p.maxDelay;
    if base == 0 || max <= base * CAP {
      forall attempt: nat | attempt >= 1
        ensures Delay(p, attempt) as real == SdkDelay(base as real, max as real, attempt)
      {
        FitsCapped(base, Multiplier(attempt));
        if base == 0 { NothingToMultiply(p, attempt); } else { AgreesWithSdk(p, attempt); }
      }
    } else {
      CapDiffers(p);
    }
  }

  lemma FitsCapped(base: int, m: int)
    requires base >= 0 && 1 <= m <= CAP && Fits(base * CAP)
    ensures Fits(base * m)
  {
    MulMonotone(base, m, CAP);
  }

  lemma NothingToMultiply(p: Policy, attempt: nat)
    requires p.strategy == Exponential && attempt >= 1 && p.baseDelay == 0 && p.maxDelay > 0
    ensures Delay(p, attempt) == 0 && SdkDelay(0.0, p.maxDelay as real, attempt) == 0.0
  {
    assert 0 * Multiplier(attempt) == 0;
    assert 0.0 * Pow2(attempt - 1) as real == 0.0;
  }

  // At attempt 21 the cap of the multiplier shows.
  lemma CapDiffers(p: Policy)
    requires p.strategy == Exponential && p.baseDelay > 0 && p.maxDelay > p.baseDelay * CAP && Fits(p.baseDelay * CAP)
    ensures Delay(p, 21) as real < SdkDelay(p.baseDelay as real, p.maxDelay as real, 21)
  {
    var base, m := p.baseDelay, Pow2(20);
    assert Pow2(10) == 1024;
    Pow2Split(10, 10);
    assert m == 1048576 && Multiplier(21) == CAP;
    assert base as real * m as real == (base * m) as real;
    MulMonotone(base, CAP + 1, m);
    assert base * (CAP + 1) == base * CAP + base;
    FitsCapped(base, CAP);
  }

  // A requested backoff never exceeds a positive MaxDelay, whatever overflowed.
  lemma DelayAtMostMax(p: Policy, attempt: int)
    requires p.maxDelay > 0
    ensures Delay(p, attempt) <= p.maxDelay
  {
  }
}
