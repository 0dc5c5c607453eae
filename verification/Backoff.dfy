/** How long to hold back after a failure (src/mailtg_bridge/algorithms.py:35-42).  Times and delays
    are real numbers of seconds; the jitter draw is any number from 0 up to 1. */
module Backoff {

  datatype Failure = FloodWait(seconds: nat) | Transient

  datatype Decision = Decision(notBefore: real, failures: nat)

  function Pow2(n: nat): nat { if n == 0 then 1 else 2 * Pow2(n - 1) }

  function Lesser(a: real, b: real): real { if b < a then b else a }

  function Greater(a: real, b: real): real { if a < b then b else a }

  function Within(minimum: real, maximum: real, x: real): real { Lesser(maximum, Greater(minimum, x)) }

  function Jittered(base: real, draw: real): real { base * (1.0 + 0.1 * draw) }

  function Delay(e: Failure, failures: nat, minimum: real, maximum: real, draw: real): real {
    match e
    case FloodWait(seconds) => Greater(minimum, seconds as real)
    case Transient =>
      var base := Lesser(maximum, minimum * Pow2(failures) as real);
      Within(minimum, maximum, Jittered(base, draw))
  }

  function NextBackoff(e: Failure, failures: nat, minimum: real, maximum: real, now: real, draw: real): Decision {
    Decision(now + Delay(e, failures, minimum, maximum, draw), failures + 1)
  }

  /** `minimum`, doubled `n` times. */
  function Doubled(minimum: real, n: nat): real {
    if n == 0 then minimum else 2.0 * Doubled(minimum, n - 1)
  }

  /** The doubling delay, capped: what a transient failure is held back for at the least. */
  function Floor(failures: nat, minimum: real, maximum: real): real {
    Lesser(maximum, Doubled(minimum, failures))
  }

  /** Over plain numbers: twice the factor is twice the product. */
  lemma {:induction false} TwiceTheFactor(a: real, n: real)
    ensures a * (2.0 * n) == 2.0 * (a * n)
  {}

  lemma {:induction false} DoubledIsPower(minimum: real, n: nat)
    ensures Doubled(minimum, n) == minimum * Pow2(n) as real
  {
    if n > 0 {
      DoubledIsPower(minimum, n - 1);
      TwiceTheFactor(minimum, Pow2(n - 1) as real);
    }
  }

  lemma {:induction false} DoubledAtLeast(minimum: real, n: nat)
    requires 0.0 < minimum
    ensures minimum <= Doubled(minimum, n)
  {
    if n > 0 { DoubledAtLeast(minimum, n - 1); }
  }

  lemma {:induction false} JitterAdds(base: real, draw: real)
    requires 0.0 <= base && 0.0 <= draw
    ensures base <= Jittered(base, draw)
  {}

  lemma {:induction false} WithinBounds(minimum: real, maximum: real, base: real, x: real)
    requires minimum <= maximum && base <= x && base <= maximum
    ensures minimum <= Within(minimum, maximum, x) <= maximum && base <= Within(minimum, maximum, x)
  {}

  lemma {:induction false} TransientBounds(base: real, minimum: real, maximum: real, draw: real)
    requires 0.0 < minimum <= maximum && 0.0 <= base <= maximum && 0.0 <= draw
    ensures var delay := Within(minimum, maximum, Jittered(base, draw));
            minimum <= delay <= maximum && base <= delay
  {
    JitterAdds(base, draw);
    WithinBounds(minimum, maximum, base, Jittered(base, draw));
  }

  /** A flood wait is waited out in full; a transient delay stays between the bounds and never falls
      below the doubling sequence, whatever the jitter. */
  lemma {:induction false} DelayBounds(e: Failure, failures: nat, minimum: real, maximum: real, draw: real)
    requires 0.0 < minimum <= maximum && 0.0 <= draw < 1.0
    ensures minimum <= Delay(e, failures, minimum, maximum, draw)
    ensures e.FloodWait? ==> e.seconds as real <= Delay(e, failures, minimum, maximum, draw)
    ensures e.Transient? ==> Floor(failures, minimum, maximum) <= Delay(e, failures, minimum, maximum, draw) <= maximum
  {
    DoubledIsPower(minimum, failures);
    DoubledAtLeast(minimum, failures);
    TransientBounds(Floor(failures, minimum, maximum), minimum, maximum, draw);
  }

  /** And no longer: a flood wait takes just its seconds, or the minimum if that is more; a transient delay at
      most a tenth above the doubling delay, and at most the maximum. */
  lemma {:induction false} DelayAtMost(e: Failure, failures: nat, minimum: real, maximum: real, draw: real)
    requires 0.0 < minimum <= maximum && 0.0 <= draw < 1.0
    ensures e.FloodWait? ==> Delay(e, failures, minimum, maximum, draw)
                             == if e.seconds as real <= minimum then minimum else e.seconds as real
    ensures e.Transient? ==> Delay(e, failures, minimum, maximum, draw) <= maximum
                             && Delay(e, failures, minimum, maximum, draw) <= 1.1 * Doubled(minimum, failures)
  {
    DoubledIsPower(minimum, failures);
    DoubledAtLeast(minimum, failures);
    var base := Lesser(maximum, Doubled(minimum, failures));
    TransientAtMost(base, minimum, maximum, draw);
  }

  lemma {:induction false} TransientAtMost(base: real, minimum: real, maximum: real, draw: real)
    requires 0.0 < minimum <= maximum && minimum <= base <= maximum && 0.0 <= draw < 1.0
    ensures Within(minimum, maximum, Jittered(base, draw)) <= 1.1 * base
  {
    JitterAdds(base, draw);
    JitterAtMost(base, draw);
  }

  lemma {:induction false} JitterAtMost(base: real, draw: real)
    requires 0.0 <= base && 0.0 <= draw < 1.0
    ensures Jittered(base, draw) <= 1.1 * base
  {
    assert base * draw <= base * 1.0;
    assert Jittered(base, draw) == base + 0.1 * (base * draw);
  }

  /** Without jitter the first transient failure costs the minimum, and each further one twice the one before,
      up to the maximum. */
  lemma {:induction false} DelaysDouble(failures: nat, minimum: real, maximum: real)
    requires 0.0 < minimum <= maximum
    ensures Delay(Transient, 0, minimum, maximum, 0.0) == minimum
    ensures var twice := 2.0 * Delay(Transient, failures, minimum, maximum, 0.0);
            Delay(Transient, failures + 1, minimum, maximum, 0.0) == if twice <= maximum then twice else maximum
  {
    UnjitteredDelay(0, minimum, maximum);
    UnjitteredDelay(failures, minimum, maximum);
    UnjitteredDelay(failures + 1, minimum, maximum);
  }

  lemma {:induction false} UnjitteredDelay(failures: nat, minimum: real, maximum: real)
    requires 0.0 < minimum <= maximum
    ensures Delay(Transient, failures, minimum, maximum, 0.0)
            == if Doubled(minimum, failures) <= maximum then Doubled(minimum, failures) else maximum
  {
    DoubledIsPower(minimum, failures);
    DoubledAtLeast(minimum, failures);
    var base := Lesser(maximum, Doubled(minimum, failures));
    assert Jittered(base, 0.0) == base;
  }

  /** The least time that `k` transient failures in a row are held back for, in all. */
  function Span(k: nat, minimum: real, maximum: real): real {
    if k == 0 then 0.0 else Span(k - 1, minimum, maximum) + Floor(k - 1, minimum, maximum)
  }

  /** Below the cap the delays double, so together they come to what the last doubling adds. */
  lemma {:induction false} SpanIsDoubled(k: nat, minimum: real, maximum: real)
    requires 0.0 < minimum <= maximum
    requires k > 0 ==> Doubled(minimum, k - 1) <= maximum
    ensures Span(k, minimum, maximum) == Doubled(minimum, k) - minimum
  {
    if k > 0 {
      if k > 1 { DoubledAtLeast(minimum, k - 2); }
      SpanIsDoubled(k - 1, minimum, maximum);
    }
  }

  lemma {:induction false} LessOne(a: real, n: real)
    ensures a * n - a == a * (n - 1.0)
  {}

  /** That is minimum * (2^k - 1). */
  lemma {:induction false} SpanBelowCap(k: nat, minimum: real, maximum: real)
    requires 0.0 < minimum <= maximum
    requires k > 0 ==> minimum * Pow2(k - 1) as real <= maximum
    ensures Span(k, minimum, maximum) == minimum * (Pow2(k) as real - 1.0)
  {
    if k > 0 { DoubledIsPower(minimum, k - 1); }
    DoubledIsPower(minimum, k);
    SpanIsDoubled(k, minimum, maximum);
    LessOne(minimum, Pow2(k) as real);
  }
}
