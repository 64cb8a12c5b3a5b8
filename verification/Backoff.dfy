/**
  The retry delay: two seconds doubled once per retry, capped at five minutes, computed
  in 64-bit signed arithmetic and, below the cap, replaced by a random draw.
*/
module Backoff {

  const SECOND := 1_000_000_000
  const BASE_DELAY := 2 * SECOND
  const MAX_DELAY := 300 * SECOND

  /** The largest retry count for which a delay can be computed (see NoPanicExactly). */
  const LAST_SAFE_RETRY := 32

  /** The value a 64-bit two's complement register keeps of x. */
  function Wrap64(x: int): int {
    (x + 0x8000_0000_0000_0000) % 0x1_0000_0000_0000_0000 - 0x8000_0000_0000_0000
  }

  function Pow2(n: nat): nat {
    if n == 0 then 1 else 2 * Pow2(n - 1)
  }

  /** 1 << n on int64: the bit falls off the register from 64 on. */
  function ShiftOne(n: nat): int {
    if n < 64 then Wrap64(Pow2(n)) else 0
  }

  function ExpDelay(retry: nat): int {
    Wrap64(BASE_DELAY * ShiftOne(retry))
  }

  /** A delay in nanoseconds, or a run-time panic of the calling goroutine. */
  datatype Delay = Panic | Wait(ns: int)

  /** `draw` is the random source: Int63n(n) is some number below n, and panics when n <= 0.
      A negative shift count panics too. */
  function CalculateBackoffDelay(retry: int, draw: nat): Delay {
    if retry < 0 then Panic
    else
      var expDelay := ExpDelay(retry);
      if expDelay > MAX_DELAY then Wait(MAX_DELAY)
      else if expDelay <= 0 then Panic
      else Wait(draw % expDelay)
  }

  /** time.Now().Add(delay).Unix(): the whole second in which the delay ends. */
  function RunAt(clock: int, delay: int): int {
    (clock + delay) / SECOND
  }

  lemma {:induction false} Pow2Monotone(m: nat, n: nat)
    requires m <= n
    ensures Pow2(m) <= Pow2(n)
  {
    if m < n {
      Pow2Monotone(m, n - 1);
    }
  }

  lemma {:induction false} Pow2Sum(m: nat, n: nat)
    ensures Pow2(m + n) == Pow2(m) * Pow2(n)
  {
    if n > 0 {
      Pow2Sum(m, n - 1);
    }
  }

  lemma WrapIdentity(x: int)
    requires -0x8000_0000_0000_0000 <= x < 0x8000_0000_0000_0000
    ensures Wrap64(x) == x
  {
  }

  lemma Pow2Of32()
    ensures Pow2(32) == 0x1_0000_0000
  {
    assert Pow2(8) == 0x100;
    Pow2Sum(8, 8);
    Pow2Sum(16, 16);
  }

  /** Up to 32 retries nothing wraps around. */
  lemma NoOverflow(retry: nat)
    requires retry <= LAST_SAFE_RETRY
    ensures ExpDelay(retry) == BASE_DELAY * Pow2(retry)
    ensures 0 < ExpDelay(retry)
    ensures Pow2(32) == 0x1_0000_0000
  {
    Pow2Monotone(0, retry);
    Pow2Monotone(retry, 32);
    Pow2Of32();
    WrapIdentity(Pow2(retry));
    WrapIdentity(BASE_DELAY * Pow2(retry));
  }

  /** What a caller gets: within [0, 5 min], below 2^(retry+1) seconds while the doubling
      is under the cap (up to 7), and exactly the cap from 8 on. */
  lemma DelayRange(retry: nat, draw: nat)
    requires retry <= LAST_SAFE_RETRY
    ensures CalculateBackoffDelay(retry, draw).Wait?
    ensures
      var d := CalculateBackoffDelay(retry, draw).ns;
      && 0 <= d <= MAX_DELAY
      && (retry <= 7 ==> d < SECOND * Pow2(retry + 1))
      && (retry >= 8 ==> d == MAX_DELAY)
  {
    NoOverflow(retry);
    if retry <= 7 {
      BelowCap(retry);
      Remainder(draw, ExpDelay(retry));
    } else {
      AboveCap(retry);
    }
  }

  lemma BelowCap(retry: nat)
    requires retry <= 7
    ensures BASE_DELAY * Pow2(retry) == SECOND * Pow2(retry + 1) <= MAX_DELAY
  {
    Pow2Monotone(retry, 7);
    assert Pow2(7) == 128 && Pow2(retry + 1) == 2 * Pow2(retry);
  }

  lemma AboveCap(retry: nat)
    requires retry >= 8
    ensures BASE_DELAY * Pow2(retry) > MAX_DELAY
  {
    Pow2Monotone(8, retry);
    assert Pow2(8) == 256;
  }

  lemma Remainder(draw: nat, n: nat)
    requires 0 < n
    ensures 0 <= draw % n < n
  {
  }

  /** Every delay the capped doubling allows is actually drawn for some random source. */
  lemma EveryDelayPossible(retry: nat, d: nat)
    requires retry <= 7 && d < SECOND * Pow2(retry + 1)
    ensures CalculateBackoffDelay(retry, d) == Wait(d)
  {
    NoOverflow(retry);
    Pow2Monotone(retry, 7);
    assert Pow2(7) == 128;
    BelowDraw(retry, d);
  }

  lemma BelowDraw(retry: nat, d: nat)
    requires ExpDelay(retry) == BASE_DELAY * Pow2(retry) && Pow2(retry) <= 128
    requires d < SECOND * Pow2(retry + 1)
    ensures CalculateBackoffDelay(retry, d) == Wait(d)
  {
    assert Pow2(retry + 1) == 2 * Pow2(retry);
    SmallRemainder(d, ExpDelay(retry));
  }

  lemma SmallRemainder(d: nat, n: nat)
    requires d < n
    ensures d % n == d
  {
  }

  /** 33 is the first count at which the product wraps to a negative number. */
  lemma NoPanicExactly(retry: int, draw: nat)
    requires retry <= 33
    ensures CalculateBackoffDelay(retry, draw).Panic? <==> !(0 <= retry <= LAST_SAFE_RETRY)
  {
    if 0 <= retry <= LAST_SAFE_RETRY {
      DelayRange(retry, draw);
    } else if retry == 33 {
      NoOverflow(32);
      assert Pow2(33) == 2 * Pow2(32) == 0x2_0000_0000;
      assert ExpDelay(33) < 0;
    }
  }

  /** Both roundings to whole seconds together lose less than one second. */
  /** The whole second that has begun when the delay ends, and no later one. */
  lemma RunAtBounds(clock: int, delay: int)
    ensures RunAt(clock, delay) * SECOND <= clock + delay < (RunAt(clock, delay) + 1) * SECOND
  {
  }

  lemma NotBeforeRunAt(clock: int, delay: int, now: int)
    requires RunAt(clock, delay) <= now / SECOND
    ensures now > clock + delay - SECOND
  {
  }
}
