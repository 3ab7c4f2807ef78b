/** Failure classes and the delay before a retry, in 64-bit arithmetic. */
module Backoff {
  import opened Model

  datatype ErrorClass = Retryable | Permanent | Timeout | Panic | Cancelled | SystemFailure

  /** The class of a canonical error code. */
  function Classify(code: string): ErrorClass {
    if code == "TIMEOUT" then Timeout
    else if code == "PANIC" then Panic
    else if code in {"CANCELLED", "CANCELED"} then Cancelled
    else if code in {"BAD_PAYLOAD", "UNKNOWN_JOB_TYPE", "PERMANENT", "PERMANENT_ERROR"} then Permanent
    else if code in {"DEPENDENCY_DOWN", "DB_DEADLOCK", "SERIALIZATION", "RATE_LIMIT", "DB_DISCONNECT", "SYSTEM_FAILURE",
                     "LEASE_EXPIRED"} then SystemFailure
    else Retryable
  }

  predicate IsRetryable(c: ErrorClass) {
    c.Retryable? || c.Timeout? || c.SystemFailure?
  }

  function DlqReason(c: ErrorClass): (reason: string)
    ensures IsRetryable(c) <==> reason == "MAX_ATTEMPTS_EXCEEDED"
  {
    match c
    case Permanent => "PERMANENT_ERROR"
    case Panic => "PANIC"
    case Cancelled => "CANCELLED"
    case _ => "MAX_ATTEMPTS_EXCEEDED"
  }

  /** Which codes end a job at once, and as what; every other code may be retried. */
  lemma CodesThatEndAJob(code: string)
    ensures IsRetryable(Classify(code)) <==>
      code !in {"PANIC", "CANCELLED", "CANCELED", "BAD_PAYLOAD", "UNKNOWN_JOB_TYPE", "PERMANENT", "PERMANENT_ERROR"}
    ensures DlqReason(Classify(code)) ==
      if code == "PANIC" then "PANIC"
      else if code == "CANCELLED" || code == "CANCELED" then "CANCELLED"
      else if code in {"BAD_PAYLOAD", "UNKNOWN_JOB_TYPE", "PERMANENT", "PERMANENT_ERROR"} then "PERMANENT_ERROR"
      else "MAX_ATTEMPTS_EXCEEDED"
  {
  }

  const I64_MIN: int := -0x8000_0000_0000_0000
  const I64_MAX: int := 0x7fff_ffff_ffff_ffff
  const I32_MAX: int := 0x7fff_ffff

  function Pow2(n: nat): nat {
    if n == 0 then 1 else 2 * Pow2(n - 1)
  }

  function Min(a: int, b: int): int {
    if a < b then a else b
  }

  /**
   * `1_i64.checked_shl(exp).unwrap_or(i64::MAX)`: the bit moves to the sign position at 63 and is refused from 64 on.
   */
  function Shift(exp: nat): int {
    if exp < 63 then Pow2(exp) else if exp == 63 then I64_MIN else I64_MAX
  }

  function SaturatingMul(a: int, b: int): int {
    if a * b > I64_MAX then I64_MAX else if a * b < I64_MIN then I64_MIN else a * b
  }

  /** The delay before jitter. */
  function Capped(attemptNo: int, base: int, max: int): int {
    Min(SaturatingMul(base, Shift(if attemptNo > 1 then attemptNo - 1 else 0)), max)
  }

  lemma {:induction false} Pow2Grows(m: nat, n: nat)
    requires m <= n
    ensures 1 <= Pow2(m) <= Pow2(n)
  {
    if m < n {
      Pow2Grows(m, n - 1);
    } else if m > 0 {
      Pow2Grows(m - 1, n - 1);
    }
  }

  lemma Pow2At63()
    ensures Pow2(63) == 0x8000_0000_0000_0000
  {
    assert Pow2(8) == 256;
    assert Pow2(16) == 0x1_0000;
    assert Pow2(24) == 0x100_0000;
    assert Pow2(32) == 0x1_0000_0000;
    assert Pow2(40) == 0x100_0000_0000;
    assert Pow2(48) == 0x1_0000_0000_0000;
    assert Pow2(56) == 0x100_0000_0000_0000;
  }

  lemma ScaleUp(base: int, low: int, high: int)
    requires base >= 1 && 0 <= low <= high
    ensures low <= base * low <= base * high
  {
  }

  /**
   * The delay is `min(base * 2^(n-1), max)` for every attempt number except 64, where it is the least 64-bit integer.
   */
  lemma ExponentialUnlessSixtyFour(n: int, base: int, max: int)
    requires 1 <= n <= I32_MAX
    requires 1 <= base <= I64_MAX && I64_MIN < max <= I64_MAX
    ensures Capped(n, base, max) == Min(base * Pow2(n - 1), max) <==> n != 64
    ensures n == 64 ==> Capped(n, base, max) == I64_MIN
  {
    Pow2At63();
    if n < 64 {
      Pow2Grows(0, n - 1);
      Pow2Grows(n - 1, 62);
      ScaleUp(base, 1, Pow2(n - 1));
    } else {
      Pow2Grows(63, n - 1);
      ScaleUp(base, Pow2(63), Pow2(n - 1));
      ScaleUp(base, 1, I64_MAX);
      ScaleUp(base, 1, 0x8000_0000_0000_0000);
    }
  }

  /** Between two attempts, neither of which is the 64th, the delay never shrinks. */
  lemma NeverShrinks(m: int, n: int, base: int, max: int)
    requires 1 <= m <= n <= I32_MAX && m != 64 && n != 64
    requires 1 <= base <= I64_MAX && I64_MIN < max <= I64_MAX
    ensures Capped(m, base, max) <= Capped(n, base, max)
  {
    ExponentialUnlessSixtyFour(m, base, max);
    ExponentialUnlessSixtyFour(n, base, max);
    Pow2Grows(m - 1, n - 1);
    Pow2Grows(0, m - 1);
    ScaleUp(base, Pow2(m - 1), Pow2(n - 1));
  }

  // Jitter, over the reals

  /** To the nearest integer, halves away from zero. */
  function Round(x: real): int {
    if x >= 0.0 then (x + 0.5).Floor else -((-x + 0.5).Floor)
  }

  lemma RoundIsNearest(x: real)
    ensures x >= 0.0 ==> x - 0.5 < Round(x) as real <= x + 0.5
    ensures x < 0.0 ==> x - 0.5 <= Round(x) as real < x + 0.5
  {
  }

  function SaturatingCast(n: int): int {
    if n < I64_MIN then I64_MIN else if n > I64_MAX then I64_MAX else n
  }

  /** The generator accepts the range `-width..=width` only if it is not empty, and then draws from it. */
  predicate Drawable(delay: int, jitterPct: real) {
    delay as real * jitterPct >= 0.0
  }

  predicate Draw(delay: int, jitterPct: real, jitter: real) {
    -(delay as real * jitterPct) <= jitter <= delay as real * jitterPct
  }

  function Jittered(delay: int, max: int, jitter: real): int {
    Clamp(SaturatingCast(Round(delay as real + jitter)), 0, max)
  }

  lemma Monotone(x: real, y: real)
    requires x <= y
    ensures Round(x) <= Round(y)
  {
  }

  /**
   * Except at attempt 64 a draw exists, and every draw gives a delay between nought and the cap, no further from the
   * unjittered delay than the fraction allows.
   */
  lemma JitterWithinCap(n: int, base: int, max: int, jitterPct: real, jitter: real)
    requires 1 <= n <= I32_MAX && n != 64
    requires 1 <= base <= I64_MAX && 0 <= max <= I64_MAX
    requires jitterPct >= 0.0
    ensures Drawable(Capped(n, base, max), jitterPct)
    ensures var delay := Capped(n, base, max);
      Draw(delay, jitterPct, jitter) ==>
        && 0 <= Jittered(delay, max, jitter) <= max
        && Clamp(Round(delay as real - delay as real * jitterPct), 0, max) <= Jittered(delay, max, jitter)
        && Jittered(delay, max, jitter) <= Clamp(Round(delay as real + delay as real * jitterPct), 0, max)
  {
    hide Round, Clamp, Jittered, Capped;
    NeverNegative(n, base, max);
    var delay := Capped(n, base, max);
    NonNegativeProduct(delay, jitterPct);
    if Draw(delay, jitterPct, jitter) {
      JitterBounds(delay, max, delay as real * jitterPct, jitter);
    }
  }

  lemma NeverNegative(n: int, base: int, max: int)
    requires 1 <= n <= I32_MAX && n != 64
    requires 1 <= base <= I64_MAX && 0 <= max <= I64_MAX
    ensures 0 <= Capped(n, base, max)
  {
    ExponentialUnlessSixtyFour(n, base, max);
    Pow2Grows(0, n - 1);
    ScaleUp(base, 1, Pow2(n - 1));
  }

  lemma JitterBounds(delay: int, max: int, width: real, jitter: real)
    requires 0 <= max <= I64_MAX
    requires -width <= jitter <= width
    ensures 0 <= Jittered(delay, max, jitter) <= max
    ensures Clamp(Round(delay as real - width), 0, max) <= Jittered(delay, max, jitter)
    ensures Jittered(delay, max, jitter) <= Clamp(Round(delay as real + width), 0, max)
  {
    hide Round;
    Monotone(delay as real - width, delay as real + jitter);
    Monotone(delay as real + jitter, delay as real + width);
  }

  lemma NonNegativeProduct(delay: int, pct: real)
    requires delay >= 0 && pct >= 0.0
    ensures delay as real * pct >= 0.0
  {
  }

  /** At attempt 64 there is nothing to draw from unless jitter is off; then the retry is immediate. */
  lemma SixtyFourthAttempt(base: int, max: int, jitterPct: real)
    requires 1 <= base <= I64_MAX && 0 <= max <= I64_MAX && jitterPct >= 0.0
    ensures Drawable(Capped(64, base, max), jitterPct) <==> jitterPct == 0.0
    ensures Draw(Capped(64, base, max), 0.0, 0.0) && Jittered(Capped(64, base, max), max, 0.0) == 0
  {
    ExponentialUnlessSixtyFour(64, base, max);
    if jitterPct > 0.0 {
      assert I64_MIN as real * jitterPct < 0.0;
    }
    assert I64_MIN as real * 0.0 == 0.0;
  }

  /** Attempt numbers below one count as the first. */
  function Exponent(attemptNo: int): nat {
    if attemptNo > 1 then attemptNo - 1 else 0
  }

  function Exponential(attemptNo: int, base: int, max: int): int {
    Min(base * Pow2(Exponent(attemptNo)), max)
  }

  /** The delay is in range, within the fraction of `centre`, and `centre` itself when there is no jitter. */
  predicate Within(delay: int, centre: int, max: int, jitterPct: real) {
    var width := centre as real * jitterPct;
    && 0 <= delay <= max
    && Clamp(Round(centre as real - width), 0, max) <= delay <= Clamp(Round(centre as real + width), 0, max)
    && (jitterPct == 0.0 ==> delay == centre)
  }

  /** The delay is the whole number next to what was drawn, halves away from zero, unless that is out of range. */
  predicate Nearest(delay: int, drawn: real, max: int) {
    0.0 <= drawn <= max as real ==> drawn - 0.5 < delay as real <= drawn + 0.5
  }

  lemma NearestToDraw(capped: int, max: int, jitter: real)
    requires max <= I64_MAX
    ensures Nearest(Jittered(capped, max, jitter), capped as real + jitter, max)
  {
    hide Round;
    RoundIsNearest(capped as real + jitter);
  }

  lemma CappedFromOne(attemptNo: int, base: int, max: int)
    ensures Capped(attemptNo, base, max) == Capped(Exponent(attemptNo) + 1, base, max)
  {
  }

  /**
   * The delay before the next attempt, given what the generator would draw. There is none when the generator has
   * nothing to draw from or the cap is negative: the source then panics.
   */
  method NextDelaySeconds(attemptNo: int, base: int, max: int, jitterPct: real, jitter: real)
      returns (delay: Option<int>)
    requires attemptNo <= I32_MAX && I64_MIN <= base <= I64_MAX && I64_MIN <= max <= I64_MAX
    requires Draw(Capped(attemptNo, base, max), jitterPct, jitter) || !Drawable(Capped(attemptNo, base, max), jitterPct)
    ensures delay.Some? ==> 0 <= delay.value <= max
    ensures max < 0 ==> delay.None?
    ensures base >= 1 && max >= 0 && jitterPct >= 0.0 ==>
      if attemptNo == 64 then delay == if jitterPct == 0.0 then Some(0) else None
      else delay.Some? && Within(delay.value, Exponential(attemptNo, base, max), max, jitterPct)
    ensures base >= 1 && max >= 0 && jitterPct >= 0.0 && attemptNo != 64 ==>
      delay.Some? && Nearest(delay.value, Exponential(attemptNo, base, max) as real + jitter, max)
  {
    hide Round, Pow2, Draw, Jittered;
    var exp := (if attemptNo > 1 then attemptNo else 1) - 1;
    var capped := SaturatingMul(base, Shift(exp));
    if capped > max {
      capped := max;
    }
    assert capped == Capped(attemptNo, base, max);
    hide Capped, SaturatingMul, Shift, Within, Nearest, Exponential;
    if base >= 1 && max >= 0 && jitterPct >= 0.0 {
      WhenDrawable(attemptNo, base, max, jitterPct);
      if attemptNo != 64 || jitterPct == 0.0 {
        DelayMeaning(attemptNo, base, max, jitterPct, jitter);
      }
    }
    if max < 0 || capped as real * jitterPct < 0.0 {
      return None;
    }
    JitteredUnfolds(capped, max, jitter);
    delay := Some(Clamp(SaturatingCast(Round(capped as real + jitter)), 0, max));
  }

  lemma JitteredUnfolds(delay: int, max: int, jitter: real)
    ensures Jittered(delay, max, jitter) == Clamp(SaturatingCast(Round(delay as real + jitter)), 0, max)
  {
  }

  lemma WhenDrawable(attemptNo: int, base: int, max: int, jitterPct: real)
    requires attemptNo <= I32_MAX && 1 <= base <= I64_MAX && 0 <= max <= I64_MAX && jitterPct >= 0.0
    ensures Drawable(Capped(attemptNo, base, max), jitterPct) <==> attemptNo != 64 || jitterPct == 0.0
  {
    hide Capped, Drawable;
    var n := Exponent(attemptNo) + 1;
    CappedFromOne(attemptNo, base, max);
    if n == 64 {
      SixtyFourthAttempt(base, max, jitterPct);
    } else {
      JitterWithinCap(n, base, max, jitterPct, 0.0);
    }
  }

  lemma JitteredWithin(n: int, base: int, max: int, jitterPct: real, jitter: real)
    requires 1 <= n <= I32_MAX && n != 64 && 1 <= base <= I64_MAX && 0 <= max <= I64_MAX && jitterPct >= 0.0
    requires Draw(Capped(n, base, max), jitterPct, jitter)
    ensures Within(Jittered(Capped(n, base, max), max, jitter), Capped(n, base, max), max, jitterPct)
  {
    JitterWithinCap(n, base, max, jitterPct, jitter);
    NeverNegative(n, base, max);
    var capped := Capped(n, base, max);
    assert capped <= max;
    if jitterPct == 0.0 {
      hide Jittered;
      WithoutJitter(capped, max, jitterPct, jitter);
    }
  }

  /** What a delay with this draw comes to. */
  lemma DelayMeaning(attemptNo: int, base: int, max: int, jitterPct: real, jitter: real)
    requires attemptNo <= I32_MAX && 1 <= base <= I64_MAX && 0 <= max <= I64_MAX && jitterPct >= 0.0
    requires Draw(Capped(attemptNo, base, max), jitterPct, jitter)
    ensures var d := Jittered(Capped(attemptNo, base, max), max, jitter);
      if attemptNo == 64 then d == 0
      else
        && Within(d, Exponential(attemptNo, base, max), max, jitterPct)
        && Nearest(d, Exponential(attemptNo, base, max) as real + jitter, max)
  {
    var n := Exponent(attemptNo) + 1;
    CappedFromOne(attemptNo, base, max);
    ExponentialUnlessSixtyFour(n, base, max);
    NearestToDraw(Capped(n, base, max), max, jitter);
    hide Capped, Jittered, Draw, Within, Nearest;
    if n == 64 {
      SixtyFourthDelay(max, jitterPct, jitter);
    } else {
      JitteredWithin(n, base, max, jitterPct, jitter);
    }
  }

  lemma SixtyFourthDelay(max: int, jitterPct: real, jitter: real)
    requires 0 <= max <= I64_MAX && jitterPct >= 0.0 && Draw(I64_MIN, jitterPct, jitter)
    ensures Jittered(I64_MIN, max, jitter) == 0
  {
    assert I64_MIN as real * jitterPct <= 0.0;
    assert jitter == 0.0;
  }

  /** With jitter off the delay is the capped one, or nought if that is negative. */
  lemma WithoutJitter(delay: int, max: int, jitterPct: real, jitter: real)
    requires I64_MIN <= delay <= max && 0 <= max <= I64_MAX && Draw(delay, jitterPct, jitter) && jitterPct == 0.0
    ensures Jittered(delay, max, jitter) == if delay < 0 then 0 else delay
  {
    assert delay as real * 0.0 == 0.0;
    assert jitter == 0.0;
  }
}
