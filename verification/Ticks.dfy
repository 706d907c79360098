/** Tick arithmetic: `convert::millis` (src/lib.rs:48-56) and `duration_to_tick` (src/timer.rs:138-141). A `Duration`
    is its length in nanoseconds; the 64-bit saturation of the source is explicit. */
module Ticks {
  import opened Arithmetic
  import opened Options

  const U64_MAX: nat := 0xFFFF_FFFF_FFFF_FFFF
  const NANOS_PER_SEC := 1_000_000_000
  const NANOS_PER_MILLI := 1_000_000
  const MILLIS_PER_SEC := 1_000

  type Duration = nat

  function Saturate(n: nat): nat {
    if n <= U64_MAX then n else U64_MAX
  }

  function Millis(d: Duration): nat {
    var millis := (d % NANOS_PER_SEC + NANOS_PER_MILLI - 1) / NANOS_PER_MILLI;
    Saturate(Saturate(d / NANOS_PER_SEC * MILLIS_PER_SEC) + millis)
  }

  function DurationToTick(elapsed: Duration, tickMs: nat): nat
    requires tickMs > 0
  {
    var ms := Saturate(Millis(elapsed) + tickMs / 2);
    DivMonotone(0, ms, tickMs);
    ms / tickMs
  }

  /** The duration of `ms` milliseconds. */
  function FromMillis(ms: nat): Duration {
    ms * NANOS_PER_MILLI
  }

  // ---------- milliseconds ----------

  /** Whole milliseconds, rounded up. */
  function CeilMillis(d: Duration): nat {
    (d + NANOS_PER_MILLI - 1) / NANOS_PER_MILLI
  }

  /** `millis` rounds up, and saturates. */
  lemma MillisIsCeiling(d: Duration)
    ensures Millis(d) == Saturate(CeilMillis(d))
  {
    var secs, nanos := d / NANOS_PER_SEC, d % NANOS_PER_SEC;
    assert d == secs * NANOS_PER_SEC + nanos;
    assert d + NANOS_PER_MILLI - 1 == secs * MILLIS_PER_SEC * NANOS_PER_MILLI + (nanos + NANOS_PER_MILLI - 1);
  }

  lemma CeilingBounds(d: Duration)
    ensures FromMillis(CeilMillis(d)) >= d
    ensures FromMillis(CeilMillis(d)) < d + NANOS_PER_MILLI
  {
  }

  // ---------- ticks ----------

  /** No saturation on the way to the tick. */
  predicate InRange(d: Duration, tickMs: nat) {
    CeilMillis(d) + tickMs / 2 <= U64_MAX
  }

  lemma TickInRange(d: Duration, tickMs: nat)
    requires tickMs > 0 && InRange(d, tickMs)
    ensures DurationToTick(d, tickMs) == (CeilMillis(d) + tickMs / 2) / tickMs
  {
    MillisIsCeiling(d);
  }

  /** A duration is rounded to the nearest tick, halves up; one beyond the range has the last tick there is. */
  lemma RoundsToNearest(d: Duration, tickMs: nat)
    requires tickMs > 0
    ensures InRange(d, tickMs) ==>
              var t := DurationToTick(d, tickMs) * tickMs;
              t - tickMs / 2 <= CeilMillis(d) < t + tickMs - tickMs / 2
    ensures !InRange(d, tickMs) ==> DurationToTick(d, tickMs) == U64_MAX / tickMs
  {
    MillisIsCeiling(d);
    DivBounds(CeilMillis(d) + tickMs / 2, tickMs);
  }

  /** Later is never earlier, saturated or not: a poll at or after a deadline targets at least the deadline's tick. */
  lemma TickMonotone(d: Duration, e: Duration, tickMs: nat)
    requires tickMs > 0 && d <= e
    ensures DurationToTick(d, tickMs) <= DurationToTick(e, tickMs)
  {
    MillisIsCeiling(d);
    MillisIsCeiling(e);
    DivMonotone(Saturate(Millis(d) + tickMs / 2), Saturate(Millis(e) + tickMs / 2), tickMs);
  }

  /** Adding whole ticks to a duration adds them to its tick. */
  lemma WholeTicks(d: Duration, k: nat, tickMs: nat)
    requires tickMs > 0 && InRange(d + FromMillis(k * tickMs), tickMs)
    ensures DurationToTick(d + FromMillis(k * tickMs), tickMs) == DurationToTick(d, tickMs) + k
  {
    CeilingShift(d, k * tickMs);
    TickInRange(d, tickMs);
    TickInRange(d + FromMillis(k * tickMs), tickMs);
    DivShift(CeilMillis(d) + tickMs / 2, k, tickMs);
  }

  lemma CeilingShift(d: Duration, ms: nat)
    ensures CeilMillis(d + FromMillis(ms)) == CeilMillis(d) + ms
  {
    DivShift(d + NANOS_PER_MILLI - 1, ms, NANOS_PER_MILLI);
  }

  /** How long the wakeup thread parks, given the tick it reads from the clock; `None` is a park without a timeout
      (src/timer.rs:332-341). */
  function ParkTime(now: nat, until: nat, tickMs: nat): Option<Duration>
    requires now < until
  {
    var ms := tickMs * (until - now);
    if ms <= U64_MAX then Some(FromMillis(ms)) else None
  }

  /** A park that lasts its full time, or longer, ends at the tick it was for, or later. */
  lemma ParkReachesTick(elapsed: Duration, until: nat, tickMs: nat, after: Duration)
    requires tickMs > 0
    requires DurationToTick(elapsed, tickMs) < until
    requires ParkTime(DurationToTick(elapsed, tickMs), until, tickMs).Some?
    requires after >= elapsed + ParkTime(DurationToTick(elapsed, tickMs), until, tickMs).value
    requires InRange(elapsed + ParkTime(DurationToTick(elapsed, tickMs), until, tickMs).value, tickMs)
    ensures DurationToTick(after, tickMs) >= until
  {
    var k := until - DurationToTick(elapsed, tickMs);
    var parked := FromMillis(tickMs * k);
    assert tickMs * k == k * tickMs;
    WholeTicks(elapsed, k, tickMs);
    TickMonotone(elapsed + parked, after, tickMs);
  }

  /** A clock that has reached the tick of a deadline is less than one tick short of the deadline itself. */
  lemma NeverATickEarly(deadline: Duration, elapsed: Duration, tickMs: nat)
    requires tickMs > 0 && InRange(deadline, tickMs) && InRange(elapsed, tickMs)
    requires DurationToTick(elapsed, tickMs) >= DurationToTick(deadline, tickMs)
    ensures elapsed + FromMillis(tickMs) > deadline
  {
    TickInRange(deadline, tickMs);
    TickInRange(elapsed, tickMs);
    TickGap(CeilMillis(elapsed), CeilMillis(deadline), tickMs / 2, tickMs);
    CeilingBounds(elapsed);
    CeilingBounds(deadline);
  }

  lemma TickGap(a: int, b: int, half: int, n: int)
    requires n > 0 && (a + half) / n >= (b + half) / n
    ensures a > b - n
  {
    var p, q := (a + half) / n, (b + half) / n;
    DivBounds(a + half, n);
    DivBounds(b + half, n);
    assert (q - p) * n == q * n - p * n;
    Multiple(q - p, n);
  }
}
