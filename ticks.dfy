/**
 * MicroPython's millisecond tick counter: the values `time.ticks_ms()` returns and the
 * wraparound-safe difference `time.ticks_diff`. On 32-bit ports (the Raspberry Pi Pico
 * among them) the counter wraps at 2^30.
 */
module Ticks {
  const TICKS_PERIOD: int := 0x4000_0000
  const TICKS_HALF: int := TICKS_PERIOD / 2

  /** A value read from `time.ticks_ms()`. */
  type Tick = t: int | 0 <= t < TICKS_PERIOD

  /**
   * `time.ticks_diff(a, b)`: the signed distance from `b` to `a`, taken modulo the period
   * into the range [-TICKS_HALF, TICKS_HALF).
   */
  function TicksDiff(a: Tick, b: Tick): (d: int)
    ensures -TICKS_HALF <= d < TICKS_HALF
    ensures (a - b - d) % TICKS_PERIOD == 0
    ensures -TICKS_HALF <= a - b < TICKS_HALF ==> d == a - b
  {
    var x := a - b + TICKS_HALF;
    var q := if x < 0 then -1 else if x < TICKS_PERIOD then 0 else 1;
    assert x % TICKS_PERIOD == x - q * TICKS_PERIOD;
    x % TICKS_PERIOD - TICKS_HALF
  }

  /** The counter value `delta` milliseconds after `t`, wrapped into the counter's range. */
  function TicksAdd(t: Tick, delta: int): (r: Tick)
    ensures (t + delta - r) % TICKS_PERIOD == 0
  {
    (t + delta) % TICKS_PERIOD
  }

  /** Measuring from `t` a point less than half a period away gives back the distance. */
  lemma DiffAfterAdd(t: Tick, delta: int)
    requires -TICKS_HALF <= delta < TICKS_HALF
    ensures TicksDiff(TicksAdd(t, delta), t) == delta
  {
  }

  /**
   * A point at least half a period (about 6.2 days) but less than a full period after `t`
   * looks as if it lay before `t`: the difference comes out negative.
   */
  lemma DiffAfterHalfPeriod(t: Tick, delta: int)
    requires TICKS_HALF <= delta < TICKS_PERIOD
    ensures TicksDiff(TicksAdd(t, delta), t) == delta - TICKS_PERIOD < 0
  {
  }
}
