/**
 * Go's time arithmetic as the middleware uses it: a `time.Duration` is a signed
 * 64-bit count of nanoseconds, a multiplication of durations wraps around
 * silently, and `Time.Sub` saturates at the bounds of a duration.
 */
module Durations {

  const MIN_INT64: int := -0x8000_0000_0000_0000
  const MAX_INT64: int := 0x7fff_ffff_ffff_ffff
  const TWO_TO_64: int := 0x1_0000_0000_0000_0000

  /** Go's `int` on the 64-bit platforms the proxy runs on. */
  type Int64 = x: int | MIN_INT64 <= x <= MAX_INT64

  /** `time.Duration`: nanoseconds. */
  type Duration = Int64

  /** `time.Time`, as nanoseconds since a fixed epoch (its range is wider than a duration's). */
  type Time = int

  /** `time.Second`. */
  const SECOND: int := 1_000_000_000

  /** The largest whole number of seconds whose duration still fits in 64 bits. */
  const MAX_SECONDS: int := 9_223_372_036

  /** Two's-complement wrap-around of a 64-bit signed result. */
  function Wrap(x: int): (r: Int64)
    ensures (x - r) % TWO_TO_64 == 0
    ensures MIN_INT64 <= x <= MAX_INT64 ==> r == x
    ensures x >= MIN_INT64 ==> r <= x
  {
    ((x - MIN_INT64) % TWO_TO_64) + MIN_INT64
  }

  /** `time.Duration(n) * time.Second`: exact for up to MAX_SECONDS seconds, wrapped beyond. */
  function Seconds(n: Int64): (d: Duration)
    ensures -MAX_SECONDS <= n <= MAX_SECONDS ==> d == n * SECOND
    ensures n >= 0 ==> d <= n * SECOND
  {
    Wrap(n * SECOND)
  }

  /** `t.Sub(u)`: the difference, saturated to the range of a duration. */
  function Sub(t: Time, u: Time): (d: Duration)
    ensures MIN_INT64 <= t - u <= MAX_INT64 ==> d == t - u
    ensures t - u > MAX_INT64 ==> d == MAX_INT64
    ensures t - u < MIN_INT64 ==> d == MIN_INT64
  {
    if t - u > MAX_INT64 then MAX_INT64
    else if t - u < MIN_INT64 then MIN_INT64
    else t - u
  }

  /** `t.Add(d)`. */
  function Add(t: Time, d: Duration): (r: Time)
    ensures Sub(r, t) == d
  {
    t + d
  }

  /** `if max < d { d = max }`: the duration, cut down to at most `max`. */
  function Clamp(d: Duration, max: Duration): (r: Duration)
    ensures r <= max && r <= d
    ensures r == d || r == max
  {
    if max < d then max else d
  }

  /** Past MAX_SECONDS the product wraps: one second more already gives a negative duration. */
  lemma SecondsWrapsPastRange()
    ensures Seconds(MAX_SECONDS + 1) < 0
  {
  }
}
