/** Readings of the clock and durations, in nanoseconds. */
module Clock {
  type Time = int

  const SECOND: Time := 1_000_000_000
}
