/** Instants and durations, in nanoseconds as in Go's time package. */
module Clock {
  /** An instant; 0 is the zero time.Time, for which IsZero holds. */
  type Time = nat

  const MILLISECOND := 1_000_000
  const SECOND := 1000 * MILLISECOND
  const MINUTE := 60 * SECOND
}
