/** Instants are counted in nanoseconds from the Unix epoch. */
module Clock {
  const NANOS_PER_SECOND := 1_000_000_000
}
