// Durations in milliseconds.
module Durations {
  const MINUTE_MS := 60_000
  const HOUR_MS := 60 * MINUTE_MS
  const DAY_MS := 24 * HOUR_MS
}
