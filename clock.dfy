/**
 * Lengths of time in milliseconds, the unit of JavaScript's `Date` values,
 * shared by the countdown and the relative message times.
 */
module Clock {
  const MsPerSecond: int := 1000
  const MsPerMinute: int := 60 * MsPerSecond
  const MsPerHour: int := 60 * MsPerMinute
  const MsPerDay: int := 24 * MsPerHour
}
