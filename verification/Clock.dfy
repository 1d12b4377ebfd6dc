/** Time is an integer number of microseconds, the resolution of PostgreSQL's timestamptz. */
module Clock {

  type Time = int

  const SECOND: Time := 1_000_000
  const MINUTE: Time := 60 * SECOND
  const HOUR: Time := 60 * MINUTE
}
