/**
 * The part of Go's time package the handler uses. An instant is a wall-clock
 * count of nanoseconds (Go's time.Time spans far more than int64 nanoseconds,
 * so instants are unbounded here); a Duration is an int64 count of nanoseconds.
 */
module GoTime {
  import opened GoInt

  type Time = int
  type Duration = int

  const Hour: Duration := 3_600_000_000_000
  /** `time.Hour * 24` */
  const Day: Duration := 24 * Hour

  /** `a * b` on two Durations: int64 multiplication, which wraps around. */
  function MulDuration(a: Duration, b: Duration): (d: Duration)
    ensures InInt64(d)
    ensures InInt64(a * b) ==> d == a * b
  {
    Wrap64(a * b)
  }

  /** `t.Add(d)` */
  function Add(t: Time, d: Duration): Time {
    t + d
  }

  /** `t.Sub(u)`: the Duration between two instants, saturated to the int64 range. */
  function Sub(t: Time, u: Time): (d: Duration)
    ensures InInt64(d)
    ensures InInt64(t - u) ==> d == t - u
    ensures d >= 0 <==> t >= u
  {
    Saturate64(t - u)
  }

  /** `t.After(u)` */
  predicate After(t: Time, u: Time) {
    t > u
  }

  /** `int(d.Hours() / 24)`: whole days in `d`, truncated toward zero
      (the floating-point rounding of Hours() is not modelled). */
  function WholeDays(d: Duration): (n: int)
    ensures d >= 0 ==> 0 <= n * Day <= d < (n + 1) * Day
    ensures d < 0 ==> (n - 1) * Day < d <= n * Day <= 0
  {
    if d >= 0 then d / Day else -((-d) / Day)
  }
}
