/** Durations in milliseconds, and the short duration strings ("7d", "1h")
    the rover configuration uses. */
module Durations {
  import opened Wrappers

  const MillisPerHour := 3600000
  const MillisPerDay := 24 * MillisPerHour

  /** The duration a rover string of one digit and the unit `d` or `h` stands for. */
  function RoverMillis(r: string): (ms: Option<int>)
    ensures ms.Some? ==> ms.value >= 0
  {
    if |r| == 2 && '0' <= r[0] <= '9' && (r[1] == 'd' || r[1] == 'h') then
      Some((r[0] as int - '0' as int) * (if r[1] == 'd' then MillisPerDay else MillisPerHour))
    else None
  }
}
