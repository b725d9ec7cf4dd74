/**
 * The refresh rule of BunkerStatus.tsx and BunkerContent.tsx: the next update falls at ten
 * minutes past an hour, in the current hour while its minute is below 10 and in the next hour
 * otherwise. Wall-clock instants are integer milliseconds of local time whose hours start at
 * multiples of one hour.
 */
module HourlySchedule {

  const MinuteMs: int := 60000
  const HourMs: int := 3600000
  /** Minute 10, second 0, millisecond 0 of an hour, as an offset into the hour. */
  const UpdateOffset: int := 600000

  /** The minute of the hour of `t`, as `getMinutes()` reads it. */
  function MinuteOf(t: int): (m: int)
    ensures 0 <= m < 60
  {
    (t % HourMs) / MinuteMs
  }

  /**
   * `next.setHours(hours + (minutes >= 10 ? 1 : 0))` followed by `setMinutes(10)`,
   * `setSeconds(0)` and `setMilliseconds(0)`: the start of the current hour, one hour later when
   * the minute is 10 or more, plus ten minutes.
   */
  function NextUpdate(t: int): int
  {
    var hourStart := t - t % HourMs;
    hourStart + (if MinuteOf(t) >= 10 then HourMs else 0) + UpdateOffset
  }

  /** `u` is minute 10, second 0, millisecond 0 of some hour. */
  predicate IsUpdateInstant(u: int)
  {
    u % HourMs == UpdateOffset
  }

  /**
   * `next.getTime() - now.getTime()`: the delay the timer is armed with. It is between one
   * millisecond and one hour, it ends ten minutes past an hour, and no earlier instant after `t`
   * is ten minutes past an hour.
   */
  function TimeUntilNext(t: int): (delay: int)
    ensures 1 <= delay <= HourMs && IsUpdateInstant(t + delay)
    ensures forall u :: t < u < t + delay ==> !IsUpdateInstant(u)
  {
    NextUpdate(t) - t
  }

  /**
   * The next update is ten minutes past an hour and strictly after `t`, and it is the first such
   * instant: no instant between `t` and it is ten minutes past an hour.
   */
  lemma NextUpdateIsFirstAfter(t: int, u: int)
    ensures NextUpdate(t) > t && NextUpdate(t) % HourMs == UpdateOffset
    ensures t < u && u % HourMs == UpdateOffset ==> NextUpdate(t) <= u
  {
  }

  /**
   * The update falls in the current hour while its minute is below 10, and in the next hour
   * otherwise; within ten minutes in the first case.
   */
  lemma UpdateHour(t: int)
    ensures MinuteOf(t) < 10 ==> t + TimeUntilNext(t) == (t - t % HourMs) + UpdateOffset
    ensures MinuteOf(t) >= 10 ==> t + TimeUntilNext(t) == (t - t % HourMs) + HourMs + UpdateOffset
    ensures MinuteOf(t) < 10 ==> TimeUntilNext(t) <= UpdateOffset
  {
  }
}
