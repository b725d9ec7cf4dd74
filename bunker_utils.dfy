/**
 * src/utils/bunkerUtils.ts: the seconds-based marker reader and the hours-and-minutes formatter
 * of an instant's distance from now.
 */
module BunkerUtils {
  import opened Text
  import opened TimestampToken
  import BunkersRoute

  /** `extractTimestamp`: the leftmost marker's value in seconds, or 0; unlike the route, not scaled. */
  function ExtractTimestamp(timeString: string): nat
  {
    match TokenSeconds(timeString)
    case None => 0
    case Some(v) => v
  }

  /** No marker gives 0; otherwise the decimal value of the leftmost marker's digits. */
  lemma ExtractTimestampMeaning(timeString: string)
    ensures (forall j, k :: !TokenAt(timeString, j, k)) ==> ExtractTimestamp(timeString) == 0
    ensures forall i, k :: LeftmostToken(timeString, i, k) ==>
              ExtractTimestamp(timeString) == DigitsValue(timeString[i + 3..k])
  {
    TokenSecondsMeaning(timeString);
  }

  /** The route reads the same marker in milliseconds: exactly 1000 times this reading. */
  lemma RouteReadsMilliseconds(timeString: string)
    ensures BunkersRoute.ExtractTimestamp(timeString) == 1000 * ExtractTimestamp(timeString)
  {
  }

  function Abs(x: int): nat
  {
    if x < 0 then -x else x
  }

  /** The rendering for `h` whole hours and `m` minutes: `"{h}h {m}m"`, or `"{m}m"` without hours. */
  function HoursMinutes(h: nat, m: nat): string
  {
    if h > 0 then NatToString(h) + "h " + NatToString(m) + "m" else NatToString(m) + "m"
  }

  /**
   * `formatTimeLeft(timestamp)` with `Date.now()` read as `nowMs`: the distance in seconds between
   * `timestamp` and the current second, in whole hours and remaining whole minutes.
   */
  function FormatTimeLeft(timestamp: int, nowMs: int): string
  {
    var now := nowMs / 1000;
    var diff := Abs(timestamp - now);
    var hours := diff / 3600;
    var minutes := (diff % 3600) / 60;
    HoursMinutes(hours, minutes)
  }

  /**
   * The rendering names the unique `h` and `m < 60` with h * 3600 + m * 60 <= diff <
   * h * 3600 + (m + 1) * 60, where diff is the distance in seconds from the current second.
   */
  lemma FormatTimeLeftMeaning(timestamp: int, nowMs: int, h: nat, m: nat)
    requires var diff := Abs(timestamp - nowMs / 1000);
      m < 60 && h * 3600 + m * 60 <= diff < h * 3600 + (m + 1) * 60
    ensures FormatTimeLeft(timestamp, nowMs) == HoursMinutes(h, m)
  {
    var diff := Abs(timestamp - nowMs / 1000);
    assert diff / 3600 == h;
    assert diff % 3600 == diff - h * 3600;
    assert (diff % 3600) / 60 == m;
  }

  /** The hours and minutes the formatter picks satisfy those bounds. */
  lemma FormatTimeLeftSplit(timestamp: int, nowMs: int)
    ensures var diff := Abs(timestamp - nowMs / 1000);
      var h, m := diff / 3600, (diff % 3600) / 60;
      && m < 60 && h * 3600 + m * 60 <= diff < h * 3600 + (m + 1) * 60
      && FormatTimeLeft(timestamp, nowMs) == HoursMinutes(h, m)
  {
  }

  /** Only the distance counts: an instant `d` seconds ago and one `d` seconds ahead read the same. */
  lemma FormatTimeLeftSymmetric(nowMs: int, d: nat)
    ensures FormatTimeLeft(nowMs / 1000 + d, nowMs) == FormatTimeLeft(nowMs / 1000 - d, nowMs)
  {
  }
}
