/** The minimum interval between requests and the whole-seconds wait reported when it is not over. */
module Throttle {
  import opened Text

  /** MIN_REQUEST_INTERVAL, in milliseconds, used by the route, the service and the client. */
  const MinRequestInterval: int := 5000

  /** `Math.ceil(ms / 1000)`: the least whole number of seconds that covers `ms` milliseconds. */
  function CeilSeconds(ms: int): (s: int)
    ensures 1000 * (s - 1) < ms <= 1000 * s
  {
    -((-ms) / 1000)
  }

  /** `now - lastRequestTime >= MIN_REQUEST_INTERVAL`. */
  predicate CooldownElapsed(last: int, now: int)
  {
    now - last >= MinRequestInterval
  }

  /** `Math.ceil((lastRequestTime + MIN_REQUEST_INTERVAL - now) / 1000)`. */
  function WaitSeconds(last: int, now: int): int
  {
    CeilSeconds(last + MinRequestInterval - now)
  }

  /** "Aguarde N segundos antes de fazer uma nova requisição.", shown by the route and by the client. */
  function WaitMessage(waitTime: nat): string
  {
    "Aguarde " + NatToString(waitTime) + " segundos antes de fazer uma nova requisição."
  }

  /** While the window is open and the clock has not gone back, the wait is 1 to 5 seconds. */
  lemma WaitSecondsRange(last: int, now: int)
    requires !CooldownElapsed(last, now) && last <= now
    ensures 1 <= WaitSeconds(last, now) <= 5
  {
    var s := WaitSeconds(last, now);
    assert 1000 * (s - 1) < 5000 && 0 < 1000 * s;
  }
}
