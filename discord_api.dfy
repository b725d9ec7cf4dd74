/**
 * src/services/discordApi.ts: the browser-side service that asks the dashboard's own route for a
 * snapshot, behind its own module-level cooldown, and turns every failure into an empty snapshot.
 */
module DiscordApi {
  import opened BunkerTypes
  import opened Throttle

  const RateLimitedSource: string := "Cache (Rate Limited)"
  const UpstreamRateLimitedSource: string := "Error: Rate Limited"
  const ErrorPrefix: string := "Error: "
  const UnknownErrorMessage: string := "Erro desconhecido"

  /** No bunkers, the current instant, a source naming the reason, and no messages. */
  function EmptySnapshot(now: int, source: string): Payload
  {
    Payload(Some([]), Some(now), Some(source), Some(0), None)
  }

  /**
   * A failure reaches the caller as a well-formed snapshot with no bunkers and no `error`: the
   * encoding of an empty snapshot stamped `now` whose source names the reason.
   */
  lemma EmptySnapshotIsSnapshot(now: int, source: string)
    ensures FromPayload(EmptySnapshot(now, source)) == Some(BunkerStatus([], now, Some(source), Some(0)))
    ensures EmptySnapshot(now, source) == ToPayload(BunkerStatus([], now, Some(source), Some(0)))
  {
  }

  /**
   * What the request's outcome becomes once it went out: a 2xx reply's decoded body as it is;
   * otherwise an empty snapshot whose source carries the failure. A body that does not decode
   * fails first, then an upstream 429 is named as such, then the body's `error` or a fixed message.
   */
  function OutcomeSnapshot(outcome: ApiOutcome, now: int): Payload
  {
    match outcome
    case FetchThrew(m) => EmptySnapshot(now, ErrorPrefix + m)
    case Replied(status, Unparsable(m)) => EmptySnapshot(now, ErrorPrefix + m)
    case Replied(status, Parsed(p)) =>
      if IsOk(status) then p
      else if status == 429 then EmptySnapshot(now, UpstreamRateLimitedSource)
      else EmptySnapshot(now, ErrorPrefix + OrElse(p.error, UnknownErrorMessage))
  }

  /** The value `fetchBunkerStatus` resolves to and the new `lastRequestTime`. */
  datatype Fetched = Fetched(result: Payload, lastRequestTime: int)

  /** One call of `fetchBunkerStatus` at instant `now` whose request, if sent, ends in `outcome`. */
  function FetchBunkerStatus(lastRequestTime: int, now: int, outcome: ApiOutcome): Fetched
  {
    if !CooldownElapsed(lastRequestTime, now) then Fetched(EmptySnapshot(now, RateLimitedSource), lastRequestTime)
    else Fetched(OutcomeSnapshot(outcome, now), now)
  }

  /**
   * The gate: within 5000 ms of the last request the call sends nothing (its result does not
   * depend on any outcome), keeps the stamp and answers the cached-rate-limit snapshot; otherwise
   * it stamps `now` whatever the request then does, so a failed request still uses up the window.
   */
  lemma CooldownGate(lastRequestTime: int, now: int, outcome: ApiOutcome, other: ApiOutcome)
    ensures var f := FetchBunkerStatus(lastRequestTime, now, outcome);
      && (now - lastRequestTime < 5000 ==>
            f == FetchBunkerStatus(lastRequestTime, now, other)
            && f.lastRequestTime == lastRequestTime
            && f.result == EmptySnapshot(now, RateLimitedSource))
      && (now - lastRequestTime >= 5000 ==> f.lastRequestTime == now)
  {
  }

  /** The module starts with stamp 0, so a first call is accepted exactly when the clock reads 5000 or more. */
  lemma FirstCall(now: int, outcome: ApiOutcome)
    ensures FetchBunkerStatus(0, now, outcome).lastRequestTime == now <==> now >= 5000 || now == 0
    ensures now < 5000 ==> FetchBunkerStatus(0, now, outcome).result == EmptySnapshot(now, RateLimitedSource)
  {
  }

  /** True when `s` begins with `p`. */
  predicate StartsWith(s: string, p: string)
  {
    |p| <= |s| && s[..|p|] == p
  }

  /**
   * The function never fails: an accepted call whose reply is a decoded 2xx body returns that body;
   * every other call returns an empty snapshot whose source is the cached-rate-limit marker or
   * begins with "Error: ".
   */
  lemma NeverThrows(lastRequestTime: int, now: int, outcome: ApiOutcome)
    ensures var r := FetchBunkerStatus(lastRequestTime, now, outcome).result;
      if CooldownElapsed(lastRequestTime, now) && outcome.Replied? && IsOk(outcome.status) && outcome.body.Parsed?
      then r == outcome.body.payload
      else exists src :: r == EmptySnapshot(now, src) && (src == RateLimitedSource || StartsWith(src, ErrorPrefix))
  {
    if CooldownElapsed(lastRequestTime, now) {
      match outcome
      case FetchThrew(m) =>
        assert StartsWith(ErrorPrefix + m, ErrorPrefix);
      case Replied(status, Unparsable(m)) =>
        assert StartsWith(ErrorPrefix + m, ErrorPrefix);
      case Replied(status, Parsed(p)) =>
        if !IsOk(status) && status != 429 {
          assert StartsWith(ErrorPrefix + OrElse(p.error, UnknownErrorMessage), ErrorPrefix);
        } else if !IsOk(status) {
          assert UpstreamRateLimitedSource == ErrorPrefix + "Rate Limited";
          assert StartsWith(UpstreamRateLimitedSource, ErrorPrefix);
        }
    }
  }

  /**
   * A failing reply with a decoded body: 429 becomes the "Error: Rate Limited" snapshot, any other
   * status carries the body's `error`, or "Erro desconhecido" when that is absent or empty.
   */
  lemma FailedReply(lastRequestTime: int, now: int, status: nat, body: Payload)
    requires CooldownElapsed(lastRequestTime, now) && !IsOk(status)
    ensures var r := FetchBunkerStatus(lastRequestTime, now, Replied(status, Parsed(body))).result;
      && (status == 429 ==> r == EmptySnapshot(now, UpstreamRateLimitedSource))
      && (status != 429 && Truthy(body.error) ==> r == EmptySnapshot(now, ErrorPrefix + body.error.value))
      && (status != 429 && !Truthy(body.error) ==> r == EmptySnapshot(now, ErrorPrefix + UnknownErrorMessage))
  {
  }

  /** The service module: the stamp of its last request. */
  class DiscordApiClient {
    var lastRequestTime: int

    constructor()
      ensures lastRequestTime == 0
    {
      lastRequestTime := 0;
    }

    /** `fetchBunkerStatus()` at instant `now`; `outcome` is how the request ends if it is sent. */
    method Fetch(now: int, outcome: ApiOutcome) returns (result: Payload)
      modifies this
      ensures Fetched(result, lastRequestTime) == FetchBunkerStatus(old(lastRequestTime), now, outcome)
    {
      if now - lastRequestTime < MinRequestInterval {
        return EmptySnapshot(now, RateLimitedSource);
      }
      lastRequestTime := now;
      match outcome {
        case FetchThrew(m) =>
          result := EmptySnapshot(now, ErrorPrefix + m);
        case Replied(status, Unparsable(m)) =>
          result := EmptySnapshot(now, ErrorPrefix + m);
        case Replied(status, Parsed(data)) =>
          if !IsOk(status) {
            if status == 429 {
              return EmptySnapshot(now, UpstreamRateLimitedSource);
            }
            var message := OrElse(data.error, UnknownErrorMessage);
            result := EmptySnapshot(now, ErrorPrefix + message);
          } else {
            result := data;
          }
      }
    }
  }
}
