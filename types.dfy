/** The data model of src/types/bunker.ts and the JSON shapes the client reads. */
module BunkerTypes {

  datatype Option<+T> = None | Some(value: T)

  /** One bunker: its trimmed sector name, whether it is active, and an instant (0 = unknown). */
  datatype Bunker = Bunker(name: string, isActive: bool, timestamp: int)

  /** One snapshot produced by a fetch-and-parse cycle; `source` and `messageCount` are optional. */
  datatype BunkerStatus = BunkerStatus(
    bunkers: seq<Bunker>,
    lastUpdate: int,
    source: Option<string>,
    messageCount: Option<int>)

  /**
   * A JSON object as a client receives it: every key may be absent. `bunkers` is `Some`
   * exactly when the key holds an array; `error` is the key the server uses for failures.
   */
  datatype Payload = Payload(
    bunkers: Option<seq<Bunker>>,
    lastUpdate: Option<int>,
    source: Option<string>,
    messageCount: Option<int>,
    error: Option<string>)

  /** The result of `response.json()`: a decoded object, or the message of the exception it threw. */
  datatype JsonBody = Parsed(payload: Payload) | Unparsable(message: string)

  /**
   * How a browser-side `fetch` of `/api/bunkers` ended: the exception's message, or the reply's
   * status and body.
   */
  datatype ApiOutcome = FetchThrew(message: string) | Replied(status: nat, body: JsonBody)

  /** `response.ok`. */
  predicate IsOk(status: nat)
  {
    200 <= status < 300
  }

  /** The JSON encoding of a snapshot: every key it has is present, and there is no `error`. */
  function ToPayload(s: BunkerStatus): Payload
  {
    Payload(Some(s.bunkers), Some(s.lastUpdate), s.source, s.messageCount, None)
  }

  /**
   * A received object read back as a snapshot: one with an `error`, or without the `bunkers`
   * array or `lastUpdate`, is not one.
   */
  function FromPayload(p: Payload): Option<BunkerStatus>
  {
    if p.error.None? && p.bunkers.Some? && p.lastUpdate.Some? then
      Some(BunkerStatus(p.bunkers.value, p.lastUpdate.value, p.source, p.messageCount))
    else None
  }

  /**
   * Encoding and reading back are inverse: a snapshot survives the trip, and an object that
   * reads as a snapshot is exactly that snapshot's encoding.
   */
  lemma PayloadRoundTrip(s: BunkerStatus, p: Payload)
    ensures FromPayload(ToPayload(s)) == Some(s)
    ensures FromPayload(p) == Some(s) ==> p == ToPayload(s)
  {
  }

  /** JavaScript truthiness of an optional string: absent and "" are both falsy. */
  predicate Truthy(s: Option<string>)
  {
    s.Some? && s.value != ""
  }

  /** `a || b` on an optional string message, as JavaScript evaluates it. */
  function OrElse(a: Option<string>, b: string): (r: string)
    ensures r == b || (a.Some? && r == a.value)
    ensures r != "" <==> Truthy(a) || b != ""
    ensures Truthy(a) ==> r == a.value
  {
    if Truthy(a) then a.value else b
  }
}
