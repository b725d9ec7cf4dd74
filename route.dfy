/**
 * The server route `GET /api/bunkers` (src/app/api/bunkers/route.ts): a process-wide cooldown,
 * the configuration check, the credential-format fallback against the chat platform, the
 * decision between real data, canned data and an error, and the parser that turns status
 * embeds into bunkers.
 */
module BunkersRoute {
  import opened BunkerTypes
  import opened Text
  import opened TimestampToken
  import opened Throttle
  import MockData

  // ---------------------------------------------------------------------------------------------
  // Upstream shapes and outcomes

  /** The only parts of a chat message the route reads. */
  datatype Field = Field(value: string)
  datatype Embed = Embed(title: Option<string>, fields: Option<seq<Field>>)
  datatype Message = Message(embeds: Option<seq<Embed>>)

  /** An HTTP status for which `response.ok` is false. */
  type ErrorStatus = s: nat | !(200 <= s < 300) witness 500

  /**
   * What one `fetch` with one Authorization header produced: a 2xx reply whose body is an array
   * of messages (None when the body is not one), a reply with a non-2xx status, or an exception.
   */
  datatype Attempt = Ok(body: Option<seq<Message>>) | Http(status: ErrorStatus, statusText: string) | Threw

  /** The `response` variable after the loop, when some attempt produced one. */
  datatype Reply = Accepted(body: Option<seq<Message>>) | Rejected(status: ErrorStatus, statusText: string)

  /** What the handler sends: a 200 snapshot, or a status with a JSON `{ error }` body. */
  datatype RouteResponse = Json(snapshot: BunkerStatus) | Error(status: nat, message: string)

  const StatusMarker: string := "BUNKER STATUS"
  const NextActivationMarker: string := "Next Activation:"
  const ConfigErrorMessage: string := "Configuração do servidor incompleta. Contate o administrador."
  const InternalErrorMessage: string := "Erro interno do servidor"
  const MockSourcePrefix: string := "Mock Data (Erro de autorização: "

  // ---------------------------------------------------------------------------------------------
  // Timestamp extraction and the cooldown gate

  /** `extractTimestamp`: the leftmost marker's value in milliseconds, or 0. */
  function ExtractTimestamp(text: string): nat
  {
    match TokenSeconds(text)
    case None => 0
    case Some(v) => v * 1000
  }

  /** No marker gives 0; otherwise 1000 times the decimal value of the leftmost marker's digits. */
  lemma ExtractTimestampMeaning(text: string)
    ensures (forall j, k :: !TokenAt(text, j, k)) ==> ExtractTimestamp(text) == 0
    ensures forall i, k :: LeftmostToken(text, i, k) ==>
              ExtractTimestamp(text) == 1000 * DigitsValue(text[i + 3..k])
  {
    TokenSecondsMeaning(text);
  }

  /** A marker written for instant `n` (in seconds) after text without '<' reads as `n` seconds in ms. */
  lemma ExtractTimestampOfToken(p: string, n: nat, q: string)
    requires '<' !in p
    ensures ExtractTimestamp(p + Token(n) + q) == 1000 * n
  {
    TokenSecondsOfToken(p, n, q);
  }

  /** `canMakeRequest`, with the clock reading passed in. */
  predicate CanMakeRequest(lastRequestTime: int, now: int)
  {
    CooldownElapsed(lastRequestTime, now)
  }

  /**
   * With the stamp at its initial 0: a call at 0 is refused, one at 4999 ms waits one second, and
   * one at 5000 ms is accepted.
   */
  lemma CooldownFromStart()
    ensures !CanMakeRequest(0, 0) && WaitSeconds(0, 0) == 5
    ensures !CanMakeRequest(0, 4999) && WaitSeconds(0, 4999) == 1
    ensures CanMakeRequest(0, 5000)
  {
  }

  /** `!DISCORD_TOKEN`, `!DISCORD_CHANNEL_ID`: unset and empty both count as missing. */
  predicate Configured(token: Option<string>, channelId: Option<string>)
  {
    Truthy(token) && Truthy(channelId)
  }

  // ---------------------------------------------------------------------------------------------
  // Credential-format fallback

  /** `authFormats`: bot prefix, bearer prefix, then the raw credential. */
  function AuthFormats(token: string): (hs: seq<string>)
    ensures |hs| == 3
  {
    ["Bot " + token, "Bearer " + token, token]
  }

  /**
   * The value of `response` after trying the headers `hs` in order, starting from `prev`: the first
   * 2xx reply ends the loop; a non-2xx reply replaces `response`; an exception leaves it alone.
   */
  function FinalReply(hs: seq<string>, respond: string -> Attempt, prev: Option<Reply>): Option<Reply>
  {
    if |hs| == 0 then prev
    else match respond(hs[0])
      case Ok(b) => Some(Accepted(b))
      case Http(st, tx) => FinalReply(hs[1..], respond, Some(Rejected(st, tx)))
      case Threw => FinalReply(hs[1..], respond, prev)
  }

  /** How many headers the loop sends: up to and including the first 2xx, or all of them. */
  function AttemptCount(hs: seq<string>, respond: string -> Attempt): (n: nat)
    ensures n <= |hs|
  {
    if |hs| == 0 then 0 else if respond(hs[0]).Ok? then 1 else 1 + AttemptCount(hs[1..], respond)
  }

  /** The loop stops at the first 2xx reply and uses it. */
  lemma {:induction false} FirstOkDecides(hs: seq<string>, respond: string -> Attempt, prev: Option<Reply>, j: nat)
    requires j < |hs| && respond(hs[j]).Ok?
    requires forall l :: 0 <= l < j ==> !respond(hs[l]).Ok?
    ensures FinalReply(hs, respond, prev) == Some(Accepted(respond(hs[j]).body))
    ensures AttemptCount(hs, respond) == j + 1
  {
    if j > 0 {
      var t := hs[1..];
      assert t[j - 1] == hs[j];
      assert forall l :: 0 <= l < j - 1 ==> t[l] == hs[l + 1];
      var next := if respond(hs[0]).Http? then Some(Rejected(respond(hs[0]).status, respond(hs[0]).statusText)) else prev;
      FirstOkDecides(t, respond, next, j - 1);
    }
  }

  /** Without a 2xx reply, every header is sent. */
  lemma {:induction false} NoOkSendsAll(hs: seq<string>, respond: string -> Attempt)
    requires forall l :: 0 <= l < |hs| ==> !respond(hs[l]).Ok?
    ensures AttemptCount(hs, respond) == |hs|
  {
    if |hs| > 0 {
      var t := hs[1..];
      assert forall l :: 0 <= l < |t| ==> t[l] == hs[l + 1];
      NoOkSendsAll(t, respond);
    }
  }

  /** Attempts that all throw leave `response` as it was. */
  lemma {:induction false} AllThrewKeepsReply(hs: seq<string>, respond: string -> Attempt, prev: Option<Reply>)
    requires forall l :: 0 <= l < |hs| ==> respond(hs[l]).Threw?
    ensures FinalReply(hs, respond, prev) == prev
  {
    if |hs| > 0 {
      var t := hs[1..];
      assert forall l :: 0 <= l < |t| ==> t[l] == hs[l + 1];
      AllThrewKeepsReply(t, respond, prev);
    }
  }

  /**
   * Without a 2xx reply the decision uses the most recent attempt that produced a reply: a later
   * attempt that throws does not overwrite `response`.
   */
  lemma {:induction false} LatestReplyDecides(hs: seq<string>, respond: string -> Attempt, prev: Option<Reply>, j: nat)
    requires j < |hs| && respond(hs[j]).Http?
    requires forall l :: 0 <= l < j ==> !respond(hs[l]).Ok?
    requires forall l :: j < l < |hs| ==> respond(hs[l]).Threw?
    ensures FinalReply(hs, respond, prev) == Some(Rejected(respond(hs[j]).status, respond(hs[j]).statusText))
  {
    var t := hs[1..];
    assert forall l :: 0 <= l < |t| ==> t[l] == hs[l + 1];
    if j > 0 {
      var next := if respond(hs[0]).Http? then Some(Rejected(respond(hs[0]).status, respond(hs[0]).statusText)) else prev;
      LatestReplyDecides(t, respond, next, j - 1);
    } else {
      AllThrewKeepsReply(t, respond, Some(Rejected(respond(hs[0]).status, respond(hs[0]).statusText)));
    }
  }

  /** The `for (const authFormat of authFormats)` loop: sends headers in order until one is accepted. */
  method TryAuthFormats(hs: seq<string>, respond: string -> Attempt) returns (response: Option<Reply>, tried: seq<string>)
    ensures response == FinalReply(hs, respond, None)
    ensures tried == hs[..AttemptCount(hs, respond)]
  {
    response, tried := None, [];
    var i := 0;
    while i < |hs|
      invariant 0 <= i <= |hs| && tried == hs[..i]
      invariant FinalReply(hs, respond, None) == FinalReply(hs[i..], respond, response)
      invariant AttemptCount(hs, respond) == i + AttemptCount(hs[i..], respond)
    {
      var attempt := respond(hs[i]);
      tried := tried + [hs[i]];
      assert hs[i..][0] == hs[i] && hs[i..][1..] == hs[i + 1..];
      if attempt.Ok? {
        response := Some(Accepted(attempt.body));
        assert tried == hs[..i + 1];
        return;
      } else if attempt.Http? {
        response := Some(Rejected(attempt.status, attempt.statusText));
      }
      i := i + 1;
    }
  }

  // ---------------------------------------------------------------------------------------------
  // Embed parser

  /** `embed.title && embed.title.includes('BUNKER STATUS')`. */
  predicate IsStatusEmbed(e: Embed)
  {
    e.title.Some? && Contains(e.title.value, StatusMarker)
  }

  /** The filter on messages: some embed of the message is a status embed. */
  predicate IsStatusMessage(m: Message)
  {
    m.embeds.Some? && exists j | 0 <= j < |m.embeds.value| :: IsStatusEmbed(m.embeds.value[j])
  }

  /** `messages.filter(...)`: the status messages, in their original order. */
  function StatusMessages(ms: seq<Message>): (r: seq<Message>)
    ensures |r| <= |ms|
    ensures forall m :: m in r ==> m in ms && IsStatusMessage(m)
    ensures forall i :: 0 <= i < |ms| && IsStatusMessage(ms[i]) ==> ms[i] in r
  {
    if |ms| == 0 then []
    else StatusMessages(ms[..|ms| - 1]) + (if IsStatusMessage(ms[|ms| - 1]) then [ms[|ms| - 1]] else [])
  }

  /** The positions of the status messages in a batch. */
  function StatusIndices(ms: seq<Message>): set<int>
  {
    set i | 0 <= i < |ms| && IsStatusMessage(ms[i])
  }

  /** The filter keeps one message per status position, so `messageCount` counts the status messages. */
  lemma {:induction false} StatusMessagesCount(ms: seq<Message>)
    ensures |StatusMessages(ms)| == |StatusIndices(ms)|
  {
    if |ms| > 0 {
      var init := ms[..|ms| - 1];
      StatusMessagesCount(init);
      StatusIndicesSnoc(ms);
    }
  }

  /** One more message adds its position exactly when it is a status message. */
  lemma StatusIndicesSnoc(ms: seq<Message>)
    requires |ms| > 0
    ensures var init, last := ms[..|ms| - 1], |ms| - 1;
      |StatusIndices(ms)| == |StatusIndices(init)| + (if IsStatusMessage(ms[last]) then 1 else 0)
  {
    var init, last := ms[..|ms| - 1], |ms| - 1;
    var a, b := StatusIndices(init), StatusIndices(ms);
    assert forall i :: i in b && i != last ==> i in a;
    assert forall i :: i in a ==> i in b && i != last;
    if IsStatusMessage(ms[last]) {
      assert b == a + {last};
    } else {
      assert b == a;
    }
  }

  /** One group of three fields (sector, status, time) as a bunker. */
  function BunkerFromFields(sector: Field, status: Field, time: Field): Bunker
  {
    var isActive := Trim(status.value) == "Active";
    var timestamp :=
      if isActive then ExtractTimestamp(time.value)
      else if Contains(time.value, NextActivationMarker) then ExtractTimestamp(time.value)
      else 0;
    Bunker(Trim(sector.value), isActive, timestamp)
  }

  /** The bunkers of a field list, one per complete group of three; a trailing partial group is dropped. */
  function FieldBunkers(fs: seq<Field>): seq<Bunker>
  {
    if |fs| < 3 then [] else [BunkerFromFields(fs[0], fs[1], fs[2])] + FieldBunkers(fs[3..])
  }

  function EmbedBunkers(e: Embed): seq<Bunker>
  {
    if IsStatusEmbed(e) && e.fields.Some? then FieldBunkers(e.fields.value) else []
  }

  function EmbedsBunkers(es: seq<Embed>): seq<Bunker>
  {
    if |es| == 0 then [] else EmbedsBunkers(es[..|es| - 1]) + EmbedBunkers(es[|es| - 1])
  }

  function MessageBunkers(m: Message): seq<Bunker>
  {
    if m.embeds.Some? then EmbedsBunkers(m.embeds.value) else []
  }

  function MessagesBunkers(ms: seq<Message>): seq<Bunker>
  {
    if |ms| == 0 then [] else MessagesBunkers(ms[..|ms| - 1]) + MessageBunkers(ms[|ms| - 1])
  }

  /** The bunkers the route reports for a batch of messages, in message, embed and field order. */
  function ParseBunkers(ms: seq<Message>): seq<Bunker>
  {
    MessagesBunkers(StatusMessages(ms))
  }

  /** A field list of n fields gives exactly floor(n / 3) bunkers. */
  lemma {:induction false} FieldBunkersCount(fs: seq<Field>)
    ensures |FieldBunkers(fs)| == |fs| / 3
  {
    if |fs| >= 3 {
      FieldBunkersCount(fs[3..]);
    }
  }

  /** Bunker `g` comes from fields 3g, 3g + 1 and 3g + 2, so field order is kept. */
  lemma {:induction false} FieldBunkersAt(fs: seq<Field>, g: nat)
    requires 3 * g + 2 < |fs|
    ensures g < |FieldBunkers(fs)|
    ensures FieldBunkers(fs)[g] == BunkerFromFields(fs[3 * g], fs[3 * g + 1], fs[3 * g + 2])
  {
    FieldBunkersCount(fs);
    if g > 0 {
      var t := fs[3..];
      FieldBunkersAt(t, g - 1);
      var k := 3 * (g - 1);
      assert t[k] == fs[k + 3] && t[k + 1] == fs[k + 4] && t[k + 2] == fs[k + 5];
      assert FieldBunkers(fs)[g] == FieldBunkers(t)[g - 1];
    }
  }

  /**
   * The fields of one group decide the bunker: the trimmed sector is the name, only a trimmed status
   * of exactly "Active" is active, and an inactive bunker without "Next Activation:" has instant 0.
   */
  lemma BunkerFromFieldsMeaning(sector: Field, status: Field, time: Field)
    ensures BunkerFromFields(sector, status, time).name == Trim(sector.value)
    ensures BunkerFromFields(sector, status, time).isActive <==> Trim(status.value) == "Active"
    ensures !BunkerFromFields(sector, status, time).isActive && !Contains(time.value, NextActivationMarker) ==>
              BunkerFromFields(sector, status, time).timestamp == 0
    ensures BunkerFromFields(sector, status, time).isActive || Contains(time.value, NextActivationMarker) ==>
              BunkerFromFields(sector, status, time).timestamp == ExtractTimestamp(time.value)
  {
  }

  /** The match is case-sensitive: a status of "active" is inactive. */
  lemma LowercaseStatusIsInactive(sector: Field, time: Field)
    ensures !BunkerFromFields(sector, Field("active"), time).isActive
  {
    TrimNoPadding("active");
  }

  /** The number of complete groups in the status embeds of the given messages. */
  function GroupCount(ms: seq<Message>): nat
  {
    if |ms| == 0 then 0 else GroupCount(ms[..|ms| - 1]) + MessageGroups(ms[|ms| - 1])
  }

  function MessageGroups(m: Message): nat
  {
    if m.embeds.Some? then EmbedsGroups(m.embeds.value) else 0
  }

  function EmbedsGroups(es: seq<Embed>): nat
  {
    if |es| == 0 then 0
    else EmbedsGroups(es[..|es| - 1])
         + (var e := es[|es| - 1]; if IsStatusEmbed(e) && e.fields.Some? then |e.fields.value| / 3 else 0)
  }

  lemma {:induction false} EmbedsBunkersCount(es: seq<Embed>)
    ensures |EmbedsBunkers(es)| == EmbedsGroups(es)
    ensures (forall j :: 0 <= j < |es| ==> !IsStatusEmbed(es[j])) ==> EmbedsGroups(es) == 0
  {
    if |es| > 0 {
      EmbedsBunkersCount(es[..|es| - 1]);
      var e := es[|es| - 1];
      if e.fields.Some? {
        FieldBunkersCount(e.fields.value);
      }
    }
  }

  lemma {:induction false} MessagesBunkersCount(ms: seq<Message>)
    ensures |MessagesBunkers(ms)| == GroupCount(ms)
  {
    if |ms| > 0 {
      MessagesBunkersCount(ms[..|ms| - 1]);
      var m := ms[|ms| - 1];
      if m.embeds.Some? {
        EmbedsBunkersCount(m.embeds.value);
      }
    }
  }

  lemma {:induction false} StatusMessagesKeepGroups(ms: seq<Message>)
    ensures GroupCount(StatusMessages(ms)) == GroupCount(ms)
  {
    if |ms| > 0 {
      var init, m := ms[..|ms| - 1], ms[|ms| - 1];
      StatusMessagesKeepGroups(init);
      var r := StatusMessages(ms);
      if IsStatusMessage(m) {
        assert r[..|r| - 1] == StatusMessages(init);
      } else {
        assert r == StatusMessages(init);
        if m.embeds.Some? {
          EmbedsBunkersCount(m.embeds.value);
        }
      }
    }
  }

  /**
   * The route reports exactly one bunker per complete group of three fields in the status embeds of
   * the batch; filtering the messages first loses none of them.
   */
  lemma ParseBunkersCount(ms: seq<Message>)
    ensures |ParseBunkers(ms)| == GroupCount(ms)
  {
    MessagesBunkersCount(StatusMessages(ms));
    StatusMessagesKeepGroups(ms);
  }

  /**
   * The largest instant a JavaScript date can hold, in milliseconds: 100 000 000 days after the
   * epoch. `toISOString` of a later instant throws a RangeError.
   */
  const MaxDateMs: int := 8640000000000000

  /**
   * `new Date(timestamp).toISOString()`, reached for every positive instant, throws: the instant
   * is past the largest date.
   */
  predicate DateThrows(timestamp: int)
  {
    timestamp > MaxDateMs
  }

  /** No bunker of the list makes the date conversion throw. */
  predicate AllDatable(bs: seq<Bunker>)
  {
    forall i :: 0 <= i < |bs| ==> !DateThrows(bs[i].timestamp)
  }

  lemma AllDatableAppend(x: seq<Bunker>, y: seq<Bunker>)
    ensures AllDatable(x + y) <==> AllDatable(x) && AllDatable(y)
  {
    if AllDatable(x + y) {
      forall i | 0 <= i < |x| ensures !DateThrows(x[i].timestamp) {
        assert (x + y)[i] == x[i];
      }
      forall i | 0 <= i < |y| ensures !DateThrows(y[i].timestamp) {
        assert (x + y)[|x| + i] == y[i];
      }
    }
    if AllDatable(x) && AllDatable(y) {
      forall i | 0 <= i < |x + y| ensures !DateThrows((x + y)[i].timestamp) {
        if i >= |x| {
          assert (x + y)[i] == y[i - |x|];
        }
      }
    }
  }

  /** A marker of more than 8 640 000 000 000 seconds makes an active bunker's date conversion throw. */
  lemma LateMarkerThrows(sector: Field, n: nat)
    requires n > MaxDateMs / 1000
    ensures BunkerFromFields(sector, Field("Active"), Field(Token(n))).isActive
    ensures DateThrows(BunkerFromFields(sector, Field("Active"), Field(Token(n))).timestamp)
  {
    TrimNoPadding("Active");
    ExtractTimestampOfToken("", n, "");
    assert "" + Token(n) + "" == Token(n);
  }

  /**
   * The `for (let i = 0; i < fields.length; i += 3)` loop: one bunker per complete group, until a
   * group whose instant cannot be converted to a date throws out of the loop.
   */
  method ParseFields(fields: seq<Field>, bunkers: seq<Bunker>) returns (bunkers': seq<Bunker>, threw: bool)
    ensures threw <==> !AllDatable(FieldBunkers(fields))
    ensures !threw ==> bunkers' == bunkers + FieldBunkers(fields)
  {
    bunkers', threw := bunkers, false;
    ghost var done: seq<Bunker> := [];
    var i := 0;
    while i < |fields|
      invariant i % 3 == 0
      invariant bunkers' == bunkers + done && AllDatable(done)
      invariant FieldBunkers(fields) == done + FieldBunkers(FieldsFrom(fields, i))
    {
      if i + 2 < |fields| {
        var b := BunkerFromFields(fields[i], fields[i + 1], fields[i + 2]);
        ghost var rest := FieldBunkers(fields[i + 3..]);
        assert fields[i..][3..] == fields[i + 3..];
        assert FieldBunkers(fields[i..]) == [b] + rest;
        if DateThrows(b.timestamp) {
          assert ([b] + rest)[0] == b;
          AllDatableAppend(done, [b] + rest);
          return bunkers', true;
        }
        AllDatableAppend(done, [b]);
        AppendAssoc(bunkers, done, [b]);
        AppendAssoc(done, [b], rest);
        bunkers' := bunkers' + [b];
        done := done + [b];
      }
      i := i + 3;
    }
    assert done + [] == done;
  }

  /** The fields from index `i` on; none once `i` is past the end. */
  function FieldsFrom(fields: seq<Field>, i: nat): seq<Field>
  {
    if i <= |fields| then fields[i..] else []
  }

  lemma EmbedsBunkersSnoc(es: seq<Embed>, e: nat)
    requires e < |es|
    ensures EmbedsBunkers(es[..e + 1]) == EmbedsBunkers(es[..e]) + EmbedBunkers(es[e])
  {
    assert es[..e + 1][..e] == es[..e];
  }

  lemma MessagesBunkersSnoc(ms: seq<Message>, m: nat)
    requires m < |ms|
    ensures MessagesBunkers(ms[..m + 1]) == MessagesBunkers(ms[..m]) + MessageBunkers(ms[m])
  {
    assert ms[..m + 1][..m] == ms[..m];
  }

  /** A throwing group in the first `k` embeds is a throwing group of all of them. */
  lemma {:induction false} EmbedsBunkersPrefix(es: seq<Embed>, k: nat)
    requires k <= |es|
    ensures AllDatable(EmbedsBunkers(es)) ==> AllDatable(EmbedsBunkers(es[..k]))
    decreases |es| - k
  {
    if k < |es| {
      EmbedsBunkersPrefix(es, k + 1);
      EmbedsBunkersSnoc(es, k);
      AllDatableAppend(EmbedsBunkers(es[..k]), EmbedBunkers(es[k]));
    } else {
      assert es[..k] == es;
    }
  }

  /** A throwing group in the first `k` messages is a throwing group of all of them. */
  lemma {:induction false} MessagesBunkersPrefix(ms: seq<Message>, k: nat)
    requires k <= |ms|
    ensures AllDatable(MessagesBunkers(ms)) ==> AllDatable(MessagesBunkers(ms[..k]))
    decreases |ms| - k
  {
    if k < |ms| {
      MessagesBunkersPrefix(ms, k + 1);
      MessagesBunkersSnoc(ms, k);
      AllDatableAppend(MessagesBunkers(ms[..k]), MessageBunkers(ms[k]));
    } else {
      assert ms[..k] == ms;
    }
  }

  /** Appending is associative; stated once so the parsing loops need not rediscover it. */
  lemma AppendAssoc(a: seq<Bunker>, b: seq<Bunker>, c: seq<Bunker>)
    ensures (a + b) + c == a + (b + c)
  {
  }

  /** The body of `message.embeds?.forEach(...)`: the groups of a status embed that has fields. */
  method ParseEmbed(embed: Embed, bunkers: seq<Bunker>) returns (bunkers': seq<Bunker>, threw: bool)
    ensures threw <==> !AllDatable(EmbedBunkers(embed))
    ensures !threw ==> bunkers' == bunkers + EmbedBunkers(embed)
  {
    if IsStatusEmbed(embed) && embed.fields.Some? {
      bunkers', threw := ParseFields(embed.fields.value, bunkers);
    } else {
      bunkers', threw := bunkers, false;
    }
  }

  /** `message.embeds?.forEach(...)`: the groups of every status embed that has fields, until one throws. */
  method ParseEmbeds(embeds: seq<Embed>, bunkers: seq<Bunker>) returns (bunkers': seq<Bunker>, threw: bool)
    ensures threw <==> !AllDatable(EmbedsBunkers(embeds))
    ensures !threw ==> bunkers' == bunkers + EmbedsBunkers(embeds)
  {
    bunkers', threw := bunkers, false;
    for e := 0 to |embeds|
      invariant !threw && bunkers' == bunkers + EmbedsBunkers(embeds[..e])
      invariant AllDatable(EmbedsBunkers(embeds[..e]))
    {
      bunkers', threw := ParseEmbed(embeds[e], bunkers');
      EmbedsBunkersSnoc(embeds, e);
      AllDatableAppend(EmbedsBunkers(embeds[..e]), EmbedBunkers(embeds[e]));
      if threw {
        EmbedsBunkersPrefix(embeds, e + 1);
        return;
      }
      AppendAssoc(bunkers, EmbedsBunkers(embeds[..e]), EmbedBunkers(embeds[e]));
    }
    assert embeds[..|embeds|] == embeds;
  }

  /**
   * The parsing loops of `GET`: for each status message, for each status embed with fields, one
   * bunker per group of three fields, until a group's date conversion throws.
   */
  method ParseMessages(messages: seq<Message>) returns (bunkers: seq<Bunker>, threw: bool)
    ensures threw <==> !AllDatable(ParseBunkers(messages))
    ensures !threw ==> bunkers == ParseBunkers(messages) && |bunkers| == GroupCount(messages)
  {
    var statusMessages := StatusMessages(messages);
    bunkers, threw := [], false;
    for m := 0 to |statusMessages|
      invariant !threw && bunkers == MessagesBunkers(statusMessages[..m]) && AllDatable(bunkers)
    {
      var message := statusMessages[m];
      MessagesBunkersSnoc(statusMessages, m);
      AllDatableAppend(MessagesBunkers(statusMessages[..m]), MessageBunkers(message));
      if message.embeds.Some? {
        bunkers, threw := ParseEmbeds(message.embeds.value, bunkers);
        if threw {
          MessagesBunkersPrefix(statusMessages, m + 1);
          return;
        }
      }
    }
    assert statusMessages[..|statusMessages|] == statusMessages;
    ParseBunkersCount(messages);
  }

  // ---------------------------------------------------------------------------------------------
  // Decision and the handler

  /** The canned snapshot, stamped with the current time and a source explaining the fallback. */
  function MockSnapshot(mock: BunkerStatus, now: int, reason: string): BunkerStatus
  {
    mock.(lastUpdate := now, source := Some(MockSourcePrefix + reason + ")"))
  }

  /** What the handler returns once the loop has left `response` as `reply`. */
  function Decide(reply: Option<Reply>, now: int, mock: BunkerStatus): RouteResponse
  {
    match reply
    case None => Json(MockSnapshot(mock, now, "Falha na conexão"))
    case Some(Rejected(st, tx)) =>
      if st == 401 || st == 403 then Json(MockSnapshot(mock, now, NatToString(st) + " " + tx))
      else Error(st, "Erro ao buscar dados: " + tx)
    case Some(Accepted(None)) => Error(500, InternalErrorMessage)
    case Some(Accepted(Some(ms))) =>
      var bunkers := ParseBunkers(ms);
      if AllDatable(bunkers) then Json(BunkerStatus(bunkers, now, Some("Discord API"), Some(|StatusMessages(ms)|)))
      else Error(500, InternalErrorMessage)
  }

  /** The response of `GET`, the new `lastRequestTime` and the Authorization headers sent. */
  datatype Handled = Handled(response: RouteResponse, lastRequestTime: int, tried: seq<string>)

  /** The whole behaviour of one call of `GET` at instant `now`. */
  function HandleGet(last: int, now: int, token: Option<string>, channelId: Option<string>,
                     respond: string -> Attempt, mock: BunkerStatus): Handled
  {
    if !CanMakeRequest(last, now) then
      Handled(Error(429, WaitMessage(WaitSeconds(last, now))), last, [])
    else if !Configured(token, channelId) then
      Handled(Error(500, ConfigErrorMessage), now, [])
    else
      var hs := AuthFormats(token.value);
      Handled(Decide(FinalReply(hs, respond, None), now, mock), now, hs[..AttemptCount(hs, respond)])
  }

  /**
   * A rejected call changes nothing, sends nothing and answers 429 with the whole seconds left; an
   * accepted call stamps `now` before anything else, even when the configuration is missing.
   */
  lemma CooldownGate(last: int, now: int, token: Option<string>, channelId: Option<string>,
                     respond: string -> Attempt, mock: BunkerStatus)
    ensures var h := HandleGet(last, now, token, channelId, respond, mock);
      && (h.lastRequestTime == now <==> now - last >= 5000 || last == now)
      && (now - last < 5000 ==> h.tried == [] && h.response.Error? && h.response.status == 429
                                && h.response.message == WaitMessage(WaitSeconds(last, now)))
      && (now - last < 5000 && last <= now ==> 1 <= WaitSeconds(last, now) <= 5)
      && (now - last >= 5000 && !Configured(token, channelId) ==>
            h.response == Error(500, ConfigErrorMessage) && h.tried == [])
  {
    if now - last < 5000 && last <= now {
      WaitSecondsRange(last, now);
    }
  }

  /**
   * With configuration present, the headers are tried as Bot, Bearer, raw; the call ends at the
   * first 2xx and parses it, answering 500 instead when a parsed instant is past the largest date.
   */
  lemma AuthFormatOrder(last: int, now: int, token: string, channelId: Option<string>,
                        respond: string -> Attempt, mock: BunkerStatus, j: nat)
    requires CanMakeRequest(last, now) && Configured(Some(token), channelId)
    requires j < 3 && respond(AuthFormats(token)[j]).Ok? && respond(AuthFormats(token)[j]).body.Some?
    requires forall l :: 0 <= l < j ==> !respond(AuthFormats(token)[l]).Ok?
    ensures var h := HandleGet(last, now, Some(token), channelId, respond, mock);
      var ms := respond(AuthFormats(token)[j]).body.value;
      && h.tried == ["Bot " + token, "Bearer " + token, token][..j + 1]
      && (AllDatable(ParseBunkers(ms)) ==>
            h.response == Json(BunkerStatus(ParseBunkers(ms), now, Some("Discord API"), Some(|StatusMessages(ms)|))))
      && (!AllDatable(ParseBunkers(ms)) ==> h.response == Error(500, InternalErrorMessage))
  {
    FirstOkDecides(AuthFormats(token), respond, None, j);
  }

  /**
   * Without a 2xx reply: no reply at all, or a latest reply of 401 or 403, serves the canned data
   * under a "Mock Data (Erro de autorização: " source; any other latest status is passed on as an error.
   */
  lemma AuthFailureFallback(last: int, now: int, token: string, channelId: Option<string>,
                            respond: string -> Attempt, mock: BunkerStatus, j: nat)
    requires CanMakeRequest(last, now) && Configured(Some(token), channelId)
    requires forall l :: 0 <= l < 3 ==> !respond(AuthFormats(token)[l]).Ok?
    requires j < 3 && respond(AuthFormats(token)[j]).Http?
    requires forall l :: j < l < 3 ==> respond(AuthFormats(token)[l]).Threw?
    ensures var h := HandleGet(last, now, Some(token), channelId, respond, mock);
      var a := respond(AuthFormats(token)[j]);
      && h.tried == AuthFormats(token)
      && (a.status == 401 || a.status == 403 ==>
            h.response == Json(MockSnapshot(mock, now, NatToString(a.status) + " " + a.statusText)))
      && (a.status != 401 && a.status != 403 ==>
            h.response == Error(a.status, "Erro ao buscar dados: " + a.statusText))
  {
    NoOkSendsAll(AuthFormats(token), respond);
    LatestReplyDecides(AuthFormats(token), respond, None, j);
  }

  /** When every attempt throws, the canned data is served with "Falha na conexão" as the reason. */
  lemma ConnectionFailureFallback(last: int, now: int, token: string, channelId: Option<string>,
                                  respond: string -> Attempt, mock: BunkerStatus)
    requires CanMakeRequest(last, now) && Configured(Some(token), channelId)
    requires forall l :: 0 <= l < 3 ==> respond(AuthFormats(token)[l]).Threw?
    ensures HandleGet(last, now, Some(token), channelId, respond, mock).response
            == Json(MockSnapshot(mock, now, "Falha na conexão"))
  {
    AllThrewKeepsReply(AuthFormats(token), respond, None);
  }

  /** A credential refused with 401 for every format gets the non-empty canned data, never an error. */
  lemma UnauthorizedEverywhereServesMock(last: int, now: int, token: string, channelId: Option<string>,
                                         loadTime: int, text: string)
    requires CanMakeRequest(last, now) && Configured(Some(token), channelId)
    ensures var r := HandleGet(last, now, Some(token), channelId, _ => Http(401, text),
                               MockData.MockBunkerData(loadTime)).response;
      && r.Json? && |r.snapshot.bunkers| > 0
      && r.snapshot.source.Some? && |MockSourcePrefix| <= |r.snapshot.source.value|
      && r.snapshot.source.value[..|MockSourcePrefix|] == MockSourcePrefix
  {
    var respond: string -> Attempt := _ => Http(401, text);
    AuthFailureFallback(last, now, token, channelId, respond, MockData.MockBunkerData(loadTime), 2);
  }

  /** The route module: its cooldown stamp, its configuration and the canned data it was loaded with. */
  class Route {
    var lastRequestTime: int
    const token: Option<string>
    const channelId: Option<string>
    const mock: BunkerStatus

    /** Loading the module at `loadTime` with the given environment. */
    constructor(loadTime: int, token: Option<string>, channelId: Option<string>)
      ensures lastRequestTime == 0
      ensures this.token == token && this.channelId == channelId
      ensures mock == MockData.MockBunkerData(loadTime)
    {
      lastRequestTime := 0;
      this.token := token;
      this.channelId := channelId;
      mock := MockData.MockBunkerData(loadTime);
    }

    /** `GET /api/bunkers` at instant `now`; `respond` is the chat platform's answer to each header. */
    method Get(now: int, respond: string -> Attempt) returns (response: RouteResponse, tried: seq<string>)
      modifies this
      ensures Handled(response, lastRequestTime, tried)
              == HandleGet(old(lastRequestTime), now, token, channelId, respond, mock)
    {
      tried := [];
      if !CanMakeRequest(lastRequestTime, now) {
        var waitTime := WaitSeconds(lastRequestTime, now);
        return Error(429, WaitMessage(waitTime)), tried;
      }
      lastRequestTime := now;
      if !Configured(token, channelId) {
        return Error(500, ConfigErrorMessage), tried;
      }
      var reply;
      reply, tried := TryAuthFormats(AuthFormats(token.value), respond);
      match reply {
        case None =>
          response := Json(MockSnapshot(mock, now, "Falha na conexão"));
        case Some(Rejected(st, tx)) =>
          if st == 401 || st == 403 {
            response := Json(MockSnapshot(mock, now, NatToString(st) + " " + tx));
          } else {
            response := Error(st, "Erro ao buscar dados: " + tx);
          }
        case Some(Accepted(body)) =>
          if body.None? {
            response := Error(500, InternalErrorMessage);
          } else {
            var messages := body.value;
            var bunkers, threw := ParseMessages(messages);
            if threw {
              response := Error(500, InternalErrorMessage);
            } else {
              response := Json(BunkerStatus(bunkers, now, Some("Discord API"), Some(|StatusMessages(messages)|)));
            }
          }
      }
    }
  }
}
