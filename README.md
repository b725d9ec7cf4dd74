# SCUM bunker dashboard: a verified model of its logic

The dashboard watches a Discord channel where a bot posts "BUNKER STATUS" embeds for the game
SCUM, and shows a card for each bunker with its state and a countdown. This project models the logic
behind that in Dafny and proves what each part promises.

- **Server route** (`GET /api/bunkers`), in `route.dfy`:
  - a process-wide 5000 ms cooldown that stamps the instant before any other work;
  - the configuration check;
  - the credential-format loop (`Bot `, `Bearer `, raw), which stops at the first 2xx reply;
  - the decision between parsed data, the canned snapshot (after an authorization failure or no
    reply at all) and an error;
  - the embed parser: filters status embeds, splits fields into groups of three, trims, reads the
    status exactly, reads the timestamp marker.
- **The browser-side service** `fetchBunkerStatus`, in `discord_api.dfy`: a second cooldown, and a
  mapping of every outcome to a snapshot, so the function never fails.
- **The polling component** `BunkerStatusClient`, in `bunker_status_client.dfy`:
  - its formatter and per-bunker countdown map;
  - the refresh label;
  - the `isLoading` guard and the throttle on `nextRequestTime`;
  - the state changes of `fetchData`;
  - the active-first ordering.
- **The card** `BunkerCard`: its zero-padded `HH:MM:SS` label, in `bunker_card.dfy`.
- **The utility functions** of `src/utils/bunkerUtils.ts`, which work in seconds, in `bunker_utils.dfy`.
- **The two hourly boards**, `BunkerStatus` and `BunkerContent`, in `bunker_status.dfy` and
  `bunker_content.dfy`:
  - their "ten past the hour" schedule, in `hourly_schedule.dfy`;
  - a timestamp sort, on a copy in one and in place on an `array` in the other;
  - the active/inactive partition and the "more than three active" flag.

Shared pieces:
- `types.dfy`: the data types of `src/types/bunker.ts`, plus the JSON shapes the client reads.
- `text.dfy`: digits, `includes`, `trim` and `padStart`.
- `timestamp_token.dfy`: a leftmost scanner for `<t:DIGITS:R>` that stands in for the regular
  expression.
- `throttle.dfy`: the 5000 ms window and its rounded-up wait.
- `bunker_ordering.dfy`: the stable sort for both comparators, and the partition.
- `mock_data.dfy`: the 17-entry canned snapshot.

All inputs from the outside world are parameters:
- **The clock:** `now`, one reading per atomic step.
- **The environment variables:** two `Option<string>` values.
- **The chat platform:** a function from Authorization header to attempt outcome, `respond`.
- **The browser request:** an `ApiOutcome`, i.e. an exception, or a status and a decoded or
  undecodable body.

Stateful parts are classes whose methods are proved equal to a pure function of the old state,
and the properties are lemmas about those functions:
- the route's module state `BunkersRoute.Route`;
- the service's module state `DiscordApi.DiscordApiClient`;
- the three components' React state.

Four behaviours of the code that are easy to miss:
- **First request.** The stamp starts at 0, so a call earlier than 5000 ms after the epoch is
  refused; `BunkersRoute.CooldownFromStart` and `DiscordApi.FirstCall` state it.
- **Several markers in one text.** When a text holds several markers, the leftmost one is read.
- **Late markers.** A marker past the largest JavaScript date (8.64e15 ms) makes the route's date
  conversion throw, and the route answers 500; `BunkersRoute.LateMarkerThrows` and
  `BunkersRoute.AuthFormatOrder` state it.
- **Units in the card.** `bunkerUtils.ts` and `BunkerCard.tsx` read instants as seconds, while the
  route produces milliseconds. The model keeps each unit as written
  (`BunkerUtils.RouteReadsMilliseconds` relates the two extractors).

## Model

| member | source | states |
|---|---|---|
| BunkerTypes.ToPayload | src/types/bunker.ts:7-12 | reference definition: the JSON object a snapshot is sent as; its meaning is in `PayloadRoundTrip` |
| BunkerTypes.PayloadRoundTrip | src/types/bunker.ts:7-12 | a snapshot sent as JSON reads back as itself, and an object that reads as a snapshot is exactly that snapshot's encoding |
| BunkerTypes.OrElse | src/components/BunkerStatusClient.tsx:78 | `a \|\| b` on a message yields one of its two operands, is non-empty exactly when the message or the fallback is, and prefers a non-empty message |
| Text.NatToString | src/components/BunkerStatusClient.tsx:46-50 | a template literal `${n}` renders a non-empty digit string, one digit exactly below 10, starting with '0' only for 0 |
| Text.NatToStringRoundTrip | src/components/BunkerStatusClient.tsx:46-50 | reading the decimal rendering of `n` back gives `n` |
| Text.ContainsMeaning | src/app/api/bunkers/route.ts:132 | `includes` holds exactly when the substring occurs at some offset |
| Text.TrimMeaning | src/app/api/bunkers/route.ts:159-160 | `trim()` yields a slice surrounded only by white space that neither starts nor ends with white space |
| Text.PadStart | src/components/BunkerCard.tsx:35 | `padStart(w, c)` has length max(\|s\|, w), ends with `s` and is filled with `c` in front |
| TimestampToken.ScanFrom | src/app/api/bunkers/route.ts:19 | a found position is a complete `<t:DIGITS:R>` marker at or after the start offset |
| TimestampToken.LocateIsLeftmost | src/app/api/bunkers/route.ts:19-20 | no match exactly when the text holds no marker; otherwise the match is the leftmost marker |
| TimestampToken.TokenSecondsMeaning | src/app/api/bunkers/route.ts:19-21 | the captured value is the decimal value of the leftmost marker's digits, None without a marker |
| TimestampToken.TokenSecondsOfToken | src/app/api/bunkers/route.ts:19-21 | a marker written for `n` after text without `<` reads back as `n` |
| Throttle.CeilSeconds | src/app/api/bunkers/route.ts:37 | `Math.ceil(ms / 1000)` is the least `s` with ms <= 1000 s |
| Throttle.WaitSecondsRange | src/app/api/bunkers/route.ts:36-37 | while the 5000 ms window is open and the clock has not gone back, the wait is 1 to 5 s |
| MockData.MockBunkerData | src/mocks/bunkerData.ts:4-95 | the canned snapshot has 17 bunkers, all in the future of the load instant, stamped with it |
| BunkersRoute.ExtractTimestampMeaning | src/app/api/bunkers/route.ts:18-24 | 0 without a marker; otherwise 1000 times the leftmost marker's decimal value |
| BunkersRoute.ExtractTimestampOfToken | src/app/api/bunkers/route.ts:18-24 | a marker for `n` seconds after text without `<` gives `1000 n` |
| BunkersRoute.CooldownFromStart | src/app/api/bunkers/route.ts:11-12 | from the initial stamp 0, calls at 0 and 4999 ms are refused (waits 5 and 1 s); a call at 5000 ms is accepted |
| BunkersRoute.AuthFormats | src/app/api/bunkers/route.ts:75-79 | reference definition of the three header formats; the order they are tried in is stated by `AuthFormatOrder` |
| BunkersRoute.AttemptCount | src/app/api/bunkers/route.ts:85-106 | the loop sends at most the three headers |
| BunkersRoute.FirstOkDecides | src/app/api/bunkers/route.ts:85-106 | the first 2xx reply ends the loop and is used; exactly the headers up to it are sent |
| BunkersRoute.NoOkSendsAll | src/app/api/bunkers/route.ts:85-106 | without a 2xx reply every header is sent |
| BunkersRoute.AllThrewKeepsReply | src/app/api/bunkers/route.ts:103-105 | attempts that throw leave `response` as it was |
| BunkersRoute.LatestReplyDecides | src/app/api/bunkers/route.ts:85-106 | without a 2xx reply, `response` is the latest attempt that produced a reply |
| BunkersRoute.TryAuthFormats | src/app/api/bunkers/route.ts:81-106 | the loop's final `response` and the headers it sent, in order, as the reference definitions say |
| BunkersRoute.StatusMessages | src/app/api/bunkers/route.ts:130-134 | the filter keeps only messages with a status embed and keeps every one of them, never more than it was given |
| BunkersRoute.StatusMessagesCount | src/app/api/bunkers/route.ts:199 | `messageCount` is the number of positions in the batch that hold a status message |
| BunkersRoute.FieldBunkersCount | src/app/api/bunkers/route.ts:150-151 | n fields of a status embed give exactly floor(n / 3) bunkers |
| BunkersRoute.FieldBunkersAt | src/app/api/bunkers/route.ts:150-154 | bunker g comes from fields 3g, 3g + 1 and 3g + 2, so field order is kept |
| BunkersRoute.BunkerFromFieldsMeaning | src/app/api/bunkers/route.ts:159-169 | name is the trimmed sector; active exactly when the trimmed status is "Active"; an inactive bunker without "Next Activation:" has instant 0, otherwise the marker is read |
| BunkersRoute.LowercaseStatusIsInactive | src/app/api/bunkers/route.ts:160 | the status match is case-sensitive: "active" is inactive |
| BunkersRoute.EmbedsBunkersCount | src/app/api/bunkers/route.ts:145-151 | the bunkers of a message are one per complete group of its status embeds; none without a status embed |
| BunkersRoute.MessagesBunkersCount | src/app/api/bunkers/route.ts:142-151 | the bunkers of a batch are one per complete group of its messages' status embeds |
| BunkersRoute.StatusMessagesKeepGroups | src/app/api/bunkers/route.ts:130-134 | filtering messages first loses no group |
| BunkersRoute.ParseBunkersCount | src/app/api/bunkers/route.ts:130-190 | the parsed list holds one bunker per complete group in the batch's status embeds (it is served only when no date conversion throws, see `AuthFormatOrder`) |
| BunkersRoute.LateMarkerThrows | src/app/api/bunkers/route.ts:162-174 | an active group whose marker is past 8 640 000 000 000 s gets an instant whose date conversion throws |
| BunkersRoute.ParseFields | src/app/api/bunkers/route.ts:150-185 | the indexed `i += 3` loop throws exactly when a group's instant is past the largest date, and otherwise appends exactly the bunkers of the complete groups |
| BunkersRoute.ParseEmbed | src/app/api/bunkers/route.ts:146-186 | a status embed with fields appends its groups' bunkers or throws as the field loop does; any other embed appends nothing |
| BunkersRoute.ParseEmbeds | src/app/api/bunkers/route.ts:145-189 | the `forEach` over embeds throws exactly when some embed's group does, and otherwise appends their bunkers in embed order |
| BunkersRoute.ParseMessages | src/app/api/bunkers/route.ts:139-190 | the nested loops throw exactly when some parsed instant is past the largest date, and otherwise produce the reference bunker list, one per group |
| BunkersRoute.CooldownGate | src/app/api/bunkers/route.ts:27-45 | a rejected call keeps the stamp, sends nothing and answers 429 with the wait (1 to 5 s); an accepted call stamps `now` first, and missing configuration then gives 500 without any attempt |
| BunkersRoute.AuthFormatOrder | src/app/api/bunkers/route.ts:75-209 | headers go out as Bot, Bearer, raw up to the first 2xx reply, whose messages become the Discord API snapshot, or a 500 when a parsed instant is past the largest date |
| BunkersRoute.AuthFailureFallback | src/app/api/bunkers/route.ts:108-124 | with no 2xx reply, a latest 401/403 serves the canned data with the status in the source; any other status is passed on as an error |
| BunkersRoute.ConnectionFailureFallback | src/app/api/bunkers/route.ts:109-117 | with no reply at all, the canned data is served with "Falha na conexão" as the reason |
| BunkersRoute.UnauthorizedEverywhereServesMock | src/app/api/bunkers/route.ts:109-117 | 401 for every format gives the non-empty canned data with a "Mock Data (Erro de autorização: " source, never an error |
| BunkersRoute.Route.Get | src/app/api/bunkers/route.ts:33-210 | one call of `GET`: the response, the new stamp and the headers sent are those of the reference `HandleGet` |
| BunkersRoute.HandleGet | src/app/api/bunkers/route.ts:33-210 | reference definition of one call: cooldown, configuration, credential loop, decision; its properties are in `CooldownGate`, `AuthFormatOrder`, `AuthFailureFallback` and `ConnectionFailureFallback` |
| BunkersRoute.Decide | src/app/api/bunkers/route.ts:109-209 | reference definition of the answer once the loop is over; its cases are stated by the same lemmas |
| BunkersRoute.FinalReply | src/app/api/bunkers/route.ts:85-106 | reference definition of the loop's final `response`; its meaning is in `FirstOkDecides`, `AllThrewKeepsReply` and `LatestReplyDecides` |
| BunkersRoute.ExtractTimestamp | src/app/api/bunkers/route.ts:18-24 | reference definition of `extractTimestamp`; its meaning is in `ExtractTimestampMeaning` |
| BunkersRoute.BunkerFromFields | src/app/api/bunkers/route.ts:155-169 | reference definition of one group's bunker; its meaning is in `BunkerFromFieldsMeaning` |
| BunkersRoute.FieldBunkers | src/app/api/bunkers/route.ts:150-154 | reference definition of the groups of a field list; its meaning is in `FieldBunkersCount` and `FieldBunkersAt` |
| BunkersRoute.ParseBunkers | src/app/api/bunkers/route.ts:130-190 | reference definition of the parsed list; its meaning is in `ParseBunkersCount` and `ParseMessages` |
| BunkersRoute.DateThrows | src/app/api/bunkers/route.ts:171-174 | reference definition: `new Date(t).toISOString()` throws for an instant past 8.64e15 ms |
| BunkersRoute.Route.constructor | src/app/api/bunkers/route.ts:7-12 | the module starts with stamp 0, its environment, and the canned data of its load instant |
| DiscordApi.EmptySnapshot | src/services/discordApi.ts:20-25 | reference definition of the failure snapshot; its meaning is in `EmptySnapshotIsSnapshot` |
| DiscordApi.EmptySnapshotIsSnapshot | src/services/discordApi.ts:20-25 | a failure reaches the caller as a well-formed snapshot with no bunkers, the current instant, the reason as source, message count 0 and no `error` |
| DiscordApi.OutcomeSnapshot | src/services/discordApi.ts:31-66 | reference definition of what a sent request resolves to; its meaning is in `NeverThrows` and `FailedReply` |
| DiscordApi.FetchBunkerStatus | src/services/discordApi.ts:15-67 | reference definition of one call; its meaning is in `CooldownGate`, `FirstCall` and `NeverThrows` |
| DiscordApi.CooldownGate | src/services/discordApi.ts:9-29 | inside the window nothing is sent, the stamp stays and the cache snapshot is returned; otherwise the stamp becomes `now` whatever the request does |
| DiscordApi.FirstCall | src/services/discordApi.ts:4-5 | from the initial stamp 0, a first call is accepted exactly from 5000 ms on |
| DiscordApi.NeverThrows | src/services/discordApi.ts:15-67 | a decoded 2xx body is returned as is; every other call returns an empty snapshot whose source is the cache marker or starts with "Error: " |
| DiscordApi.FailedReply | src/services/discordApi.ts:39-54 | an upstream 429 gives "Error: Rate Limited"; another status gives "Error: " and the body's `error`, or "Erro desconhecido" |
| DiscordApi.DiscordApiClient.Fetch | src/services/discordApi.ts:15-67 | one call: the result and the new stamp are those of the reference `FetchBunkerStatus` |
| DiscordApi.DiscordApiClient.constructor | src/services/discordApi.ts:4 | the stamp starts at 0 |
| BunkerUtils.ExtractTimestamp | src/utils/bunkerUtils.ts:1-4 | reference definition; its meaning is in `ExtractTimestampMeaning` |
| BunkerUtils.FormatTimeLeft | src/utils/bunkerUtils.ts:6-17 | reference definition; its meaning is in `FormatTimeLeftMeaning`, `FormatTimeLeftSplit` and `FormatTimeLeftSymmetric` |
| BunkerUtils.ExtractTimestampMeaning | src/utils/bunkerUtils.ts:1-4 | 0 without a marker; otherwise the leftmost marker's raw seconds |
| BunkerUtils.RouteReadsMilliseconds | src/utils/bunkerUtils.ts:1-4 | the route's extractor reads exactly 1000 times this one |
| BunkerUtils.FormatTimeLeftMeaning | src/utils/bunkerUtils.ts:6-17 | the text names the unique h and m < 60 with 3600 h + 60 m <= diff < 3600 h + 60 (m + 1): "{h}h {m}m", or "{m}m" without hours |
| BunkerUtils.FormatTimeLeftSplit | src/utils/bunkerUtils.ts:10-16 | the hours and minutes picked satisfy those bounds and give that text |
| BunkerUtils.FormatTimeLeftSymmetric | src/utils/bunkerUtils.ts:7-8 | only the distance counts: d seconds before and after give the same text |
| BunkerStatusClient.FormatTimeLeft | src/components/BunkerStatusClient.tsx:32-52 | reference definition of the formatter; its meaning is in `FormatTimeLeftShort`, `FormatTimeLeftMeaning` and `FormatTimeLeftSplit` |
| BunkerStatusClient.CountdownLabel | src/components/BunkerStatusClient.tsx:93-98 | reference definition of one bunker's label; its meaning is in `CountdownLabelMeaning` |
| BunkerStatusClient.Countdown | src/components/BunkerStatusClient.tsx:90-99 | reference definition of the countdown map; its meaning is in `CountdownKeys` and `CountdownLastWins` |
| BunkerStatusClient.RefreshCountdown | src/components/BunkerStatusClient.tsx:213-217 | reference definition; its meaning is in `RefreshCountdownMeaning` |
| BunkerStatusClient.BeginFetch | src/components/BunkerStatusClient.tsx:60-72 | reference definition of `fetchData` up to its request; its meaning is in `BeginFetchMeaning` |
| BunkerStatusClient.CompleteFetch | src/components/BunkerStatusClient.tsx:74-108 | reference definition of the rest of `fetchData`; its meaning is in `CompleteFetchMeaning`, `FailedReplyMessage` and `ServedSnapshotLoads` |
| BunkerStatusClient.ServedSnapshotLoads | src/components/BunkerStatusClient.tsx:74-101 | a snapshot the route serves with status 200 is stored so that it reads back as itself, with the countdown of its bunkers and the next request 5000 ms later |
| BunkerStatusClient.StatusClient.SortedBunkers | src/components/BunkerStatusClient.tsx:196-203 | reference definition of the sorted view; its meaning is in `SortedViewMeaning` |
| BunkerStatusClient.FormatTimeLeftShort | src/components/BunkerStatusClient.tsx:32-38 | 0 reads "Agora"; any other amount under a minute reads "Menos de 1 min" |
| BunkerStatusClient.FormatTimeLeftMeaning | src/components/BunkerStatusClient.tsx:40-51 | from a minute on, the text names the unique days, hours < 24, minutes < 60 and seconds < 60 that, with the leftover milliseconds, sum to diff, in the d/h/m, h/m/s or m/s form |
| BunkerStatusClient.FormatTimeLeftSplit | src/components/BunkerStatusClient.tsx:40-43 | the parts picked are in range and sum with diff mod 1000 to diff |
| BunkerStatusClient.NinetySeconds | src/components/BunkerStatusClient.tsx:50 | 90000 ms reads "1m 30s" |
| BunkerStatusClient.CountdownLabelMeaning | src/components/BunkerStatusClient.tsx:92-99 | no instant gives "Indisponível"; a past instant reads "Agora" (the difference is clamped); a future one reads its distance, never "Indisponível" |
| BunkerStatusClient.FormatTimeLeftIsNotUnavailable | src/components/BunkerStatusClient.tsx:32-51 | no amount of time reads "Indisponível" |
| BunkerStatusClient.CountdownKeys | src/components/BunkerStatusClient.tsx:90-99 | the countdown map's keys are exactly the bunkers' names, except "__proto__", which a plain object does not store |
| BunkerStatusClient.CountdownLastWins | src/components/BunkerStatusClient.tsx:92-99 | a name's entry (other than "__proto__") is the label of the last bunker with that name |
| BunkerStatusClient.BuildCountdown | src/components/BunkerStatusClient.tsx:90-99 | the `forEach` fills the map of the reference `Countdown` |
| BunkerStatusClient.RefreshCountdownMeaning | src/components/BunkerStatusClient.tsx:213-217 | the label is non-empty exactly when a refresh instant is set and at least a second is left, and then it is "(Ns)" with N the whole seconds left |
| BunkerStatusClient.BeginFetchMeaning | src/components/BunkerStatusClient.tsx:55-72 | nothing happens while loading; a request goes out exactly when now >= nextRequestTime; otherwise the message carries the whole seconds left (at least 1) |
| BunkerStatusClient.CompleteFetchMeaning | src/components/BunkerStatusClient.tsx:74-108 | data, next allowed instant and countdown change exactly on a 2xx reply whose `bunkers` is an array, the next request 5000 ms later; every failure carries a non-empty message |
| BunkerStatusClient.FailedReplyMessage | src/components/BunkerStatusClient.tsx:77-78 | a failing status shows the body's `error`, or "Erro ao buscar dados dos bunkers" |
| BunkerStatusClient.SortedViewMeaning | src/components/BunkerStatusClient.tsx:196-203 | the view is a permutation; active before inactive, instants ascending within each group, ties in their original order |
| BunkerStatusClient.SortExample | src/components/BunkerStatusClient.tsx:196-203 | (inactive 10, active 20, active 5) sorts to (active 5, active 20, inactive 10) |
| BunkerStatusClient.StatusClient.constructor | src/components/BunkerStatusClient.tsx:19-25 | the state starts from the initial data, no error, nextRequestTime 0, an empty countdown, not loading |
| BunkerStatusClient.StatusClient.StartFetch | src/components/BunkerStatusClient.tsx:60-74 | `fetchData` up to its request: the state the reference `BeginFetch` decides |
| BunkerStatusClient.StatusClient.FinishFetch | src/components/BunkerStatusClient.tsx:74-111 | the rest of `fetchData`: the state the reference `CompleteFetch` decides, loading cleared, data always holding a list |
| BunkerStatusClient.StatusClient.Tick | src/components/BunkerStatusClient.tsx:167-181 | the timer rebuilds the countdown from the stored bunkers and changes nothing else |
| BunkerCard.Pad2 | src/components/BunkerCard.tsx:34-36 | reference definition of a padded part; its meaning is in `Pad2IsPadStart` and `Pad2Meaning` |
| BunkerCard.TimeLeftLabel | src/components/BunkerCard.tsx:16-36 | reference definition of the label; its meaning is in `TimeLeftLabelRoundTrip` and `TimeLeftLabelParts` |
| BunkerCard.Pad2IsPadStart | src/components/BunkerCard.tsx:35 | the padded part is `padStart(2, '0')` of the decimal rendering |
| BunkerCard.Pad2Meaning | src/components/BunkerCard.tsx:34-36 | a padded part is digits worth n, at least two wide, exactly two below 100, otherwise unpadded |
| BunkerCard.ClockRoundTrip | src/components/BunkerCard.tsx:30-36 | a clock of padded parts (minutes and seconds below 100) reads back as the seconds it was made from |
| BunkerCard.WordsAreNotClocks | src/components/BunkerCard.tsx:20 | "Ativo agora" and "Disponível" are not clocks |
| BunkerCard.ClockSplit | src/components/BunkerCard.tsx:30-32 | 3600 h + 60 m + s == diff with m < 60 and s < 60 |
| BunkerCard.TimeLeftLabelRoundTrip | src/components/BunkerCard.tsx:16-36 | before the instant the label reads back as exactly the seconds left, however many hours; at or after it the label is "Ativo agora" exactly for an active bunker and "Disponível" exactly for an inactive one, neither of which is a clock |
| BunkerCard.TimeLeftLabelParts | src/components/BunkerCard.tsx:30-36 | minutes and seconds below 60 show as two digits; hours are not capped and show as at least two |
| BunkerOrdering.Compare | src/components/BunkerStatusClient.tsx:196-203 | reference definition of both comparators (active first, then instant; instant alone at src/components/BunkerStatus.tsx:38); its meaning is in `ComparatorConsistent` |
| BunkerOrdering.StableSort | src/components/BunkerStatus.tsx:38 | reference definition of `sort`, as a stable insertion sort; its meaning is in `StableSortSorted`, `StableSortPermutes` and `StableSortStable` |
| BunkerOrdering.Actives | src/components/BunkerStatus.tsx:66 | reference definition of the active list; its meaning is in `PartitionAppend`, `PartitionSingleton`, `PartitionMembers` and `PartitionKeepsTies` |
| BunkerOrdering.Inactives | src/components/BunkerStatus.tsx:67 | reference definition of the inactive list; its meaning is in the same lemmas |
| BunkerOrdering.HasExtraBunkers | src/components/BunkerStatus.tsx:68 | reference definition of the flag; its meaning is in `ExtraBunkersMeaning` |
| BunkerOrdering.ComparatorConsistent | src/components/BunkerStatusClient.tsx:196-203 | both comparators are total and transitive, with ties exactly at equal keys and antisymmetric signs |
| BunkerOrdering.Insert | src/components/BunkerStatusClient.tsx:196 | reference definition of one insertion step; its meaning is in `InsertPermutes`, `InsertKeepsSorted` and `InsertKeepsTies` |
| BunkerOrdering.InsertPermutes | src/components/BunkerStatus.tsx:38 | inserting adds exactly that element |
| BunkerOrdering.InsertKeepsSorted | src/components/BunkerStatus.tsx:38 | inserting into a sorted list keeps it sorted |
| BunkerOrdering.TiesAppend | src/components/BunkerStatus.tsx:38 | the elements tied with a key, in order, distribute over concatenation |
| BunkerOrdering.InsertKeepsTies | src/components/BunkerStatus.tsx:38 | inserting keeps each class of ties in order and puts the new element last among its ties |
| BunkerOrdering.StableSortSorted | src/components/BunkerStatus.tsx:38 | `sort` orders the list by its comparator |
| BunkerOrdering.StableSortPermutes | src/components/BunkerStatus.tsx:38 | `sort` keeps each bunker as many times as it occurs |
| BunkerOrdering.StableSortStable | src/components/BunkerStatusClient.tsx:196-203 | `sort` keeps bunkers the comparator cannot tell apart in their original order |
| BunkerOrdering.ActiveFirstLayout | src/components/BunkerStatusClient.tsx:198-202 | in the active-first order every active bunker precedes every inactive one and instants ascend within each group |
| BunkerOrdering.ByTimestampLayout | src/components/BunkerContent.tsx:25 | in the timestamp order the instants ascend |
| BunkerOrdering.PartitionSplits | src/components/BunkerStatus.tsx:66-67 | the active and inactive lists together hold each bunker exactly as often as the list, so their lengths add up |
| BunkerOrdering.PartitionMembers | src/components/BunkerStatus.tsx:66-67 | the active list holds exactly the list's active bunkers, the inactive list the others |
| BunkerOrdering.PartitionKeepsOrder | src/components/BunkerStatus.tsx:66-67 | a sorted list gives sorted halves |
| BunkerOrdering.PartitionAppend | src/components/BunkerStatus.tsx:66-67 | filtering a concatenation filters each part and concatenates the results, so neither filter reorders anything |
| BunkerOrdering.PartitionSingleton | src/components/BunkerStatus.tsx:66-67 | a single bunker is kept by exactly the list of its kind |
| BunkerOrdering.PartitionKeepsTies | src/components/BunkerStatus.tsx:66-67 | the bunkers of either list that tie with a given one are the whole list's ties, in the same order, filtered |
| BunkerOrdering.ExtraBunkersMeaning | src/components/BunkerStatus.tsx:68 | extra bunkers exactly when the list minus its inactive ones has more than three, so at least four bunkers |
| HourlySchedule.MinuteOf | src/components/BunkerStatus.tsx:17 | `getMinutes()` is between 0 and 59 |
| HourlySchedule.NextUpdate | src/components/BunkerStatus.tsx:15-20 | reference definition of the next update instant; its meaning is in `NextUpdateIsFirstAfter` |
| HourlySchedule.NextUpdateIsFirstAfter | src/components/BunkerStatus.tsx:15-20 | the next update is ten past an hour, after now, and no later than any such instant after now |
| HourlySchedule.TimeUntilNext | src/components/BunkerStatus.tsx:14-23 | the delay is 1 ms to one hour, lands ten past an hour, and passes no earlier such instant (the same computation as `scheduleNextUpdate` in `BunkerContent.tsx`) |
| HourlySchedule.UpdateHour | src/components/BunkerContent.tsx:43-50 | the current hour while the minute is below 10 (within ten minutes), the next hour otherwise |
| BunkerStatusComponent.ApplyResult | src/components/BunkerStatus.tsx:30-41 | reference definition of `fetchData`'s state change; its meaning is in `ApplyResultMeaning` and `ApplyResultKeepsGood` |
| BunkerStatusComponent.ApplyResultMeaning | src/components/BunkerStatus.tsx:30-41 | an error keeps the data and shows the error; otherwise a `bunkers` array replaces the data with the list as a sorted permutation and the error cleared; otherwise nothing changes |
| BunkerStatusComponent.ApplyResultKeepsGood | src/components/BunkerStatus.tsx:30-41 | the stored list stays present and ascending by instant |
| BunkerStatusComponent.BoardPartition | src/components/BunkerStatus.tsx:66-68 | the lists split the stored bunkers, both ascend by instant, bunkers of equal instant show in their stored order, and the flag means more than three active |
| BunkerStatusComponent.Board.constructor | src/components/BunkerStatus.tsx:9-12 | the board starts with an empty list and no error |
| BunkerStatusComponent.Board.FetchData | src/components/BunkerStatus.tsx:25-48 | `fetchData` leaves the state of the reference `ApplyResult`, keeps the list sorted, and clears `isUpdating` |
| BunkerContent.InsertAt | src/components/BunkerContent.tsx:25 | insertion places the element before the first of a tail of later elements |
| BunkerContent.InsertLast | src/components/BunkerContent.tsx:25 | one in-place step of the array sort is the reference insertion, the rest untouched |
| BunkerContent.SortByTimestamp | src/components/BunkerContent.tsx:25 | the in-place sort leaves the array equal to the reference stable sort of its old contents |
| BunkerContent.FetchedListSorted | src/components/BunkerContent.tsx:25 | the kept list is the received bunkers, ascending by instant |
| BunkerContent.ActiveList | src/components/BunkerContent.tsx:67 | reference definition; its meaning is in `ContentPartition` |
| BunkerContent.InactiveList | src/components/BunkerContent.tsx:68 | reference definition; its meaning is in `ContentPartition` |
| BunkerContent.Total | src/components/BunkerContent.tsx:117 | reference definition of the total shown; its meaning is in `ContentPartition` |
| BunkerContent.ContentPartition | src/components/BunkerContent.tsx:67-69 | the lists split the bunkers and their lengths sum to the total; without an array both lists are empty and the total is 0; the flag means more than three active |
| BunkerContent.Content.constructor | src/components/BunkerContent.tsx:9-14 | the page starts with an empty list, the load instant and source "initial" |
| BunkerContent.Content.FetchData | src/components/BunkerContent.tsx:19-36 | with an array, it is sorted in place and kept with the error cleared; without one only the loading flags change |
| BunkerContent.Content.KeepSorted | src/components/BunkerContent.tsx:24-28 | the array branch: the array ends as the stable timestamp sort of its old contents and is kept with the error cleared, the flags untouched |

## Left out

- Rendering, JSX, styling and icons, as well as `src/app/page.tsx` and `src/components/Footer.tsx`: they hold no logic.
- Timers and effects (`setTimeout`, `setInterval`, `useEffect`, auto-refresh): each callback body is one atomic step, and the order in which callbacks run is not modelled.
- Stale React closures, for example the captured `isLoading` and `nextRequestTime` inside `useCallback`: the model reads the current state.
- `Date.now()`: it is called several times within one step, and the model uses one `now` per step.
- Time zones, daylight saving time and locales: instants are integer milliseconds with hours aligned to multiples of 3600000. The `toLocaleTimeString` text of the next update is not modelled.
- The progress bar of `BunkerCard.tsx` (lines 25-28): it is floating-point arithmetic.
- `parseInt` precision beyond 2^53: integers are unbounded.
- The regular-expression engine: it is replaced by an explicit leftmost scanner.
- JSON values that are not objects, and fields of the wrong type: a decoded body is a record of optional fields.
- `MockData.MockBunkerData`: the 1.5-day entry is taken as exactly 129600000 ms.
- The `USE_MOCK_DATA` branch of the route: the flag is constantly false.
- Console logging, and with it `processedCount`, which only feeds a log line.
- The card rendered for a bunker named "__proto__": its countdown lookup reads the object prototype instead of a label.
- The route's outer `catch` (lines 203-209) is modelled for a 2xx body that is not a message array and for the date conversion of a late marker. Property reads on JSON values of the wrong shape, which could also throw, are not modelled.
- The `catch` branches of `BunkerStatus.tsx` and `BunkerContent.tsx`: the service they call never throws, as `DiscordApi.NeverThrows` states.
- The unused `waitTime` computed at `src/services/discordApi.ts:19`: it does not affect the result.
- BunkerContent.Content.FetchData: the stored snapshot keeps the sorted list as a value. Later changes to the received array through other references are not tracked.
- HTTP headers, URLs and the `limit=10` query: they are framework plumbing.
- The `force` argument of `BunkerStatus.tsx`: the service ignores it.
