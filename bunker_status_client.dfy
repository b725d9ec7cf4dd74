/**
 * src/components/BunkerStatusClient.tsx: the polling dashboard. Its time formatter and countdown
 * map, the refresh label, the throttle on `nextRequestTime` with the `isLoading` guard, the state
 * changes of `fetchData`, and the active-first view of the bunkers.
 */
module BunkerStatusClient {
  import opened BunkerTypes
  import opened Text
  import opened Throttle
  import opened BunkerOrdering

  const SecondMs: int := 1000
  const MinuteMs: int := 60000
  const HourMs: int := 3600000
  const DayMs: int := 86400000

  const NowLabel: string := "Agora"
  const UnderAMinuteLabel: string := "Menos de 1 min"
  const UnavailableLabel: string := "Indisponível"
  const FetchErrorMessage: string := "Erro ao buscar dados dos bunkers"
  const InvalidFormatMessage: string := "Formato de resposta inválido da API"

  // ---------------------------------------------------------------------------------------------
  // Formatting

  /** The three long forms: days, hours and minutes; else hours, minutes and seconds; else minutes and seconds. */
  function LongForm(d: nat, h: nat, m: nat, s: nat): string
  {
    if d > 0 then NatToString(d) + "d " + NatToString(h) + "h " + NatToString(m) + "m"
    else if h > 0 then NatToString(h) + "h " + NatToString(m) + "m " + NatToString(s) + "s"
    else NatToString(m) + "m " + NatToString(s) + "s"
  }

  /** `formatTimeLeft(diff)`, `diff` in milliseconds. */
  function FormatTimeLeft(diff: int): string
  {
    if diff == 0 then NowLabel
    else if diff < MinuteMs then UnderAMinuteLabel
    else
      var days := diff / DayMs;
      var hours := (diff % DayMs) / HourMs;
      var minutes := (diff % HourMs) / MinuteMs;
      var seconds := (diff % MinuteMs) / SecondMs;
      LongForm(days, hours, minutes, seconds)
  }

  /** Zero reads "Agora"; any other amount under a minute reads "Menos de 1 min". */
  lemma FormatTimeLeftShort(diff: int)
    ensures diff == 0 ==> FormatTimeLeft(diff) == NowLabel
    ensures diff != 0 && diff < MinuteMs ==> FormatTimeLeft(diff) == UnderAMinuteLabel
  {
  }

  /**
   * For each of the formatter's units `k`, the quotient and remainder of `x` by `k` are the only
   * `q` and `0 <= r < k` with x == q * k + r.
   */
  lemma DivModUnique(x: int, q: int, r: int, k: int)
    requires k == DayMs || k == HourMs || k == MinuteMs || k == SecondMs
    requires 0 <= r < k && x == q * k + r
    ensures x / k == q && x % k == r
  {
    if k == DayMs {
    } else if k == HourMs {
    } else if k == MinuteMs {
    } else {
    }
  }

  /** How the formatter splits `diff` from a minute on. */
  lemma FormatTimeLeftUnfolds(diff: int)
    requires diff >= MinuteMs
    ensures FormatTimeLeft(diff) ==
              LongForm(diff / DayMs, (diff % DayMs) / HourMs, (diff % HourMs) / MinuteMs, (diff % MinuteMs) / SecondMs)
  {
  }

  /**
   * From a minute on, the rendering names the unique days, hours below 24, minutes below 60 and
   * seconds below 60 that, with the leftover milliseconds, add up to `diff`.
   */
  lemma FormatTimeLeftMeaning(diff: int, d: nat, h: nat, m: nat, s: nat, ms: nat)
    requires diff >= MinuteMs && h < 24 && m < 60 && s < 60 && ms < 1000
    requires d * DayMs + h * HourMs + m * MinuteMs + s * SecondMs + ms == diff
    ensures FormatTimeLeft(diff) == LongForm(d, h, m, s)
  {
    var inSecond := ms;
    var inMinute := s * SecondMs + inSecond;
    var inHour := m * MinuteMs + inMinute;
    var inDay := h * HourMs + inHour;
    DivModUnique(diff, d, inDay, DayMs);
    DivModUnique(inDay, h, inHour, HourMs);
    DivModUnique(diff, d * 24 + h, inHour, HourMs);
    DivModUnique(inHour, m, inMinute, MinuteMs);
    DivModUnique(diff, (d * 24 + h) * 60 + m, inMinute, MinuteMs);
    DivModUnique(inMinute, s, inSecond, SecondMs);
    FormatTimeLeftUnfolds(diff);
  }

  /** The parts the formatter picks are in range and add up to `diff`. */
  lemma FormatTimeLeftSplit(diff: int)
    requires diff >= MinuteMs
    ensures var d, h, m, s := diff / DayMs, (diff % DayMs) / HourMs, (diff % HourMs) / MinuteMs, (diff % MinuteMs) / SecondMs;
      && h < 24 && m < 60 && s < 60
      && d * DayMs + h * HourMs + m * MinuteMs + s * SecondMs + diff % SecondMs == diff
      && FormatTimeLeft(diff) == LongForm(d, h, m, s)
  {
    var d, h, m, s := diff / DayMs, (diff % DayMs) / HourMs, (diff % HourMs) / MinuteMs, (diff % MinuteMs) / SecondMs;
    var inDay := diff % DayMs;
    var inHour := inDay % HourMs;
    assert inDay == h * HourMs + inHour;
    DivModUnique(diff, d * 24 + h, inHour, HourMs);
    var inMinute := inHour % MinuteMs;
    assert inHour == m * MinuteMs + inMinute;
    DivModUnique(diff, (d * 24 + h) * 60 + m, inMinute, MinuteMs);
    var ms := inMinute % SecondMs;
    assert inMinute == s * SecondMs + ms;
    DivModUnique(diff, ((d * 24 + h) * 60 + m) * 60 + s, ms, SecondMs);
    FormatTimeLeftUnfolds(diff);
  }

  /** A minute and a half reads "1m 30s". */
  lemma NinetySeconds()
    ensures FormatTimeLeft(90000) == "1m 30s"
  {
    FormatTimeLeftMeaning(90000, 0, 0, 1, 30, 0);
    assert NatToString(30) == NatToString(3) + [DigitChar(0)];
  }

  /**
   * The countdown text of one bunker: "Indisponível" without an instant, otherwise the time left
   * until it, never negative.
   */
  function CountdownLabel(b: Bunker, now: int): string
  {
    if b.timestamp > 0 then FormatTimeLeft(if b.timestamp - now > 0 then b.timestamp - now else 0)
    else UnavailableLabel
  }

  /**
   * Without an instant the label is "Indisponível"; an instant reached or past reads "Agora" (the
   * difference is clamped, so it never reads as under a minute); an instant ahead reads its distance.
   */
  lemma CountdownLabelMeaning(b: Bunker, now: int)
    ensures b.timestamp <= 0 ==> CountdownLabel(b, now) == UnavailableLabel
    ensures 0 < b.timestamp <= now ==> CountdownLabel(b, now) == NowLabel
    ensures b.timestamp > 0 && b.timestamp > now ==> CountdownLabel(b, now) == FormatTimeLeft(b.timestamp - now)
    ensures b.timestamp > 0 ==> CountdownLabel(b, now) != UnavailableLabel
  {
    if b.timestamp > 0 {
      FormatTimeLeftIsNotUnavailable(if b.timestamp - now > 0 then b.timestamp - now else 0);
    }
  }

  /** Every long form ends in "m" or "s". */
  lemma LongFormEnd(d: nat, h: nat, m: nat, s: nat)
    ensures |LongForm(d, h, m, s)| > 0
    ensures LongForm(d, h, m, s)[|LongForm(d, h, m, s)| - 1] == 'm' || LongForm(d, h, m, s)[|LongForm(d, h, m, s)| - 1] == 's'
  {
    var r := LongForm(d, h, m, s);
    if d > 0 {
      var p := NatToString(d) + "d " + NatToString(h) + "h " + NatToString(m);
      assert r == p + "m";
    } else {
      var p := if h > 0 then NatToString(h) + "h " + NatToString(m) + "m " + NatToString(s)
               else NatToString(m) + "m " + NatToString(s);
      assert r == p + "s";
    }
  }

  /** No amount of time reads "Indisponível". */
  lemma FormatTimeLeftIsNotUnavailable(diff: int)
    ensures FormatTimeLeft(diff) != UnavailableLabel
  {
    if diff >= MinuteMs {
      var d, h, m, s := diff / DayMs, (diff % DayMs) / HourMs, (diff % HourMs) / MinuteMs, (diff % MinuteMs) / SecondMs;
      FormatTimeLeftUnfolds(diff);
      LongFormEnd(d, h, m, s);
      assert UnavailableLabel[|UnavailableLabel| - 1] == 'l';
    } else {
      assert NowLabel[0] != UnavailableLabel[0] && UnderAMinuteLabel[0] != UnavailableLabel[0];
    }
  }

  // ---------------------------------------------------------------------------------------------
  // The countdown map

  /**
   * The one key a plain object `{}` does not store: assigning a string to `obj["__proto__"]` goes
   * to the prototype setter, which ignores values that are not objects.
   */
  const ProtoKey: string := "__proto__"

  /**
   * The map the `forEach` over `bunkers` builds: one entry per name, written in list order; a
   * bunker named "__proto__" leaves no entry.
   */
  function Countdown(bs: seq<Bunker>, now: int): map<string, string>
  {
    if |bs| == 0 then map[]
    else
      var b := bs[|bs| - 1];
      if b.name == ProtoKey then Countdown(bs[..|bs| - 1], now)
      else Countdown(bs[..|bs| - 1], now)[b.name := CountdownLabel(b, now)]
  }

  /** The map has exactly the names of the list as keys, except "__proto__". */
  lemma {:induction false} CountdownKeys(bs: seq<Bunker>, now: int, k: string)
    ensures k in Countdown(bs, now) <==> k != ProtoKey && exists i :: 0 <= i < |bs| && bs[i].name == k
  {
    if |bs| > 0 {
      var init := bs[..|bs| - 1];
      CountdownKeys(init, now, k);
      if exists i :: 0 <= i < |init| && init[i].name == k {
        var i :| 0 <= i < |init| && init[i].name == k;
        assert bs[i].name == k;
      }
      if exists i :: 0 <= i < |bs| && bs[i].name == k {
        var i :| 0 <= i < |bs| && bs[i].name == k;
        if i < |init| {
          assert init[i].name == k;
        }
      }
    }
  }

  /** Where names repeat, the last bunker with the name decides its entry ("__proto__" has none). */
  lemma {:induction false} CountdownLastWins(bs: seq<Bunker>, now: int, i: nat)
    requires i < |bs| && bs[i].name != ProtoKey && forall j :: i < j < |bs| ==> bs[j].name != bs[i].name
    ensures bs[i].name in Countdown(bs, now)
    ensures Countdown(bs, now)[bs[i].name] == CountdownLabel(bs[i], now)
  {
    if i < |bs| - 1 {
      var init := bs[..|bs| - 1];
      assert init[i] == bs[i];
      CountdownLastWins(init, now, i);
    }
  }

  /** The `forEach` loop that fills `newCountdown`. */
  method BuildCountdown(bunkers: seq<Bunker>, now: int) returns (countdown: map<string, string>)
    ensures countdown == Countdown(bunkers, now)
  {
    countdown := map[];
    for i := 0 to |bunkers|
      invariant countdown == Countdown(bunkers[..i], now)
    {
      assert bunkers[..i + 1][..i] == bunkers[..i];
      if bunkers[i].name != ProtoKey {
        countdown := countdown[bunkers[i].name := CountdownLabel(bunkers[i], now)];
      }
    }
    assert bunkers[..|bunkers|] == bunkers;
  }

  /** `getRefreshCountdown()`: "" without a (truthy) refresh instant or with under a second left, else "(Ns)". */
  function RefreshCountdown(nextRefresh: Option<int>, now: int): string
  {
    if nextRefresh.None? || nextRefresh.value == 0 then ""
    else
      var seconds := if (nextRefresh.value - now) / 1000 > 0 then (nextRefresh.value - now) / 1000 else 0;
      if seconds > 0 then "(" + NatToString(seconds) + "s)" else ""
  }

  /**
   * The label shows exactly when a refresh instant is set and at least one whole second is left,
   * and then it names the whole seconds left, rounded down.
   */
  lemma RefreshCountdownMeaning(nextRefresh: Option<int>, now: int)
    ensures RefreshCountdown(nextRefresh, now) != "" <==>
              nextRefresh.Some? && nextRefresh.value != 0 && nextRefresh.value - now >= 1000
    ensures RefreshCountdown(nextRefresh, now) != "" ==>
              exists n: nat :: RefreshCountdown(nextRefresh, now) == "(" + NatToString(n) + "s)"
                && 1000 * n <= nextRefresh.value - now < 1000 * (n + 1)
  {
    if nextRefresh.Some? && nextRefresh.value != 0 && nextRefresh.value - now >= 1000 {
      var n := (nextRefresh.value - now) / 1000;
      assert RefreshCountdown(nextRefresh, now) == "(" + NatToString(n) + "s)";
    }
  }

  // ---------------------------------------------------------------------------------------------
  // `fetchData`

  /** How `fetchData` goes up to its `await`: nothing while loading, a throttle message, or a request. */
  datatype Begin = Skipped | Throttled(message: string) | Sent

  /** `canMakeRequest()`: the clock has reached `nextRequestTime`. */
  predicate CanMakeRequest(nextRequestTime: int, now: int)
  {
    now >= nextRequestTime
  }

  function BeginFetch(isLoading: bool, nextRequestTime: int, now: int): Begin
  {
    if isLoading then Skipped
    else if !CanMakeRequest(nextRequestTime, now) then Throttled(WaitMessage(CeilSeconds(nextRequestTime - now)))
    else Sent
  }

  /**
   * A call while a fetch is under way does nothing; otherwise it asks for data exactly when the
   * clock has reached `nextRequestTime`, and a throttled call reports the whole seconds still left,
   * at least one.
   */
  lemma BeginFetchMeaning(isLoading: bool, nextRequestTime: int, now: int)
    ensures BeginFetch(isLoading, nextRequestTime, now).Skipped? <==> isLoading
    ensures BeginFetch(isLoading, nextRequestTime, now).Sent? <==> !isLoading && now >= nextRequestTime
    ensures !isLoading && now < nextRequestTime ==>
              var n := CeilSeconds(nextRequestTime - now);
              && n >= 1 && 1000 * (n - 1) < nextRequestTime - now <= 1000 * n
              && BeginFetch(isLoading, nextRequestTime, now) == Throttled(WaitMessage(n))
  {
  }

  /** How a fetch that went out ends: a new snapshot with the next allowed instant and countdown, or a message. */
  datatype Completion = Loaded(data: Payload, nextRequestTime: int, countdown: map<string, string>) | Failed(message: string)

  /**
   * The rest of `fetchData` once the reply is in: a failing status raises the body's `error` (or
   * the fixed message) and the handler shows it; a 2xx reply is taken only when its `bunkers` is an
   * array.
   */
  function CompleteFetch(outcome: ApiOutcome, now: int): Completion
  {
    match outcome
    case FetchThrew(m) => Failed(OrElse(Some(m), FetchErrorMessage))
    case Replied(status, Unparsable(m)) => Failed(OrElse(Some(m), FetchErrorMessage))
    case Replied(status, Parsed(result)) =>
      if !IsOk(status) then Failed(OrElse(Some(OrElse(result.error, FetchErrorMessage)), FetchErrorMessage))
      else if result.bunkers.Some? then
        Loaded(result, now + MinRequestInterval, Countdown(result.bunkers.value, now))
      else Failed(InvalidFormatMessage)
  }

  /**
   * The data, the next allowed instant and the countdown change exactly on a 2xx reply whose
   * `bunkers` is an array, and then the next request is allowed 5000 ms later; every failure
   * carries a non-empty message.
   */
  lemma CompleteFetchMeaning(outcome: ApiOutcome, now: int)
    ensures CompleteFetch(outcome, now).Loaded? <==>
              outcome.Replied? && IsOk(outcome.status) && outcome.body.Parsed? && outcome.body.payload.bunkers.Some?
    ensures CompleteFetch(outcome, now).Loaded? ==>
              var c := CompleteFetch(outcome, now);
              && c.data == outcome.body.payload && c.nextRequestTime == now + 5000
              && c.countdown == Countdown(c.data.bunkers.value, now)
    ensures CompleteFetch(outcome, now).Failed? ==> CompleteFetch(outcome, now).message != ""
  {
  }

  /**
   * A snapshot the route serves with status 200 is loaded as it was sent: the stored data reads
   * back as that snapshot, and the countdown covers its bunkers.
   */
  lemma ServedSnapshotLoads(s: BunkerStatus, now: int)
    ensures var c := CompleteFetch(Replied(200, Parsed(ToPayload(s))), now);
      && c.Loaded? && FromPayload(c.data) == Some(s)
      && c.countdown == Countdown(s.bunkers, now) && c.nextRequestTime == now + MinRequestInterval
  {
    PayloadRoundTrip(s, ToPayload(s));
  }

  /** A failing reply shows the body's `error`, or "Erro ao buscar dados dos bunkers" when there is none. */
  lemma FailedReplyMessage(status: nat, result: Payload, now: int)
    requires !IsOk(status)
    ensures Truthy(result.error) ==> CompleteFetch(Replied(status, Parsed(result)), now) == Failed(result.error.value)
    ensures !Truthy(result.error) ==> CompleteFetch(Replied(status, Parsed(result)), now) == Failed(FetchErrorMessage)
  {
  }

  /**
   * The active-first view `sortedBunkers`: the same bunkers, every active one before every inactive
   * one, and the instants ascending within each group; ties keep their order.
   */
  lemma SortedViewMeaning(s: seq<Bunker>, k: Bunker)
    ensures var r := StableSort(ActiveFirst, s);
      && multiset(r) == multiset(s)
      && (forall i, j :: 0 <= i < j < |r| && r[j].isActive ==> r[i].isActive)
      && (forall i, j :: 0 <= i < j < |r| && r[i].isActive == r[j].isActive ==> r[i].timestamp <= r[j].timestamp)
      && Ties(ActiveFirst, r, k) == Ties(ActiveFirst, s, k)
  {
    StableSortPermutes(ActiveFirst, s);
    StableSortSorted(ActiveFirst, s);
    ActiveFirstLayout(StableSort(ActiveFirst, s));
    StableSortStable(ActiveFirst, s, k);
  }

  /** Three bunkers: the two active ones first, soonest first, then the inactive one. */
  lemma SortExample()
    ensures StableSort(ActiveFirst, [Bunker("A", false, 10), Bunker("B", true, 20), Bunker("C", true, 5)])
            == [Bunker("C", true, 5), Bunker("B", true, 20), Bunker("A", false, 10)]
  {
    var a, b, c := Bunker("A", false, 10), Bunker("B", true, 20), Bunker("C", true, 5);
    SortExamplePrefix();
    assert StableSort(ActiveFirst, [a, b, c]) == Insert(ActiveFirst, [b, a], c) by {
      assert [a, b, c][..2] == [a, b];
    }
    assert Insert(ActiveFirst, [b, a], c) == [c, b, a] by {
      assert [b, a][..1] == [b];
      assert Insert(ActiveFirst, [b], c) == [c, b] by {
        assert [b][..0] == [];
      }
    }
  }

  /** The first two of them: the active one moves ahead of the inactive one. */
  lemma SortExamplePrefix()
    ensures StableSort(ActiveFirst, [Bunker("A", false, 10), Bunker("B", true, 20)])
            == [Bunker("B", true, 20), Bunker("A", false, 10)]
  {
    var a, b := Bunker("A", false, 10), Bunker("B", true, 20);
    assert StableSort(ActiveFirst, [a]) == [a] by {
      assert [a][..0] == [];
    }
    assert [a, b][..1] == [a];
    assert Insert(ActiveFirst, [a], b) == [b, a] by {
      assert [a][..0] == [];
    }
  }

  /** The component's state. */
  class StatusClient {
    var data: Payload
    var error: Option<string>
    var nextRequestTime: int
    var countdown: map<string, string>
    var isLoading: bool

    /** The stored snapshot always has a `bunkers` array. */
    ghost predicate Valid()
      reads this
    {
      data.bunkers.Some?
    }

    constructor(initialData: BunkerStatus)
      ensures Valid()
      ensures data == ToPayload(initialData) && error == None && nextRequestTime == 0
      ensures countdown == map[] && !isLoading
    {
      data := ToPayload(initialData);
      error := None;
      nextRequestTime := 0;
      countdown := map[];
      isLoading := false;
    }

    /** `fetchData()` up to its `await`; `sent` tells whether a request goes out. */
    method StartFetch(now: int) returns (sent: bool)
      modifies this
      ensures data == old(data) && nextRequestTime == old(nextRequestTime) && countdown == old(countdown)
      ensures match BeginFetch(old(isLoading), old(nextRequestTime), now)
        case Skipped => !sent && isLoading == old(isLoading) && error == old(error)
        case Throttled(message) => !sent && !isLoading && error == Some(message)
        case Sent => sent && isLoading && error == Some("")
    {
      if isLoading {
        return false;
      }
      isLoading := true;
      error := Some("");
      if now < nextRequestTime {
        var waitTime := CeilSeconds(nextRequestTime - now);
        error := Some(WaitMessage(waitTime));
        isLoading := false;
        return false;
      }
      sent := true;
    }

    /** The rest of `fetchData()` once the request ends in `outcome`, including its `finally`. */
    method FinishFetch(now: int, outcome: ApiOutcome)
      requires Valid()
      modifies this
      ensures Valid() && !isLoading
      ensures match CompleteFetch(outcome, now)
        case Loaded(d, n, c) =>
          data == d && nextRequestTime == n && countdown == c && error == old(error)
        case Failed(message) =>
          data == old(data) && nextRequestTime == old(nextRequestTime) && countdown == old(countdown)
          && error == Some(message)
    {
      match outcome {
        case FetchThrew(m) =>
          error := Some(OrElse(Some(m), FetchErrorMessage));
        case Replied(status, Unparsable(m)) =>
          error := Some(OrElse(Some(m), FetchErrorMessage));
        case Replied(status, Parsed(result)) =>
          if !IsOk(status) {
            var message := OrElse(result.error, FetchErrorMessage);
            error := Some(OrElse(Some(message), FetchErrorMessage));
          } else if result.bunkers.Some? {
            data := result;
            nextRequestTime := now + MinRequestInterval;
            var newCountdown := BuildCountdown(result.bunkers.value, now);
            countdown := newCountdown;
          } else {
            error := Some(InvalidFormatMessage);
          }
      }
      isLoading := false;
    }

    /** The once-a-second timer body: the countdown rebuilt from the stored bunkers. */
    method Tick(now: int)
      requires Valid()
      modifies this
      ensures Valid() && countdown == Countdown(data.bunkers.value, now)
      ensures data == old(data) && error == old(error) && nextRequestTime == old(nextRequestTime)
      ensures isLoading == old(isLoading)
    {
      countdown := BuildCountdown(data.bunkers.value, now);
    }

    /** `sortedBunkers`: a sorted copy, the stored list itself stays as it is. */
    function SortedBunkers(): seq<Bunker>
      requires Valid()
      reads this
    {
      StableSort(ActiveFirst, data.bunkers.value)
    }
  }
}
