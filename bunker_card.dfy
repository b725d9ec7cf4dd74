/**
 * The integer part of `updateTime` in src/components/BunkerCard.tsx: the label a card shows for
 * its bunker one second at a time.
 */
module BunkerCard {
  import opened BunkerTypes
  import opened Text

  const ActiveNowLabel: string := "Ativo agora"
  const AvailableLabel: string := "Disponível"

  /** `n.toString().padStart(2, '0')`: one digit gets a leading zero, wider numbers stay as they are. */
  function Pad2(n: nat): string
  {
    if n < 10 then "0" + NatToString(n) else NatToString(n)
  }

  /** Pad2 is `padStart(2, '0')` of the decimal rendering. */
  lemma Pad2IsPadStart(n: nat)
    ensures Pad2(n) == PadStart(NatToString(n), 2, '0')
  {
    var d := NatToString(n);
    if n < 10 {
      assert PadStart(d, 2, '0')[0] == '0';
      assert PadStart(d, 2, '0') == "0" + d;
    }
  }

  /** `bunker.timestamp - Math.floor(Date.now() / 1000)`, with the clock read as `nowMs`. */
  function SecondsLeft(b: Bunker, nowMs: int): int
  {
    b.timestamp - nowMs / 1000
  }

  /** `${hh}:${mm}:${ss}` with each part padded to two digits. */
  function Clock(h: nat, m: nat, s: nat): string
  {
    Pad2(h) + ":" + Pad2(m) + ":" + Pad2(s)
  }

  /**
   * The label: once the instant is reached, "Ativo agora" for an active bunker and "Disponível"
   * otherwise; before it, the seconds left as zero-padded hours, minutes and seconds.
   */
  function TimeLeftLabel(b: Bunker, nowMs: int): string
  {
    var diff := SecondsLeft(b, nowMs);
    if diff <= 0 then (if b.isActive then ActiveNowLabel else AvailableLabel)
    else Clock(diff / 3600, (diff % 3600) / 60, diff % 60)
  }

  /**
   * A reader for the clock form `H:MM:SS`, hours of any width and two-digit minutes and seconds:
   * the number of seconds it stands for, or None for text of another form.
   */
  function ParseClock(t: string): Option<int>
  {
    if |t| < 7 then None
    else
      var k := |t| - 6;
      if t[k] == ':' && t[k + 3] == ':' then ClockValue(t[..k], t[k + 1..k + 3], t[k + 4..]) else None
  }

  /** The seconds three digit strings stand for as hours, minutes and seconds; None if one is not digits. */
  function ClockValue(hh: string, mm: string, ss: string): Option<int>
  {
    if AllDigits(hh) && AllDigits(mm) && AllDigits(ss) then
      Some(DigitsValue(hh) * 3600 + DigitsValue(mm) * 60 + DigitsValue(ss))
    else None
  }

  /** A padded part is decimal digits worth `n`, at least two wide, and exactly two below 100. */
  lemma Pad2Meaning(n: nat)
    ensures AllDigits(Pad2(n)) && DigitsValue(Pad2(n)) == n
    ensures |Pad2(n)| >= 2 && (n < 100 ==> |Pad2(n)| == 2)
    ensures |Pad2(n)| == 2 || Pad2(n) == NatToString(n)
  {
    var d := NatToString(n);
    NatToStringRoundTrip(n);
    if n < 10 {
      LeadingZeros("0", d);
    } else if n < 100 {
      assert |NatToString(n / 10)| == 1;
    }
  }

  /** Strings joined by colons, the last two of width two, are split back into the same three parts. */
  lemma ParseClockOfParts(a: string, c: string, e: string)
    requires |a| >= 1 && |c| == 2 && |e| == 2
    ensures ParseClock(a + ":" + c + ":" + e) == ClockValue(a, c, e)
  {
    var t := a + ":" + c + ":" + e;
    ClockLayout(a, c, e);
    ParseClockAt(t, |a|);
  }

  /** A text with colons six and three places from its end reads as the three parts around them. */
  lemma ParseClockAt(t: string, n: nat)
    requires n >= 1 && |t| == n + 6 && t[n] == ':' && t[n + 3] == ':'
    ensures ParseClock(t) == ClockValue(t[..n], t[n + 1..n + 3], t[n + 4..])
  {
  }

  /** Where the parts of `a:c:e` sit, for a two-wide `c` and `e`. */
  lemma ClockLayout(a: string, c: string, e: string)
    requires |c| == 2 && |e| == 2
    ensures var t := a + ":" + c + ":" + e; var n := |a|;
      && |t| == n + 6 && t[n] == ':' && t[n + 3] == ':'
      && t[..n] == a && t[n + 1..n + 3] == c && t[n + 4..] == e
  {
    var t := a + ":" + c + ":" + e;
    var n := |a|;
    assert t == a + ([':'] + c + [':'] + e);
    assert t[..n] == a;
    assert t[n + 1..n + 3] == c;
    assert t[n + 4..] == e;
  }

  /** A clock of padded parts, minutes and seconds below 100, reads back as the seconds it was made from. */
  lemma ClockRoundTrip(h: nat, m: nat, s: nat)
    requires m < 100 && s < 100
    ensures ParseClock(Clock(h, m, s)) == Some(h * 3600 + m * 60 + s)
  {
    var a, c, e := Pad2(h), Pad2(m), Pad2(s);
    Pad2Meaning(h);
    Pad2Meaning(m);
    Pad2Meaning(s);
    ParseClockOfParts(a, c, e);
    assert DigitsValue(a) == h && DigitsValue(c) == m && DigitsValue(e) == s;
    assert ParseClock(a + ":" + c + ":" + e) == Some(h * 3600 + m * 60 + s);
  }

  /** The two words are not clocks. */
  lemma WordsAreNotClocks()
    ensures ParseClock(ActiveNowLabel) == None && ParseClock(AvailableLabel) == None
  {
  }

  /** Whole hours, minutes below 60 and seconds below 60 add up to the seconds they split. */
  lemma ClockSplit(diff: nat)
    ensures var h, m, s := diff / 3600, (diff % 3600) / 60, diff % 60;
      h * 3600 + m * 60 + s == diff && m < 60 && s < 60
  {
  }

  /**
   * Before the instant, the label reads back as exactly the seconds left, whatever the number of
   * hours; at or after it, the label is a word, not a clock: "Ativo agora" exactly for an active
   * bunker and "Disponível" exactly for an inactive one.
   */
  lemma TimeLeftLabelRoundTrip(b: Bunker, nowMs: int)
    ensures SecondsLeft(b, nowMs) > 0 ==> ParseClock(TimeLeftLabel(b, nowMs)) == Some(SecondsLeft(b, nowMs))
    ensures SecondsLeft(b, nowMs) <= 0 ==> ParseClock(TimeLeftLabel(b, nowMs)) == None
    ensures TimeLeftLabel(b, nowMs) == ActiveNowLabel <==> SecondsLeft(b, nowMs) <= 0 && b.isActive
    ensures TimeLeftLabel(b, nowMs) == AvailableLabel <==> SecondsLeft(b, nowMs) <= 0 && !b.isActive
  {
    var diff := SecondsLeft(b, nowMs);
    if diff > 0 {
      var h, m, s := diff / 3600, (diff % 3600) / 60, diff % 60;
      ClockSplit(diff);
      assert TimeLeftLabel(b, nowMs) == Clock(h, m, s);
      ClockRoundTrip(h, m, s);
    } else {
      WordsAreNotClocks();
    }
  }

  /**
   * The three parts of a running clock: minutes and seconds are below 60 and each shows as two
   * digits; the hours are not capped and show as at least two digits.
   */
  lemma TimeLeftLabelParts(b: Bunker, nowMs: int)
    requires SecondsLeft(b, nowMs) > 0
    ensures var diff := SecondsLeft(b, nowMs);
      var h, m, s := diff / 3600, (diff % 3600) / 60, diff % 60;
      && h * 3600 + m * 60 + s == diff && m < 60 && s < 60
      && |Pad2(m)| == 2 && |Pad2(s)| == 2 && |Pad2(h)| >= 2
      && TimeLeftLabel(b, nowMs) == Clock(h, m, s)
  {
    var diff := SecondsLeft(b, nowMs);
    ClockSplit(diff);
    Pad2Meaning(diff / 3600);
    Pad2Meaning((diff % 3600) / 60);
    Pad2Meaning(diff % 60);
  }
}
