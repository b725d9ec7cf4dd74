/**
 * Discord's relative-time marker `<t:DIGITS:R>` and a leftmost scanner for it: the behaviour of
 * `text.match(/<t:(\d+):R>/)` and its first capture group, shared by the server route and
 * src/utils/bunkerUtils.ts.
 */
module TimestampToken {
  import opened Text
  import opened BunkerTypes

  /** `s[i..k + 3]` is a marker whose digits are `s[i + 3..k]` (at least one of them). */
  predicate TokenAt(s: string, i: int, k: int)
  {
    && 0 <= i && i + 3 < k && k + 3 <= |s|
    && s[i..i + 3] == "<t:" && AllDigits(s[i + 3..k]) && s[k..k + 3] == ":R>"
  }

  /** The marker at `i` ends its digits at `k`, and no marker starts earlier. */
  ghost predicate LeftmostToken(s: string, i: int, k: int)
  {
    TokenAt(s, i, k) && forall j, k' :: TokenAt(s, j, k') ==> i <= j
  }

  /** The marker for the instant `n`, as a chat bot writes it. */
  function Token(n: nat): string
  {
    "<t:" + NatToString(n) + ":R>"
  }

  /** The end of the run of digits that starts at `j`. */
  function DigitRunEnd(s: string, j: nat): (k: nat)
    requires j <= |s|
    ensures j <= k <= |s| && AllDigits(s[j..k])
    ensures k < |s| ==> !IsDigit(s[k])
    decreases |s| - j
  {
    if j < |s| && IsDigit(s[j]) then
      var k := DigitRunEnd(s, j + 1);
      assert s[j..k] == [s[j]] + s[j + 1..k];
      k
    else j
  }

  /** Scans `s` from offset `i` for the first complete marker; returns its start and digit end. */
  function ScanFrom(s: string, i: nat): (r: Option<(nat, nat)>)
    requires i <= |s|
    ensures r.Some? ==> i <= r.value.0 && TokenAt(s, r.value.0, r.value.1)
    decreases |s| - i
  {
    if i + 3 > |s| then None
    else if s[i..i + 3] == "<t:" then
      var k := DigitRunEnd(s, i + 3);
      if i + 3 < k && k + 3 <= |s| && s[k..k + 3] == ":R>" then Some((i, k))
      else ScanFrom(s, i + 1)
    else ScanFrom(s, i + 1)
  }

  function Locate(s: string): (r: Option<(nat, nat)>)
    ensures r.Some? ==> TokenAt(s, r.value.0, r.value.1)
  {
    ScanFrom(s, 0)
  }

  /** The decimal value of the first marker's digits, or None when `s` holds no marker. */
  function TokenSeconds(s: string): Option<nat>
  {
    match Locate(s)
    case None => None
    case Some((i, k)) => Some(DigitsValue(s[i + 3..k]))
  }

  /** A marker's digits end where its run of digits ends: the start fixes the whole marker. */
  lemma TokenEndUnique(s: string, i: int, k: int, k': int)
    requires TokenAt(s, i, k) && TokenAt(s, i, k')
    ensures k == k'
  {
    DigitsAt(s, i + 3, k);
    DigitsAt(s, i + 3, k');
    assert !IsDigit(s[k]) && !IsDigit(s[k']);
  }

  lemma DigitsAt(s: string, lo: int, hi: int)
    requires 0 <= lo <= hi <= |s| && AllDigits(s[lo..hi])
    ensures forall m :: lo <= m < hi ==> IsDigit(s[m])
  {
    forall m | lo <= m < hi ensures IsDigit(s[m]) {
      assert s[lo..hi][m - lo] == s[m];
    }
  }

  /** No marker starts at `i` when the scanner's test at `i` fails. */
  lemma NoTokenAtRejected(s: string, i: nat, k': int)
    requires i + 3 <= |s| && TokenAt(s, i, k')
    ensures var k := DigitRunEnd(s, i + 3); i + 3 < k && k + 3 <= |s| && s[k..k + 3] == ":R>"
  {
    var k := DigitRunEnd(s, i + 3);
    DigitsAt(s, i + 3, k);
    DigitsAt(s, i + 3, k');
    assert !IsDigit(s[k']);
    assert k == k';
  }

  lemma {:induction false} ScanFromFindsLeftmost(s: string, i: nat)
    requires i <= |s|
    ensures ScanFrom(s, i).None? ==> forall j, k :: i <= j ==> !TokenAt(s, j, k)
    ensures ScanFrom(s, i).Some? ==>
              forall j, k :: i <= j && TokenAt(s, j, k) ==> ScanFrom(s, i).value.0 <= j
    decreases |s| - i
  {
    if i + 3 > |s| {
    } else {
      var found := s[i..i + 3] == "<t:" &&
        var k := DigitRunEnd(s, i + 3); i + 3 < k && k + 3 <= |s| && s[k..k + 3] == ":R>";
      if !found {
        ScanFromFindsLeftmost(s, i + 1);
        forall k' | TokenAt(s, i, k') ensures false {
          NoTokenAtRejected(s, i, k');
        }
      }
    }
  }

  /**
   * What `match` finds: none exactly when the text holds no marker at all, and otherwise the
   * leftmost marker, whose digit end is determined by its start.
   */
  lemma LocateIsLeftmost(s: string)
    ensures Locate(s).None? <==> forall j, k :: !TokenAt(s, j, k)
    ensures Locate(s).Some? ==> LeftmostToken(s, Locate(s).value.0, Locate(s).value.1)
  {
    ScanFromFindsLeftmost(s, 0);
  }

  /** The declarative meaning of TokenSeconds: no marker gives None, else the leftmost marker's value. */
  lemma TokenSecondsMeaning(s: string)
    ensures (forall j, k :: !TokenAt(s, j, k)) ==> TokenSeconds(s) == None
    ensures forall i, k :: LeftmostToken(s, i, k) ==> TokenSeconds(s) == Some(DigitsValue(s[i + 3..k]))
  {
    LocateIsLeftmost(s);
    forall i, k | LeftmostToken(s, i, k)
      ensures TokenSeconds(s) == Some(DigitsValue(s[i + 3..k]))
    {
      var (i0, k0) := Locate(s).value;
      assert i0 <= i && i <= i0;
      TokenEndUnique(s, i, k, k0);
    }
  }

  /** The marker for `n`, placed after any text without '<', reads back as `n`. */
  lemma TokenSecondsOfToken(p: string, n: nat, q: string)
    requires '<' !in p
    ensures TokenSeconds(p + Token(n) + q) == Some(n)
  {
    var s := p + Token(n) + q;
    var d := NatToString(n);
    var i, k := |p|, |p| + 3 + |d|;
    assert s[i..i + 3] == "<t:";
    assert s[i + 3..k] == d;
    assert s[k..k + 3] == ":R>";
    assert TokenAt(s, i, k);
    assert forall m :: 0 <= m < i ==> s[m] == p[m] != '<';
    forall j, k' | TokenAt(s, j, k') ensures i <= j {
      assert s[j] == s[j..j + 3][0] == '<';
    }
    assert LeftmostToken(s, i, k);
    TokenSecondsMeaning(s);
    assert TokenSeconds(s) == Some(DigitsValue(s[i + 3..k]));
    NatToStringRoundTrip(n);
  }
}
