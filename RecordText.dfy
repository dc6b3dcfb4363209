/**
 * The record strings of the summary table: `f"{wins}-{losses}"`, the decimal rendering of
 * two counts joined by a dash, and the parse that reads such a string back.
 */
module RecordText {
  import opened Wrappers

  predicate IsDigit(c: char)
  {
    '0' <= c <= '9'
  }

  predicate AllDigits(s: string)
  {
    forall i :: 0 <= i < |s| ==> IsDigit(s[i])
  }

  function DigitChar(d: nat): (c: char)
    requires d < 10
    ensures IsDigit(c) && (c as int) - ('0' as int) == d
  {
    (d + '0' as int) as char
  }

  /** The value of a string of decimal digits. */
  function DigitsValue(s: string): nat
    requires AllDigits(s)
  {
    if s == [] then 0
    else DigitsValue(s[..|s| - 1]) * 10 + ((s[|s| - 1] as int) - ('0' as int))
  }

  /** Python's `str` of a non-negative integer: decimal digits without leading zeros. */
  function DecimalString(n: nat): (s: string)
    ensures |s| > 0 && AllDigits(s)
    ensures s[0] != '0' || s == "0"
    ensures DigitsValue(s) == n
  {
    if n < 10 then [DigitChar(n)]
    else
      var prefix := DecimalString(n / 10);
      assert (prefix + [DigitChar(n % 10)])[..|prefix|] == prefix;
      prefix + [DigitChar(n % 10)]
  }

  /** The "Win-Loss Record" cell. */
  function WinLossRecord(wins: nat, losses: nat): string
  {
    DecimalString(wins) + "-" + DecimalString(losses)
  }

  /** Index of the first `c` in `s`, if any. */
  function IndexOf(s: string, c: char): (r: Option<nat>)
    ensures r.Some? ==> r.value < |s| && s[r.value] == c && forall j :: 0 <= j < r.value ==> s[j] != c
    ensures r.None? ==> forall j :: 0 <= j < |s| ==> s[j] != c
  {
    if s == [] then None
    else if s[0] == c then Some(0)
    else match IndexOf(s[1..], c)
      case None => None
      case Some(k) => Some(k + 1)
  }

  /** Reads a "wins-losses" string back into its two counts. */
  function ParseRecord(s: string): Option<(nat, nat)>
  {
    match IndexOf(s, '-')
    case None => None
    case Some(k) =>
      var left, right := s[..k], s[k + 1..];
      if left != [] && right != [] && AllDigits(left) && AllDigits(right)
      then Some((DigitsValue(left), DigitsValue(right)))
      else None
  }

  /** A record string always reads back as the two counts it was written from. */
  lemma RecordRoundTrip(wins: nat, losses: nat)
    ensures ParseRecord(WinLossRecord(wins, losses)) == Some((wins, losses))
  {
    var w, l := DecimalString(wins), DecimalString(losses);
    var s := w + "-" + l;
    assert s[|w|] == '-';
    forall j | 0 <= j < |w| ensures s[j] != '-' {
      assert s[j] == w[j] && IsDigit(w[j]);
    }
    assert IndexOf(s, '-') == Some(|w|);
    assert s[..|w|] == w && s[|w| + 1..] == l;
  }

  /** Distinct records are distinct strings: the rendering loses nothing. */
  lemma RecordInjective(w1: nat, l1: nat, w2: nat, l2: nat)
    requires WinLossRecord(w1, l1) == WinLossRecord(w2, l2)
    ensures w1 == w2 && l1 == l2
  {
    RecordRoundTrip(w1, l1);
    RecordRoundTrip(w2, l2);
  }
}
