/**
 * The trim-duration text `trimmingDuration`: the trimmed length in whole
 * seconds, rounded to nearest, followed by " sec".
 */
module TrimLabel {
  import opened Optional

  /** Swift's `Double.rounded()`: to the nearest integer, halves away from zero. */
  function RoundToNearest(x: real): (n: int)
    ensures x >= 0.0 ==> n as real - 0.5 <= x < n as real + 0.5
    ensures x < 0.0 ==> n as real - 0.5 < x <= n as real + 0.5
  {
    if x >= 0.0 then (x + 0.5).Floor else -((-x + 0.5).Floor)
  }

  predicate IsDigit(c: char) {
    '0' <= c <= '9'
  }

  function DigitChar(d: nat): (c: char)
    requires d < 10
    ensures IsDigit(c) && c as int - '0' as int == d
  {
    ('0' as int + d) as char
  }

  /** The decimal digits of `n`, most significant first, without leading zeros. */
  function Digits(n: nat): (s: string)
    ensures |s| >= 1 && forall i :: 0 <= i < |s| ==> IsDigit(s[i])
    ensures |s| > 1 ==> s[0] != '0'
    decreases n
  {
    if n < 10 then [DigitChar(n)] else Digits(n / 10) + [DigitChar(n % 10)]
  }

  /** The value of a string of decimal digits. */
  function ParseNat(s: string): int
    requires forall i :: 0 <= i < |s| ==> IsDigit(s[i])
  {
    if s == [] then 0 else ParseNat(s[..|s| - 1]) * 10 + (s[|s| - 1] as int - '0' as int)
  }

  lemma {:induction false} ParseDigits(n: nat)
    ensures ParseNat(Digits(n)) == n
    decreases n
  {
    var s := Digits(n);
    if n >= 10 {
      ParseDigits(n / 10);
      assert s[..|s| - 1] == Digits(n / 10);
    } else {
      assert s[..|s| - 1] == [];
    }
  }

  /** Swift's `"\(n)"` for an `Int`: a minus sign for negatives, then the digits. */
  function IntString(n: int): string {
    if n < 0 then "-" + Digits(-n) else Digits(n)
  }

  /** Reads back an integer written by `IntString`. */
  function ParseInt(s: string): Option<int> {
    if |s| > 1 && s[0] == '-' && forall i :: 1 <= i < |s| ==> IsDigit(s[i]) then
      Some(-ParseNat(s[1..]))
    else if |s| > 0 && forall i :: 0 <= i < |s| ==> IsDigit(s[i]) then
      Some(ParseNat(s))
    else None
  }

  lemma ParseIntString(n: int)
    ensures ParseInt(IntString(n)) == Some(n)
  {
    var s := IntString(n);
    if n < 0 {
      var d := Digits(-n);
      assert s[1..] == d;
      assert forall i :: 1 <= i < |s| ==> s[i] == d[i - 1];
      ParseDigits(-n);
    } else {
      assert s[0] != '-';
      ParseDigits(n);
    }
  }

  /** `trimmingDuration`: a missing trim bound counts as zero. */
  function TrimmingDuration(start: Option<real>, end: Option<real>): string {
    IntString(RoundToNearest(end.GetOr(0.0) - start.GetOr(0.0))) + " sec"
  }

  /** Reads the whole seconds back out of a text "N sec". */
  function ParseLabel(text: string): Option<int> {
    if |text| < 4 || text[|text| - 4..] != " sec" then None
    else ParseInt(text[..|text| - 4])
  }

  /**
   * The text names exactly the trimmed length rounded to nearest seconds:
   * it ends in " sec" and what precedes it reads back as that number.
   */
  lemma TrimmingDurationReadsBack(start: Option<real>, end: Option<real>)
    ensures var text := TrimmingDuration(start, end);
            var n := RoundToNearest(end.GetOr(0.0) - start.GetOr(0.0));
            && |text| >= 4 && text[|text| - 4..] == " sec"
            && ParseLabel(text) == Some(n)
            && (end.GetOr(0.0) - start.GetOr(0.0) - 0.5 <= n as real <= end.GetOr(0.0) - start.GetOr(0.0) + 0.5)
  {
    var n := RoundToNearest(end.GetOr(0.0) - start.GetOr(0.0));
    var text := TrimmingDuration(start, end);
    assert text[..|text| - 4] == IntString(n);
    assert text[|text| - 4..] == " sec";
    ParseIntString(n);
  }
}
