/**
 * The two pieces of JavaScript string formatting the dial uses on whole numbers:
 * `String(k)` for a non-negative integer and `s.padStart(width, fill)` with a
 * one-character fill.
 */
module Text {

  /** The character of a decimal digit. */
  function DigitChar(d: int): (c: char)
    requires 0 <= d < 10
    ensures '0' <= c <= '9'
    ensures DigitValue(c) == d
  {
    ('0' as int + d) as char
  }

  /** The value of a decimal digit character. */
  function DigitValue(c: char): (d: int)
    requires '0' <= c <= '9'
    ensures 0 <= d < 10
  {
    c as int - '0' as int
  }

  predicate IsDigits(s: string) {
    forall i :: 0 <= i < |s| ==> '0' <= s[i] <= '9'
  }

  /** `String(k)`: the decimal digits of k, most significant first, no leading zero. */
  function DecimalString(k: nat): (s: string)
    ensures 1 <= |s|
    ensures IsDigits(s)
    ensures |s| == 1 <==> k < 10
    ensures s[0] == '0' <==> k == 0
    decreases k
  {
    if k < 10 then [DigitChar(k)] else DecimalString(k / 10) + [DigitChar(k % 10)]
  }

  /** The number a string of decimal digits denotes; the reading that `DecimalString` inverts. */
  function DecimalValue(s: string): nat
    requires IsDigits(s)
    decreases |s|
  {
    if s == [] then 0 else 10 * DecimalValue(s[..|s| - 1]) + DigitValue(s[|s| - 1])
  }

  /** `String(k)` loses nothing: reading its digits back gives k. */
  lemma {:induction false} DecimalRoundTrip(k: nat)
    ensures DecimalValue(DecimalString(k)) == k
  {
    var s := DecimalString(k);
    if k >= 10 {
      DecimalRoundTrip(k / 10);
      assert s[..|s| - 1] == DecimalString(k / 10);
    }
  }

  /** `s.padStart(width, fill)`: s, with fill characters put in front until it is width long. */
  function PadStart(s: string, width: nat, fill: char): (r: string)
    ensures |r| == if |s| < width then width else |s|
    ensures r[|r| - |s|..] == s
    ensures forall i :: 0 <= i < |r| - |s| ==> r[i] == fill
  {
    if |s| < width then seq(width - |s|, _ => fill) + s else s
  }
}
