/** The text Java produces when a log message embeds a number or a boolean
    (`String.valueOf`, which both `StringBuilder.append` and the logging
    placeholders use): base ten, a leading '-' for negatives, no leading
    zeros; `true` / `false` for booleans. */
module Decimal {

  predicate IsDigit(c: char) {
    '0' <= c <= '9'
  }

  /** The character of a single decimal digit. */
  function DigitChar(d: nat): (c: char)
    requires d < 10
    ensures IsDigit(c)
    ensures c as int - '0' as int == d
  {
    ['0', '1', '2', '3', '4', '5', '6', '7', '8', '9'][d]
  }

  /** Decimal text of a non-negative number. */
  function NatToText(n: nat): (s: string)
    ensures |s| > 0
    decreases n
  {
    if n < 10 then [DigitChar(n)] else NatToText(n / 10) + [DigitChar(n % 10)]
  }

  /** Decimal text of a Java integer, as `String.valueOf(long)` renders it. */
  function IntToText(i: int): (s: string)
    ensures |s| > 0
  {
    if i < 0 then "-" + NatToText(-i) else NatToText(i)
  }

  /** Text of a Java boolean, as `String.valueOf(boolean)` renders it. */
  function BoolToText(b: bool): (s: string) {
    if b then "true" else "false"
  }

  /** The value of a single digit character. */
  function DigitValue(c: char): nat
    requires IsDigit(c)
  {
    c as int - '0' as int
  }

  /** Reference reading of a digit string back into its value. */
  function DigitsValue(s: string): nat
    requires forall k :: 0 <= k < |s| ==> IsDigit(s[k])
  {
    if |s| == 0 then 0 else 10 * DigitsValue(s[..|s| - 1]) + DigitValue(s[|s| - 1])
  }

  /** Canonical decimal text: digits only, and no leading zero unless the
      number is zero itself. */
  predicate Canonical(s: string) {
    && |s| > 0
    && (forall k :: 0 <= k < |s| ==> IsDigit(s[k]))
    && (|s| > 1 ==> s[0] != '0')
  }

  /** `NatToText` is canonical and reads back as the number it renders. */
  lemma {:induction false} NatToTextRoundTrip(n: nat)
    ensures Canonical(NatToText(n))
    ensures DigitsValue(NatToText(n)) == n
    decreases n
  {
    if n >= 10 {
      NatToTextRoundTrip(n / 10);
      var p := NatToText(n / 10);
      var s := NatToText(n);
      assert s == p + [DigitChar(n % 10)];
      assert s[..|s| - 1] == p;
      assert s[0] == p[0];
    }
  }

  /** Reference reading of a Java integer's text: an optional leading '-'
      followed by digits. */
  function ReadInt(t: string): int
    requires |t| > 0
    requires t[0] == '-' || IsDigit(t[0])
    requires forall k :: 0 < k < |t| ==> IsDigit(t[k])
  {
    if t[0] == '-' then 0 - DigitsValue(t[1..]) else DigitsValue(t)
  }

  /** `IntToText` reads back as the integer it renders; in particular,
      distinct integers render as distinct texts. */
  lemma IntToTextRoundTrip(i: int)
    ensures var t := IntToText(i);
            && |t| > 0
            && (t[0] == '-' || IsDigit(t[0]))
            && (forall k :: 0 < k < |t| ==> IsDigit(t[k]))
            && (t[0] == '-' ==> i < 0 && Canonical(t[1..]))
            && (t[0] != '-' ==> i >= 0 && Canonical(t))
            && ReadInt(t) == i
  {
    var t := IntToText(i);
    if i < 0 {
      var digits := NatToText(-i);
      NatToTextRoundTrip(-i);
      assert t == "-" + digits;
      assert t[1..] == digits;
    } else {
      NatToTextRoundTrip(i);
      assert t == NatToText(i);
    }
  }
}
