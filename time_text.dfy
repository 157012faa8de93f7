/**
 * Decimal text of whole numbers, `String.prototype.padStart(2, "0")` and the
 * `MM:SS` formatter shared by the verification-code countdown and the call
 * duration display.
 */
module TimeText {

  predicate IsDigit(c: char) {
    '0' <= c <= '9'
  }

  predicate AllDigits(s: string) {
    forall i | 0 <= i < |s| :: IsDigit(s[i])
  }

  function DigitChar(d: nat): (c: char)
    requires d < 10
    ensures IsDigit(c)
  {
    ('0' as int + d) as char
  }

  function DigitValue(c: char): (d: nat)
    requires IsDigit(c)
    ensures d < 10
  {
    c as int - '0' as int
  }

  /** `n.toString()` for a whole number: its decimal digits, most significant first, no leading zero. */
  function DecimalText(n: nat): (s: string)
    ensures 1 <= |s|
    ensures AllDigits(s)
    ensures |s| > 1 ==> s[0] != '0'
  {
    if n < 10 then [DigitChar(n)] else DecimalText(n / 10) + [DigitChar(n % 10)]
  }

  /** The number a string of decimal digits denotes (leading zeros allowed). */
  function ParseDecimal(s: string): nat
    requires AllDigits(s)
  {
    if s == [] then 0 else ParseDecimal(s[..|s| - 1]) * 10 + DigitValue(s[|s| - 1])
  }

  /** Printing a number and reading it back gives the number. */
  lemma {:induction false} ParseDecimalText(n: nat)
    ensures ParseDecimal(DecimalText(n)) == n
  {
    if n >= 10 {
      var s := DecimalText(n);
      assert s[..|s| - 1] == DecimalText(n / 10);
      ParseDecimalText(n / 10);
    }
  }

  /** `s.padStart(2, "0")`: prefixes zeros up to length two, leaves longer strings alone. */
  function PadStart2(s: string): (r: string)
    ensures |r| == if |s| >= 2 then |s| else 2
    ensures r[|r| - |s|..] == s
    ensures forall i | 0 <= i < |r| - |s| :: r[i] == '0'
  {
    if |s| >= 2 then s else seq(2 - |s|, _ => '0') + s
  }

  /** `String(n).padStart(2, "0")`. */
  function Pad2(n: nat): (s: string)
    ensures AllDigits(s)
    ensures n < 100 <==> |s| == 2
    ensures ParseDecimal(s) == n
  {
    var d := DecimalText(n);
    ParseDecimalText(n);
    if n < 10 then
      assert PadStart2(d) == ['0'] + d;
      PadStart2(d)
    else
      assert n < 100 ==> n / 10 < 10;
      d
  }

  /**
   * `${pad(floor(seconds / 60))}:${pad(seconds % 60)}`. Below 100 minutes the
   * text is exactly `MM:SS` and reads back as the number of seconds.
   */
  function MinSec(seconds: nat): (r: string)
    ensures |r| >= 5 && r[|r| - 3] == ':'
    ensures AllDigits(r[..|r| - 3]) && AllDigits(r[|r| - 2..])
    ensures ParseDecimal(r[..|r| - 3]) * 60 + ParseDecimal(r[|r| - 2..]) == seconds
    ensures seconds < 6000 <==> |r| == 5
  {
    var mm := Pad2(seconds / 60);
    var ss := Pad2(seconds % 60);
    var r := mm + ":" + ss;
    assert r[..|r| - 3] == mm;
    assert r[|r| - 2..] == ss;
    r
  }
}
