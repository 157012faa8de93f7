/**
 * The phone-number field of src/components/signup/Phoneinput.tsx: input is
 * reduced to its digits, cut to eleven and hyphenated 3-4-4.
 */
module PhoneInput {
  import opened Wrappers
  import opened TimeText

  /** `value.replace(/[^\d]/g, "")`: the ASCII digits of the value, in order. */
  function Digits(s: string): (d: string)
    ensures AllDigits(d) && |d| <= |s|
  {
    if s == [] then [] else (if IsDigit(s[0]) then [s[0]] else []) + Digits(s[1..])
  }

  lemma {:induction false} DigitsAppend(a: string, b: string)
    ensures Digits(a + b) == Digits(a) + Digits(b)
  {
    if a == [] {
      assert a + b == b;
    } else {
      assert (a + b)[1..] == a[1..] + b;
      DigitsAppend(a[1..], b);
    }
  }

  lemma {:induction false} DigitsOfDigits(d: string)
    requires AllDigits(d)
    ensures Digits(d) == d
  {
    if d != [] {
      DigitsOfDigits(d[1..]);
    }
  }

  function Min(a: int, b: int): int {
    if a < b then a else b
  }

  /** The 3-4-4 layout of a digit string, with `slice(7, 11)` cutting after eleven digits. */
  function Hyphenated(d: string): string {
    if |d| <= 3 then d
    else if |d| <= 7 then d[..3] + "-" + d[3..]
    else d[..3] + "-" + d[3..7] + "-" + d[7..Min(11, |d|)]
  }

  /** A hyphen contributes no digits. */
  lemma DigitsAcrossHyphen(x: string, y: string)
    ensures Digits(x + "-" + y) == Digits(x) + Digits(y)
  {
    DigitsAppend(x + "-", y);
    DigitsAppend(x, "-");
    assert Digits("-") == [];
  }

  /** Dropping the hyphens again gives the first eleven digits. */
  lemma {:induction false} HyphenatedDigits(d: string)
    requires AllDigits(d)
    ensures Digits(Hyphenated(d)) == d[..Min(11, |d|)]
  {
    if |d| <= 3 {
      DigitsOfDigits(d);
    } else if |d| <= 7 {
      DigitsAcrossHyphen(d[..3], d[3..]);
      DigitsOfDigits(d[..3]);
      DigitsOfDigits(d[3..]);
      assert d[..3] + d[3..] == d;
    } else {
      var e := Min(11, |d|);
      DigitsAcrossHyphen(d[..3] + "-" + d[3..7], d[7..e]);
      DigitsAcrossHyphen(d[..3], d[3..7]);
      DigitsOfDigits(d[..3]);
      DigitsOfDigits(d[3..7]);
      DigitsOfDigits(d[7..e]);
      assert d[..3] + d[3..7] + d[7..e] == d[..e];
    }
  }

  /** Only digits and hyphens, at most 13 characters, hyphens exactly at indices 3 and 8 when the digits reach there. */
  lemma HyphenatedShape(d: string)
    requires AllDigits(d)
    ensures |Hyphenated(d)| <= 13
    ensures forall i | 0 <= i < |Hyphenated(d)| ::
              (IsDigit(Hyphenated(d)[i]) || Hyphenated(d)[i] == '-')
              && (Hyphenated(d)[i] == '-' <==> (|d| > 3 && i == 3) || (|d| > 7 && i == 8))
  {
    var r := Hyphenated(d);
    if |d| > 7 {
      var e := Min(11, |d|);
      forall i | 0 <= i < |r|
        ensures (IsDigit(r[i]) || r[i] == '-') && (r[i] == '-' <==> i == 3 || i == 8)
      {
        if i < 3 { assert r[i] == d[i]; }
        else if 3 < i < 8 { assert r[i] == d[i - 1]; }
        else if i > 8 { assert r[i] == d[i - 2]; }
      }
    } else if |d| > 3 {
      forall i | 0 <= i < |r|
        ensures (IsDigit(r[i]) || r[i] == '-') && (r[i] == '-' <==> i == 3)
      {
        if i < 3 { assert r[i] == d[i]; }
        else if i > 3 { assert r[i] == d[i - 1]; }
      }
    }
  }

  /** `formatPhoneNumber`. */
  function FormatPhoneNumber(value: string): (r: string)
    ensures forall i | 0 <= i < |r| :: IsDigit(r[i]) || r[i] == '-'
    ensures Digits(r) == Digits(value)[..Min(11, |Digits(value)|)]
    ensures |r| <= 13
    ensures forall i | 0 <= i < |r| ::
              r[i] == '-' <==> (|Digits(value)| > 3 && i == 3) || (|Digits(value)| > 7 && i == 8)
  {
    var d := Digits(value);
    HyphenatedDigits(d);
    HyphenatedShape(d);
    Hyphenated(d)
  }

  /** Formatting an already formatted number changes nothing. */
  lemma FormatIdempotent(value: string)
    ensures FormatPhoneNumber(FormatPhoneNumber(value)) == FormatPhoneNumber(value)
  {
    var d := Digits(value);
    var d' := Digits(FormatPhoneNumber(value));
    assert d' == d[..Min(11, |d|)];
    if |d| > 7 {
      assert d'[..3] == d[..3] && d'[3..7] == d[3..7] && d'[7..Min(11, |d'|)] == d[7..Min(11, |d|)];
    } else {
      assert d' == d;
    }
  }

  /** `isComplete`: exactly eleven digits. */
  predicate IsComplete(phone: string) {
    |Digits(phone)| == 11
  }

  /** A complete number is always shown in the full 3-4-4 form. */
  lemma CompleteIsFullyFormatted(value: string)
    requires IsComplete(FormatPhoneNumber(value))
    ensures |FormatPhoneNumber(value)| == 13
  {
  }

  class PhoneForm {
    var phoneNumber: string

    constructor ()
      ensures phoneNumber == ""
    {
      phoneNumber := "";
    }

    /** `handlePhoneChange`: the field always holds the formatted value. */
    method HandlePhoneChange(value: string)
      modifies this
      ensures phoneNumber == FormatPhoneNumber(value)
    {
      phoneNumber := FormatPhoneNumber(value);
    }

    /** `handleNext`: hands the formatted number to `onNext` only with exactly eleven digits and the form enabled. */
    method HandleNext(disabled: bool) returns (submitted: Option<string>)
      ensures submitted.Some? <==> |Digits(phoneNumber)| == 11 && !disabled
      ensures submitted.Some? ==> submitted.value == phoneNumber
    {
      var numbers := Digits(phoneNumber);
      if |numbers| == 11 && !disabled {
        submitted := Some(phoneNumber);
      } else {
        submitted := None;
      }
    }
  }
}
