/**
 * The five-slot code entry of src/components/signup/Verificationcodeinput.tsx:
 * one digit per slot, a 180-second countdown, submission of the joined code
 * and a resend that starts over.
 */
module VerificationCode {
  import opened Wrappers
  import opened TimeText

  const Slots: nat := 5
  const InitialTimeLeft: nat := 180

  function EmptyCode(): (c: seq<string>)
    ensures |c| == Slots && forall i | 0 <= i < |c| :: c[i] == ""
  {
    seq(Slots, _ => "")
  }

  /** `value.slice(-1)`: the last character, or "" for an empty value. */
  function LastChar(value: string): (r: string)
    ensures |r| <= 1
    ensures value != "" ==> r == [value[|value| - 1]]
    ensures value == "" ==> r == ""
  {
    if value == "" then "" else value[|value| - 1..]
  }

  /** `code.join("")`. */
  function Join(code: seq<string>): string {
    if code == [] then "" else code[0] + Join(code[1..])
  }

  /** Every slot holds at most one digit. */
  predicate WellFormedSlots(code: seq<string>) {
    forall i | 0 <= i < |code| :: |code[i]| <= 1 && AllDigits(code[i])
  }

  /** With slots of at most one character, the joined code is as long as the number of filled slots. */
  lemma {:induction false} JoinLength(code: seq<string>)
    requires WellFormedSlots(code)
    ensures |Join(code)| <= |code|
    ensures |Join(code)| == |code| <==> forall i | 0 <= i < |code| :: code[i] != ""
  {
    if code != [] {
      JoinLength(code[1..]);
      assert forall i | 1 <= i < |code| :: code[i] == code[1..][i - 1];
    }
  }

  /** The submit button's `disabled` condition. */
  predicate SubmitDisabled(isVerifying: bool, disabled: bool, code: seq<string>, timeLeft: int) {
    isVerifying || disabled || (exists i | 0 <= i < |code| :: code[i] == "") || timeLeft <= 0
  }

  class CodeInput {
    var code: seq<string>
    var timeLeft: int
    var isVerifying: bool

    ghost predicate Valid()
      reads this
    {
      |code| == Slots && WellFormedSlots(code) && 0 <= timeLeft <= InitialTimeLeft
    }

    constructor ()
      ensures Valid()
      ensures code == EmptyCode() && timeLeft == 180 && !isVerifying
    {
      code := EmptyCode();
      timeLeft := InitialTimeLeft;
      isVerifying := false;
    }

    /**
     * `handleChange(index, value)`: a value with a non-digit is ignored;
     * otherwise slot `index` takes the value's last character and the other
     * slots keep theirs.
     */
    method HandleChange(index: nat, value: string)
      requires Valid() && index < Slots
      modifies this
      ensures Valid()
      ensures !AllDigits(value) ==> code == old(code)
      ensures AllDigits(value) ==> code == old(code)[index := LastChar(value)]
      ensures timeLeft == old(timeLeft) && isVerifying == old(isVerifying)
    {
      if !AllDigits(value) {
        return;
      }
      var newCode := code;
      newCode := newCode[index := LastChar(value)];
      code := newCode;
    }

    /** One firing of the one-second interval, which runs only while time is left. */
    method Tick()
      requires Valid()
      modifies this
      ensures Valid()
      ensures timeLeft == if old(timeLeft) > 0 then old(timeLeft) - 1 else 0
      ensures code == old(code) && isVerifying == old(isVerifying)
    {
      if timeLeft > 0 {
        timeLeft := timeLeft - 1;
      }
    }

    /**
     * `verifyCode`: passes the joined code to `onNext` only when it has five
     * digits, i.e. every slot is filled. When `onNext` throws, `onError` is
     * called and the slots are emptied. The busy flag ends cleared.
     */
    method VerifyCode(onNextThrows: bool) returns (submitted: Option<string>, errorReported: bool)
      requires Valid()
      modifies this
      ensures Valid()
      ensures submitted.Some? <==> forall i | 0 <= i < Slots :: old(code)[i] != ""
      ensures submitted.Some? ==> submitted.value == Join(old(code)) && |submitted.value| == Slots
      ensures errorReported <==> submitted.Some? && onNextThrows
      ensures code == if errorReported then EmptyCode() else old(code)
      ensures submitted.Some? ==> !isVerifying
      ensures submitted.None? ==> isVerifying == old(isVerifying)
      ensures timeLeft == old(timeLeft)
    {
      var fullCode := Join(code);
      JoinLength(code);
      errorReported := false;
      if |fullCode| != 5 {
        submitted := None;
        return;
      }
      isVerifying := true;
      submitted := Some(fullCode);
      if onNextThrows {
        errorReported := true;
        code := EmptyCode();
      }
      isVerifying := false;
    }

    /** The effect on `code`: verification starts by itself once every slot is filled, unless busy or disabled. */
    method AutoVerify(disabled: bool, onNextThrows: bool) returns (submitted: Option<string>, errorReported: bool)
      requires Valid()
      modifies this
      ensures Valid()
      ensures submitted.Some? <==> (forall i | 0 <= i < Slots :: old(code)[i] != "") && !old(isVerifying) && !disabled
      ensures submitted.Some? ==> submitted.value == Join(old(code))
      ensures errorReported <==> submitted.Some? && onNextThrows
      ensures code == if errorReported then EmptyCode() else old(code)
      ensures isVerifying == (old(isVerifying) && submitted.None?)
      ensures timeLeft == old(timeLeft)
    {
      if (forall i | 0 <= i < Slots :: code[i] != "") && !isVerifying && !disabled {
        submitted, errorReported := VerifyCode(onNextThrows);
      } else {
        submitted, errorReported := None, false;
      }
    }

    /** `handleResend`: ignored when disabled; otherwise empty slots, a fresh 180 seconds and a call to `onResend`. */
    method HandleResend(disabled: bool) returns (resent: bool)
      requires Valid()
      modifies this
      ensures Valid()
      ensures resent <==> !disabled
      ensures disabled ==> code == old(code) && timeLeft == old(timeLeft)
      ensures !disabled ==> code == EmptyCode() && timeLeft == InitialTimeLeft
      ensures isVerifying == old(isVerifying)
    {
      if disabled {
        resent := false;
        return;
      }
      code := EmptyCode();
      timeLeft := InitialTimeLeft;
      resent := true;
    }

    /** The submit button is enabled only with every slot filled, time left, and neither busy nor disabled. */
    method CanSubmit(disabled: bool) returns (enabled: bool)
      requires Valid()
      ensures enabled ==> forall i | 0 <= i < Slots :: code[i] != ""
      ensures enabled <==> !isVerifying && !disabled && timeLeft > 0 && forall i | 0 <= i < Slots :: code[i] != ""
    {
      enabled := !SubmitDisabled(isVerifying, disabled, code, timeLeft);
    }

    /** The button label's countdown text: `MM:SS` of the seconds left. */
    method TimeLabel() returns (text: string)
      requires Valid()
      ensures |text| == 5 && text[2] == ':' && AllDigits(text[..2]) && AllDigits(text[3..])
      ensures ParseDecimal(text[..2]) * 60 + ParseDecimal(text[3..]) == timeLeft
    {
      text := MinSec(timeLeft);
    }
  }
}
