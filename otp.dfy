/**
 * The one-time-code screen (app/auth/otp.tsx): six single-character
 * inputs, the focus moves between them, the completeness check on
 * "Verify OTP" and the 30-second resend cool-down, one tick per second.
 */
module Otp {
  import opened Wrappers
  import opened JsString
  import opened Ui

  const Slots := 6
  const ResendSeconds := 30
  const Incomplete := "Please enter complete OTP"

  /** `parts.join('')`. */
  function Join(parts: seq<string>): (r: string)
    ensures r == "" <==> forall i :: 0 <= i < |parts| ==> parts[i] == ""
  {
    if parts == [] then ""
    else
      assert forall i :: 1 <= i < |parts| ==> parts[1..][i - 1] == parts[i];
      parts[0] + Join(parts[1..])
  }

  /**
   * When every slot holds at most one code unit (each input has `maxLength`
   * 1), the joined code is at most one unit per slot, and exactly that long
   * when no slot is empty.
   */
  lemma {:induction false} JoinedLength(parts: seq<string>)
    requires forall i :: 0 <= i < |parts| ==> Utf16Length(parts[i]) <= 1
    ensures Utf16Length(Join(parts)) <= |parts|
    ensures Utf16Length(Join(parts)) == |parts| <==> forall i :: 0 <= i < |parts| ==> parts[i] != ""
  {
    if parts != [] {
      Utf16LengthAppend(parts[0], Join(parts[1..]));
      JoinedLength(parts[1..]);
      assert forall i :: 1 <= i < |parts| ==> parts[1..][i - 1] == parts[i];
    }
  }

  /** One second of the cool-down: the interval only runs while the timer is positive. */
  function Tick(timer: int): (t: int)
    ensures timer > 0 ==> t == timer - 1
    ensures timer <= 0 ==> t == timer
    ensures 0 <= timer ==> 0 <= t <= timer
  {
    if timer > 0 then timer - 1 else timer
  }

  function AfterTicks(timer: int, n: nat): int {
    if n == 0 then timer else AfterTicks(Tick(timer), n - 1)
  }

  /** `n` seconds take the timer down by `n`, but never below zero. */
  lemma {:induction false} AfterTicksFloor(timer: nat, n: nat)
    ensures AfterTicks(timer, n) == if n <= timer then timer - n else 0
  {
    if n > 0 {
      AfterTicksFloor(Tick(timer), n - 1);
    }
  }

  class OtpScreen {
    var otp: array<string>
    var timer: int
    /** The input the handlers last moved focus to, if any. */
    var focusRequest: Option<nat>

    ghost predicate Valid()
      reads this, otp
    {
      && otp.Length == Slots
      && 0 <= timer <= ResendSeconds
      && (forall i :: 0 <= i < Slots ==> Utf16Length(otp[i]) <= 1)
      && (focusRequest.Some? ==> focusRequest.value < Slots)
    }

    constructor ()
      ensures Valid() && fresh(otp)
      ensures otp[..] == ["", "", "", "", "", ""] && timer == ResendSeconds && focusRequest == None
      ensures ResendDisabled()
    {
      otp := new string[Slots](_ => "");
      timer := ResendSeconds;
      focusRequest := None;
    }

    /**
     * `handleOTPChange(value, index)`: a copy of the slots with slot `index`
     * set to `value` replaces the old ones; a non-empty value moves focus to
     * the next input, if there is one.
     */
    method HandleOtpChange(value: string, index: nat)
      requires Valid() && index < Slots && Utf16Length(value) <= 1
      modifies this`otp, this`focusRequest
      ensures Valid() && fresh(otp)
      ensures otp[..] == old(otp[..])[index := value]
      ensures timer == old(timer)
      ensures focusRequest == if value != "" && index < Slots - 1 then Some(index + 1) else old(focusRequest)
    {
      var newOtp := new string[Slots];
      var i := 0;
      while i < Slots
        invariant 0 <= i <= Slots && otp.Length == Slots
        invariant forall j :: 0 <= j < i ==> newOtp[j] == otp[j]
        modifies newOtp
      {
        newOtp[i] := otp[i];
        i := i + 1;
      }
      newOtp[index] := value;
      assert newOtp[..] == old(otp[..])[index := value];
      otp := newOtp;
      if value != "" && index < Slots - 1 {
        focusRequest := Some(index + 1);
      }
    }

    /** `handleBackspace(index)`: on an empty input, focus moves back one, unless this is the first. */
    method HandleBackspace(index: nat)
      requires Valid() && index < Slots
      modifies this`focusRequest
      ensures Valid()
      ensures focusRequest == if index > 0 && otp[index] == "" then Some(index - 1) else old(focusRequest)
    {
      if index > 0 && otp[index] == "" {
        focusRequest := Some(index - 1);
      }
    }

    /** `handleVerifyOTP`: goes on to the main tabs exactly when all six slots are filled. */
    method HandleVerifyOtp() returns (route: Option<Route>, alert: Option<Alert>)
      requires Valid()
      ensures route.Some? <==> forall i :: 0 <= i < Slots ==> otp[i] != ""
      ensures route.Some? ==> route.value == MainTabs && alert.None?
      ensures route.None? ==> alert == Some(Alert("Error", Incomplete))
    {
      var joined := Join(otp[..]);
      JoinedLength(otp[..]);
      if Utf16Length(joined) < Slots {
        route, alert := None, Some(Alert("Error", Incomplete));
        return;
      }
      route, alert := Some(MainTabs), None;
    }

    /** One firing of the one-second interval of the effect on `timer`. */
    method TickTimer()
      requires Valid()
      modifies this`timer
      ensures Valid() && timer == Tick(old(timer))
    {
      if timer > 0 {
        timer := timer - 1;
      }
    }

    /** Whether the resend button is disabled. */
    function ResendDisabled(): (b: bool)
      reads this
      ensures b <==> timer > 0
    {
      timer > 0
    }

    /** `handleResendOTP`: only once the cool-down is over, and then it starts again. */
    method HandleResendOtp() returns (alert: Option<Alert>)
      requires Valid()
      modifies this`timer
      ensures Valid()
      ensures old(timer) == 0 ==> timer == ResendSeconds && alert == Some(Alert("Success", "OTP has been resent"))
      ensures old(timer) != 0 ==> timer == old(timer) && alert.None?
      ensures old(ResendDisabled()) <==> alert.None? && timer == old(timer)
    {
      alert := None;
      if timer == 0 {
        timer := ResendSeconds;
        alert := Some(Alert("Success", "OTP has been resent"));
      }
    }
  }
}
