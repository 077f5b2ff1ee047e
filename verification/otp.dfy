/** The six-box code entry and the resend countdown that the e-mail verification
    screen (src/components/signup/Step2VerifyOTP.tsx) and the password-reset code
    screen (src/components/forgotPassword/VerifyResetOTP.tsx) share line for line.
    Focus movement between the boxes is not modelled. */
module Otp {
  import opened Wrappers
  import opened Text

  const SlotCount: nat := 6
  /** The only code the demo back end accepts. */
  const DemoCode: string := "123456"
  /** Seconds before a new code may be requested. */
  const ResendSeconds: nat := 60

  // ---------------------------------------------------------------------------
  // The six boxes
  // ---------------------------------------------------------------------------

  /** Six boxes, each empty or holding one digit. */
  predicate ValidSlots(slots: seq<string>) {
    |slots| == SlotCount && forall k :: 0 <= k < |slots| ==> |slots[k]| <= 1 && AllDigits(slots[k])
  }

  /** `otp.join('')` */
  function Join(slots: seq<string>): string {
    if slots == [] then "" else slots[0] + Join(slots[1..])
  }

  /** `['', '', '', '', '', '']` */
  function EmptySlots(): (r: seq<string>)
    ensures ValidSlots(r)
    ensures Join(r) == ""
  {
    ["", "", "", "", "", ""]
  }

  /** `handleOtpChange(index, value)`: text that is not all digits is ignored;
      otherwise the box keeps the last character typed (or becomes empty). */
  function EditSlot(slots: seq<string>, index: nat, value: string): (r: seq<string>)
    requires index < |slots|
    ensures !AllDigits(value) ==> r == slots
    ensures AllDigits(value) ==> |r| == |slots| && r[index] == Last(value)
    ensures forall k :: 0 <= k < |slots| && k != index ==> r[k] == slots[k]
  {
    if value != "" && !AllDigits(value) then slots
    else slots[index := Last(value)]
  }

  /** An edit never puts more than one digit, or anything but digits, in a box. */
  lemma EditSlotKeepsValid(slots: seq<string>, index: nat, value: string)
    requires ValidSlots(slots) && index < |slots|
    ensures ValidSlots(EditSlot(slots, index, value))
  {
    var r := EditSlot(slots, index, value);
    if AllDigits(value) && value != "" {
      assert r[index] == [value[|value| - 1]];
    }
  }

  /** `handlePaste`: the digits among the first six pasted UTF-16 code units fill
      the boxes from the left; the remaining boxes keep what they held. (A pair cut
      in half at the sixth unit leaves a lone surrogate, which the digit filter
      drops, so cutting at whole characters gives the same digits.) */
  method Paste(slots: seq<string>, clipboard: string) returns (r: seq<string>)
    requires |slots| == SlotCount
    ensures |r| == |slots|
    ensures forall k :: 0 <= k < |Digits(TakeUnits(clipboard, SlotCount))| ==> r[k] == [Digits(TakeUnits(clipboard, SlotCount))[k]]
    ensures forall k :: |Digits(TakeUnits(clipboard, SlotCount))| <= k < |r| ==> r[k] == slots[k]
    ensures ValidSlots(slots) ==> ValidSlots(r)
  {
    var pasted := Digits(TakeUnits(clipboard, SlotCount));
    r := slots;
    if pasted != "" {
      var i := 0;
      while i < |pasted|
        invariant 0 <= i <= |pasted|
        invariant |r| == |slots|
        invariant forall k :: 0 <= k < i ==> r[k] == [pasted[k]]
        invariant forall k :: i <= k < |r| ==> r[k] == slots[k]
      {
        if i < SlotCount {
          r := r[i := [pasted[i]]];
        }
        i := i + 1;
      }
    }
    assert forall k :: 0 <= k < |pasted| ==> IsDigit(r[k][0]);
  }

  /** The joined boxes are as long as the number of filled boxes allows. */
  lemma {:induction false} JoinLength(slots: seq<string>)
    requires forall k :: 0 <= k < |slots| ==> |slots[k]| <= 1
    ensures |Join(slots)| <= |slots|
    ensures |Join(slots)| == |slots| <==> forall k :: 0 <= k < |slots| ==> |slots[k]| == 1
  {
    if slots != [] {
      JoinLength(slots[1..]);
      if forall k :: 0 <= k < |slots[1..]| ==> |slots[1..][k]| == 1 {
        if |slots[0]| == 1 {
          forall k | 0 <= k < |slots| ensures |slots[k]| == 1 {
            if k > 0 { assert slots[k] == slots[1..][k - 1]; }
          }
        }
      } else {
        var k :| 0 <= k < |slots[1..]| && |slots[1..][k]| != 1;
        assert slots[k + 1] == slots[1..][k];
      }
    }
  }

  /** Boxes holding one character each join to the string of those characters. */
  lemma {:induction false} JoinSingletons(slots: seq<string>, s: string)
    requires |slots| == |s|
    requires forall k :: 0 <= k < |s| ==> slots[k] == [s[k]]
    ensures Join(slots) == s
  {
    if s != [] {
      JoinSingletons(slots[1..], s[1..]);
      assert s == [s[0]] + s[1..];
    }
  }

  /** Boxes holding only digits join to a string of digits. */
  lemma {:induction false} JoinOfDigits(slots: seq<string>)
    requires forall k :: 0 <= k < |slots| ==> AllDigits(slots[k])
    ensures AllDigits(Join(slots))
  {
    if slots != [] {
      assert forall k :: 0 <= k < |slots[1..]| ==> slots[1..][k] == slots[k + 1];
      JoinOfDigits(slots[1..]);
      var j := Join(slots);
      forall i | 0 <= i < |j| ensures IsDigit(j[i]) {
        if i < |slots[0]| {
          assert j[i] == slots[0][i];
        } else {
          assert j[i] == Join(slots[1..])[i - |slots[0]|];
        }
      }
    }
  }

  /** The code is complete exactly when every box holds a digit; its `length` is
      then its number of digits. */
  lemma CompleteIffAllFilled(slots: seq<string>)
    requires ValidSlots(slots)
    ensures Units(Join(slots)) == |Join(slots)|
    ensures Units(Join(slots)) == SlotCount <==> forall k :: 0 <= k < |slots| ==> |slots[k]| == 1
  {
    JoinLength(slots);
    JoinOfDigits(slots);
    DigitsAreSingleUnits(Join(slots));
  }

  datatype VerifyError =
    | IncompleteCode  // "Please enter a valid 6-digit code"
    | WrongCode       // "Invalid verification code"

  /** `handleVerify` once the simulated request has answered: the joined code must
      be six code units long and then equal the demo code. */
  function CheckCode(slots: seq<string>): (r: Result<string, VerifyError>)
    ensures r.Ok? <==> Join(slots) == DemoCode
    ensures r.Ok? ==> r.value == DemoCode
    ensures r == Err(IncompleteCode) <==> Units(Join(slots)) != SlotCount
  {
    var code := Join(slots);
    assert Units(DemoCode) == 6 by { DigitsAreSingleUnits(DemoCode); }
    if Units(code) != 6 then Err(IncompleteCode)
    else if code == "123456" then Ok(code)
    else Err(WrongCode)
  }

  /** Typing (or pasting) the demo code digit by digit is accepted. */
  lemma DemoDigitsAccepted(slots: seq<string>)
    requires |slots| == SlotCount
    requires forall k :: 0 <= k < SlotCount ==> slots[k] == [DemoCode[k]]
    ensures CheckCode(slots) == Ok(DemoCode)
  {
    JoinSingletons(slots, DemoCode);
  }

  /** A box left empty makes the code incomplete, whatever the others hold. */
  lemma EmptyBoxIsIncomplete(slots: seq<string>, k: nat)
    requires ValidSlots(slots) && k < |slots| && slots[k] == ""
    ensures CheckCode(slots) == Err(IncompleteCode)
  {
    CompleteIffAllFilled(slots);
  }

  // ---------------------------------------------------------------------------
  // The resend countdown
  // ---------------------------------------------------------------------------

  datatype Countdown = Countdown(timeLeft: nat, canResend: bool)

  /** The countdown as the screen mounts: 60 seconds, resend disabled. */
  const Started: Countdown := Countdown(ResendSeconds, false)

  /** Resend is enabled exactly when the countdown has run out. */
  predicate Settled(c: Countdown) {
    c.canResend <==> c.timeLeft == 0
  }

  /** One second passing: the timer effect lowers `timeLeft`, and the effect that runs
      when it reaches 0 enables resend. Once at 0 nothing changes. */
  function Tick(c: Countdown): (r: Countdown)
    ensures c.timeLeft > 0 ==> r.timeLeft == c.timeLeft - 1
    ensures c.timeLeft == 0 ==> r == c
    ensures Settled(c) ==> Settled(r)
  {
    if c.timeLeft > 0 then
      var next := c.(timeLeft := c.timeLeft - 1);
      if next.timeLeft == 0 then next.(canResend := true) else next
    else c
  }

  function Ticks(c: Countdown, n: nat): Countdown {
    if n == 0 then c else Tick(Ticks(c, n - 1))
  }

  /** `handleResendOtp`: ignored while disabled, otherwise the countdown restarts. */
  function Resend(c: Countdown): (r: Countdown)
    ensures !c.canResend ==> r == c
    ensures c.canResend ==> r == Started
    ensures Settled(c) ==> Settled(r)
  {
    if !c.canResend then c else Countdown(ResendSeconds, false)
  }

  /** After `n` seconds from the start, `max(60 - n, 0)` seconds remain, and resend is
      enabled exactly from the sixtieth second on. */
  lemma {:induction false} TicksFromStart(n: nat)
    ensures Ticks(Started, n).timeLeft == if n < ResendSeconds then ResendSeconds - n else 0
    ensures Ticks(Started, n).canResend <==> n >= ResendSeconds
  {
    if n > 0 {
      TicksFromStart(n - 1);
    }
  }

  /** A resend is possible only after a full minute, and it restarts the wait. */
  lemma ResendWaitsAMinute(n: nat, m: nat)
    ensures Resend(Ticks(Started, n)) != Ticks(Started, n) <==> n >= ResendSeconds
    ensures n >= ResendSeconds ==> (Ticks(Resend(Ticks(Started, n)), m).canResend <==> m >= ResendSeconds)
  {
    TicksFromStart(n);
    TicksFromStart(m);
  }
}
