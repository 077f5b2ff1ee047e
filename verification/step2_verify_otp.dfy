/** The e-mail code screen (src/components/signup/Step2VerifyOTP.tsx): six boxes,
    a resend countdown, and a "verify" that accepts only the demo code. */
module Step2VerifyOtp {
  import opened Wrappers
  import opened SignupData
  import opened SignupContext
  import opened Otp
  import opened Text

  datatype Local = Local(slots: seq<string>, countdown: Countdown)

  /** Empty boxes and a fresh 60-second countdown. */
  function Mount(): (l: Local)
    ensures ValidSlots(l.slots) && Join(l.slots) == ""
    ensures l.countdown == Started
  {
    Local(EmptySlots(), Started)
  }

  /** `handleVerify`: on the demo code the draft is marked verified and the wizard
      moves to step 3; any other code is refused and nothing changes. */
  function Verify(s: State, l: Local): (r: Result<State, VerifyError>)
    ensures r.Ok? <==> Join(l.slots) == DemoCode
    ensures r == Err(IncompleteCode) <==> Units(Join(l.slots)) != SlotCount
    ensures r.Ok? ==> r.value.currentStep == 3 && r.value.signupData.isVerified
    ensures r.Ok? ==> r.value.completedSteps == s.completedSteps
    ensures r.Ok? ==> OnlyChanged(s.signupData, r.value.signupData, {IsVerifiedField})
  {
    match CheckCode(l.slots)
    case Err(e) => Err(e)
    case Ok(_) =>
      var p := NoChange.(isVerified := Some(true));
      assert forall f :: PatchGet(p, f).Some? <==> f == IsVerifiedField;
      Ok(Advance(s, p, 3))
  }

  /** `handleGoBack` */
  function Back(s: State): (r: State)
    ensures r.currentStep == 1 && r.signupData == s.signupData && r.completedSteps == s.completedSteps
  {
    SetCurrentStep(s, 1)
  }

  /** Nothing typed yet: "verify" is refused as incomplete. */
  lemma FreshScreenRefuses(s: State)
    ensures Verify(s, Mount()) == Err(IncompleteCode)
  {
  }

  /** Entering the demo code digit by digit verifies the e-mail. */
  lemma DemoCodeVerifies(s: State, slots: seq<string>)
    requires |slots| == SlotCount
    requires forall k :: 0 <= k < SlotCount ==> slots[k] == [DemoCode[k]]
    ensures Verify(s, Local(slots, Started)).Ok?
    ensures Verify(s, Local(slots, Started)).value.signupData.isVerified
  {
    DemoDigitsAccepted(slots);
  }
}
