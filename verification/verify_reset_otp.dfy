/** The second password-reset screen (src/components/forgotPassword/VerifyResetOTP.tsx):
    the same six boxes and countdown as the sign-up code screen; the accepted code
    becomes the reset token. */
module VerifyResetOtp {
  import opened Wrappers
  import opened Otp
  import opened Text
  import opened ForgotPassword

  /** `handleVerify`, once the simulated request has answered: the demo code is
      stored as the reset token and the page moves to the reset screen. */
  function Verify(f: Flow, slots: seq<string>): (r: Result<Flow, VerifyError>)
    ensures r.Ok? <==> Join(slots) == DemoCode
    ensures r == Err(IncompleteCode) <==> Units(Join(slots)) != SlotCount
    ensures r.Ok? ==> r.value == f.(step := ResetStep, resetToken := DemoCode)
  {
    match CheckCode(slots)
    case Err(e) => Err(e)
    case Ok(code) => Ok(f.(step := ResetStep, resetToken := code))
  }

  /** `handleGoBack`: back to the request screen; the stored e-mail is kept. */
  function Back(f: Flow): (r: Flow)
    ensures r.step == RequestStep && r.email == f.email && r.resetToken == f.resetToken
  {
    f.(step := RequestStep)
  }

  lemma TransitionsKeepConsistent(f: Flow, slots: seq<string>)
    requires Consistent(f) && f.step == VerifyStep
    ensures Verify(f, slots).Ok? ==> Consistent(Verify(f, slots).value)
    ensures Consistent(Back(f))
  {
  }
}
