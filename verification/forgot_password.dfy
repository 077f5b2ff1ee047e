/** The password-reset page (src/pages/ForgotPassword.tsx): three screens in turn,
    sharing the e-mail entered on the first and the code accepted on the second. */
module ForgotPassword {
  import opened Text
  import Otp

  datatype FlowStep = RequestStep | VerifyStep | ResetStep

  /** The page's three pieces of state: `currentStep`, `email`, `resetToken`. */
  datatype Flow = Flow(step: FlowStep, email: string, resetToken: string)

  /** The page as it opens: the request screen, nothing entered. */
  const Start: Flow := Flow(RequestStep, "", "")

  /** What the page holds on each screen: past the request screen the e-mail has
      passed the e-mail check, and on the reset screen the token is the accepted code. */
  predicate Consistent(f: Flow) {
    && (f.step != RequestStep ==> IsValidEmail(f.email))
    && (f.step == ResetStep ==> f.resetToken == Otp.DemoCode)
  }

  lemma StartConsistent()
    ensures Consistent(Start)
  {
  }
}
