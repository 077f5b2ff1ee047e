/** The first password-reset screen (src/components/forgotPassword/ForgotPasswordRequest.tsx):
    an e-mail address, checked and handed to the page. */
module ForgotPasswordRequest {
  import opened Wrappers
  import opened Text
  import opened ForgotPassword

  datatype SubmitError =
    | EmptyEmail    // "Please enter your email"
    | InvalidEmail  // "Please enter a valid email"

  /** `handleSubmit`, once the simulated request has answered: a non-empty address of
      the form `local@host.suffix` is stored on the page, which moves to the code
      screen. */
  function Submit(f: Flow, emailValue: string): (r: Result<Flow, SubmitError>)
    ensures r == Err(EmptyEmail) <==> emailValue == ""
    ensures r.Ok? <==> EmailPattern(emailValue)
    ensures r.Ok? ==> r.value == f.(step := VerifyStep, email := emailValue)
  {
    IsValidEmailMatchesPattern(emailValue);
    if emailValue == "" then Err(EmptyEmail)
    else if !IsValidEmail(emailValue) then Err(InvalidEmail)
    else Ok(f.(step := VerifyStep, email := emailValue))
  }

  lemma SubmitKeepsConsistent(f: Flow, emailValue: string)
    requires Consistent(f)
    ensures Submit(f, emailValue).Ok? ==> Consistent(Submit(f, emailValue).value)
  {
  }
}
