/** The last password-reset screen (src/components/forgotPassword/ResetPassword.tsx):
    a new password typed twice. The e-mail and reset token it receives are not used. */
module ResetPassword {
  import opened Wrappers
  import opened Text

  datatype ResetError =
    | MissingField   // "Please fill in all fields"
    | ShortPassword  // "Password must be at least 8 characters"
    | Mismatch       // "Passwords do not match"

  /** Where an accepted reset leads. */
  datatype Outcome = GoToLogin

  /** `handleSubmit`, once the simulated request has answered: both fields filled,
      then a password `length` of at least 8 UTF-16 code units, then the two equal; the page then leaves for the
      login page. */
  function Submit(password: string, confirmPassword: string): (r: Result<Outcome, ResetError>)
    ensures r == Err(MissingField) <==> password == "" || confirmPassword == ""
    ensures r == Err(ShortPassword) <==> password != "" && confirmPassword != "" && Units(password) < 8
    ensures r == Err(Mismatch) <==> confirmPassword != "" && Units(password) >= 8 && password != confirmPassword
  {
    if password == "" || confirmPassword == "" then Err(MissingField)
    else if Units(password) < 8 then Err(ShortPassword)
    else if password != confirmPassword then Err(Mismatch)
    else Ok(GoToLogin)
  }

  /** A reset is accepted exactly when the password is at least 8 code units long and the
      confirmation repeats it. */
  lemma SubmitAcceptsExactly(password: string, confirmPassword: string)
    ensures Submit(password, confirmPassword).Ok? <==> Units(password) >= 8 && confirmPassword == password
  {
  }
}
