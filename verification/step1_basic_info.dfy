/** The account screen (src/components/signup/Step1BasicInfo.tsx): four fields
    typed straight into the draft, and a "continue" that checks them in order. */
module Step1BasicInfo {
  import opened Wrappers
  import opened Text
  import opened SignupData
  import opened SignupContext

  /** The four inputs of the form. */
  datatype Input = NameInput | BrandNameInput | EmailInput | PasswordInput

  function FieldOf(input: Input): Field {
    match input
    case NameInput => NameField
    case BrandNameInput => BrandNameField
    case EmailInput => EmailField
    case PasswordInput => PasswordField
  }

  function PatchFor(input: Input, text: string): (p: Patch)
    ensures Mentioned(p) == {FieldOf(input)}
    ensures PatchGet(p, FieldOf(input)) == Some(Text(text))
  {
    var p := match input
      case NameInput => NoChange.(name := Some(text))
      case BrandNameInput => NoChange.(brandName := Some(text))
      case EmailInput => NoChange.(email := Some(text))
      case PasswordInput => NoChange.(password := Some(text));
    assert forall f :: PatchGet(p, f).Some? <==> f == FieldOf(input);
    p
  }

  /** Each input's `onChange`: the draft field takes the typed text at once. */
  function Edit(s: State, input: Input, text: string): (r: State)
    ensures Get(r.signupData, FieldOf(input)) == Text(text)
    ensures OnlyChanged(s.signupData, r.signupData, {FieldOf(input)})
    ensures r.currentStep == s.currentStep && r.completedSteps == s.completedSteps
  {
    UpdateSignupData(s, PatchFor(input, text))
  }

  datatype SubmitError =
    | MissingField     // "Please fill in all fields"
    | ShortPassword    // "Password must be at least 8 characters"
    | InvalidEmail     // "Please enter a valid email"

  /** `handleSubmit`, once the simulated request has answered: all four fields
      filled, then a password of at least 8 UTF-16 code units (`length`), then an e-mail of the form
      `local@host.suffix`; on success the wizard moves to step 2 and nothing is
      written. */
  function Submit(s: State): (r: Result<State, SubmitError>)
    ensures r == Err(MissingField) <==>
      s.signupData.name == "" || s.signupData.brandName == "" || s.signupData.email == "" || s.signupData.password == ""
    ensures r.Ok? ==> r.value == SetCurrentStep(s, 2)
  {
    var d := s.signupData;
    if d.name == "" || d.brandName == "" || d.email == "" || d.password == "" then Err(MissingField)
    else if Units(d.password) < 8 then Err(ShortPassword)
    else if !IsValidEmail(d.email) then Err(InvalidEmail)
    else Ok(SetCurrentStep(s, 2))
  }

  /** "Continue" succeeds exactly when every field is filled, the password is at
      least 8 code units long and the e-mail matches `/^[^\s@]+@[^\s@]+\.[^\s@]+$/`. */
  lemma SubmitAcceptsExactly(s: State)
    ensures Submit(s).Ok? <==>
      && s.signupData.name != "" && s.signupData.brandName != ""
      && Units(s.signupData.password) >= 8 && EmailPattern(s.signupData.email)
  {
    IsValidEmailMatchesPattern(s.signupData.email);
  }

  /** A failed "continue" reports the first rule broken, in the order the screen checks them. */
  lemma SubmitReportsFirstProblem(s: State)
    ensures Submit(s) == Err(ShortPassword) <==>
      && s.signupData.name != "" && s.signupData.brandName != "" && s.signupData.email != ""
      && s.signupData.password != "" && Units(s.signupData.password) < 8
    ensures Submit(s) == Err(InvalidEmail) <==>
      && s.signupData.name != "" && s.signupData.brandName != "" && s.signupData.email != ""
      && Units(s.signupData.password) >= 8 && !EmailPattern(s.signupData.email)
  {
    IsValidEmailMatchesPattern(s.signupData.email);
  }
}
