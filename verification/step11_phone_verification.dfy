/** The phone screen (src/components/signup/Step11PhoneVerification.tsx): a country
    code and number, a text code sent to the phone, and a "continue" that also
    sends the code when none has been sent yet. */
module Step11PhoneVerification {
  import opened Wrappers
  import opened Text
  import opened SignupData
  import opened SignupContext

  /** The country codes the drop-down offers. */
  const CountryCodes: seq<string> :=
    ["+1", "+44", "+61", "+33", "+49", "+81", "+86", "+91", "+55", "+52", "+39", "+34"]

  /** The code the demo back end accepts. */
  const DemoCode: string := "123456"

  /** The screen's own state; `showOtp` is `showOTPInput`. */
  datatype Local = Local(phoneNumber: string, countryCode: string, showOtp: bool, otp: string)

  /** The saved number and country code ("+1" when none is saved); the code box is
      open from the start when the phone is already verified. */
  function Mount(s: State): (l: Local)
    ensures l.phoneNumber == s.signupData.phoneNumber && l.otp == ""
    ensures l.countryCode == (if s.signupData.countryCode == "" then "+1" else s.signupData.countryCode)
    ensures l.showOtp == s.signupData.phoneVerified
  {
    var d := s.signupData;
    Local(d.phoneNumber, if d.countryCode != "" then d.countryCode else "+1", d.phoneVerified, "")
  }

  /** The number and country inputs are disabled while the code box is open. */
  function SetPhoneNumber(l: Local, text: string): (r: Local)
    ensures l.showOtp ==> r == l
    ensures !l.showOtp ==> r.phoneNumber == text && r.countryCode == l.countryCode && r.otp == l.otp && !r.showOtp
  {
    if l.showOtp then l else l.(phoneNumber := text)
  }

  function SetCountryCode(l: Local, code: string): (r: Local)
    ensures l.showOtp ==> r == l
    ensures !l.showOtp ==> r.countryCode == code && r.phoneNumber == l.phoneNumber && r.otp == l.otp && !r.showOtp
  {
    if l.showOtp then l else l.(countryCode := code)
  }

  /** The six-slot code box (`maxLength={6}`) keeps the longest prefix of at most
      six code units. */
  function SetOtp(l: Local, text: string): (r: Local)
    ensures Units(r.otp) <= 6 && r.otp <= text
    ensures Units(text) <= 6 ==> r.otp == text
    ensures r.phoneNumber == l.phoneNumber && r.countryCode == l.countryCode && r.showOtp == l.showOtp
  {
    l.(otp := TakeUnits(text, 6))
  }

  datatype SendError = PhoneRequired  // "Phone number required"

  /** `handleSendCode`, once the simulated request has answered: a number is needed;
      the code box opens. */
  function SendCode(l: Local): (r: Result<Local, SendError>)
    ensures r.Err? <==> l.phoneNumber == ""
    ensures r.Ok? ==> r.value == l.(showOtp := true)
  {
    if l.phoneNumber == "" then Err(PhoneRequired) else Ok(l.(showOtp := true))
  }

  datatype VerifyError =
    | ShortCode  // "Invalid code" / "Please enter the 6-digit code"
    | WrongCode  // "Invalid code" / "For this demo, use code 123456"

  /** The fields the screen writes. */
  function PhonePatch(l: Local, verified: Option<bool>): (p: Patch)
    ensures Mentioned(p) == {PhoneNumberField, CountryCodeField} + (if verified.Some? then {PhoneVerifiedField} else {})
    ensures p.phoneNumber == Some(l.phoneNumber) && p.countryCode == Some(l.countryCode)
    ensures p.phoneVerified == verified
  {
    var p := NoChange.(phoneNumber := Some(l.phoneNumber), countryCode := Some(l.countryCode), phoneVerified := verified);
    assert forall f :: PatchGet(p, f).Some? <==>
      (f == PhoneNumberField || f == CountryCodeField || (f == PhoneVerifiedField && verified.Some?));
    p
  }

  /** `handleVerifyCode`, once the simulated request has answered: a six-character
      code equal to the demo code saves the number and country and marks the phone
      verified; the wizard stays on this step. */
  function VerifyCode(s: State, l: Local): (r: Result<State, VerifyError>)
    ensures r == Err(ShortCode) <==> Units(l.otp) != 6
    ensures r.Ok? <==> l.otp == DemoCode
    ensures r.Ok? ==> r.value.signupData.phoneVerified && r.value.currentStep == s.currentStep
    ensures r.Ok? ==> r.value.signupData.phoneNumber == l.phoneNumber && r.value.signupData.countryCode == l.countryCode
    ensures r.Ok? ==> OnlyChanged(s.signupData, r.value.signupData, {PhoneNumberField, CountryCodeField, PhoneVerifiedField})
  {
    if Units(l.otp) != 6 then Err(ShortCode)
    else if l.otp != "123456" then Err(WrongCode)
    else Ok(UpdateSignupData(s, PhonePatch(l, Some(true))))
  }

  /** What "continue" can lead to: the code is sent (only the screen changes), or the
      wizard moves on. */
  datatype Outcome = CodeSent(local: Local) | Continued(state: State)

  datatype SubmitError =
    | NoPhone               // "Phone number required", from the code sending
    | VerificationRequired  // "Verification required"

  /** `handleSubmit` as written: with an unverified phone and no code box it sends
      the code; with the box open it only asks for six characters in it; then the
      number and country are saved and the wizard moves to step 12. */
  function Submit(s: State, l: Local): (r: Result<Outcome, SubmitError>)
    ensures r == Err(NoPhone) <==> !s.signupData.phoneVerified && !l.showOtp && l.phoneNumber == ""
    ensures r.Ok? && r.value.CodeSent? <==> !s.signupData.phoneVerified && !l.showOtp && l.phoneNumber != ""
    ensures r == Err(VerificationRequired) <==> l.showOtp && Units(l.otp) != 6
    ensures r.Ok? && r.value.CodeSent? ==> r.value.local == l.(showOtp := true)
    ensures r.Ok? && r.value.Continued? ==>
      var t := r.value.state;
      && t.currentStep == 12 && t.completedSteps == s.completedSteps
      && t.signupData.phoneNumber == l.phoneNumber && t.signupData.countryCode == l.countryCode
      && OnlyChanged(s.signupData, t.signupData, {PhoneNumberField, CountryCodeField})
  {
    if !s.signupData.phoneVerified && !l.showOtp then
      match SendCode(l)
      case Err(_) => Err(NoPhone)
      case Ok(withBox) => Ok(CodeSent(withBox))
    else if l.showOtp && Units(l.otp) != 6 then Err(VerificationRequired)
    else Ok(Continued(Advance(s, PhonePatch(l, None), 12)))
  }

  /** As written, "continue" accepts any six characters in the code box: a wrong code
      that was never verified still moves the wizard on, with the phone unverified. */
  lemma WrongCodeStillContinues()
    ensures
      var s := Fresh();
      var l := Local("5550100", "+1", true, "000000");
      VerifyCode(s, l) == Err(WrongCode) &&
      Submit(s, l).Ok? && Submit(s, l).value.Continued? &&
      Submit(s, l).value.state.currentStep == 12 && !Submit(s, l).value.state.signupData.phoneVerified
  {
  }

  /** As written, a user who verified the phone and comes back to this screen finds
      the code box open and empty, and cannot continue without typing six characters
      into it again. */
  lemma VerifiedUserMustRetypeCode(s: State)
    requires s.signupData.phoneVerified
    ensures Submit(s, Mount(s)) == Err(VerificationRequired)
  {
  }

  /** "Continue" as its message intends: with an unverified phone and no code box it
      sends the code, with an unverified phone and the box open it refuses, and only
      a verified phone moves the wizard to step 12. */
  function SubmitVerified(s: State, l: Local): (r: Result<Outcome, SubmitError>)
    ensures r.Ok? && r.value.Continued? <==> s.signupData.phoneVerified
    ensures r == Err(VerificationRequired) <==> !s.signupData.phoneVerified && l.showOtp
    ensures r.Ok? && r.value.Continued? ==>
      var t := r.value.state;
      && t.currentStep == 12 && t.signupData.phoneVerified
      && t.signupData.phoneNumber == l.phoneNumber && t.signupData.countryCode == l.countryCode
      && OnlyChanged(s.signupData, t.signupData, {PhoneNumberField, CountryCodeField})
  {
    if !s.signupData.phoneVerified && !l.showOtp then
      match SendCode(l)
      case Err(_) => Err(NoPhone)
      case Ok(withBox) => Ok(CodeSent(withBox))
    else if !s.signupData.phoneVerified then Err(VerificationRequired)
    else Ok(Continued(Advance(s, PhonePatch(l, None), 12)))
  }

  /** With the intended check, sending, verifying with the demo code and continuing
      reaches step 12 with a verified phone, and no other code gets there. */
  lemma IntendedFlow(s: State, l: Local)
    requires !s.signupData.phoneVerified && l.phoneNumber != "" && !l.showOtp
    ensures SubmitVerified(s, l) == Ok(CodeSent(l.(showOtp := true)))
    ensures SubmitVerified(s, l.(showOtp := true)) == Err(VerificationRequired)
    ensures var withBox := l.(showOtp := true, otp := DemoCode);
      VerifyCode(s, withBox).Ok? && SubmitVerified(VerifyCode(s, withBox).value, withBox).Ok?
      && SubmitVerified(VerifyCode(s, withBox).value, withBox).value.Continued?
  {
  }

  /** `handleGoBack`: the number and country are saved and the wizard moves to step 10. */
  function Back(s: State, l: Local): (r: State)
    ensures r.currentStep == 10 && r.completedSteps == s.completedSteps
    ensures r.signupData.phoneNumber == l.phoneNumber && r.signupData.countryCode == l.countryCode
    ensures OnlyChanged(s.signupData, r.signupData, {PhoneNumberField, CountryCodeField})
  {
    Advance(s, PhonePatch(l, None), 10)
  }
}
