/** The business industry screen (src/components/signup/Step3Industry.tsx): one of
    five cards, written to the draft on click. */
module Step3Industry {
  import opened Wrappers
  import opened SignupData
  import opened SignupContext

  /** `handleSelectIndustry`: the click is written to the draft at once. */
  function SelectIndustry(s: State, industry: Industry): (r: State)
    ensures r.signupData.industry == Some(industry)
    ensures r.currentStep == s.currentStep && r.completedSteps == s.completedSteps
    ensures OnlyChanged(s.signupData, r.signupData, {IndustryField})
  {
    var p := NoChange.(industry := Some(Some(industry)));
    assert forall f :: PatchGet(p, f).Some? <==> f == IndustryField;
    UpdateSignupData(s, p)
  }

  datatype SubmitError = NoIndustry  // "Please select an industry"

  /** `handleSubmit`, once the simulated request has answered: with an industry
      chosen the wizard moves to step 4; nothing is written. */
  function Submit(s: State): (r: Result<State, SubmitError>)
    ensures r.Ok? <==> s.signupData.industry.Some?
    ensures r.Ok? ==> r.value == SetCurrentStep(s, 4)
  {
    if s.signupData.industry.None? then Err(NoIndustry) else Ok(SetCurrentStep(s, 4))
  }

  /** `handleGoBack` */
  function Back(s: State): (r: State)
    ensures r.currentStep == 2 && r.signupData == s.signupData && r.completedSteps == s.completedSteps
  {
    SetCurrentStep(s, 2)
  }

  /** The last card clicked is the one saved, and after any click "continue" succeeds. */
  lemma LastClickWins(s: State, a: Industry, b: Industry)
    ensures SelectIndustry(SelectIndustry(s, a), b).signupData == SelectIndustry(s, b).signupData
    ensures Submit(SelectIndustry(s, a)).Ok?
  {
    var p := NoChange.(industry := Some(Some(a)));
    var q := NoChange.(industry := Some(Some(b)));
    MergeTwiceIsMergeOfThen(s.signupData, p, q);
    assert Then(p, q) == q;
  }
}
