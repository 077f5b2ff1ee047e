/** The business content-volume screen (src/components/signup/Step6ContentVolume.tsx):
    one of five cards, written to the draft on click. */
module Step6ContentVolume {
  import opened Wrappers
  import opened SignupData
  import opened SignupContext

  /** `handleSelectVolume`: the click is written to the draft at once. */
  function SelectVolume(s: State, volume: ContentVolume): (r: State)
    ensures r.signupData.contentVolume == Some(volume)
    ensures r.currentStep == s.currentStep && r.completedSteps == s.completedSteps
    ensures OnlyChanged(s.signupData, r.signupData, {ContentVolumeField})
  {
    var p := NoChange.(contentVolume := Some(Some(volume)));
    assert forall f :: PatchGet(p, f).Some? <==> f == ContentVolumeField;
    UpdateSignupData(s, p)
  }

  datatype SubmitError = NoVolume  // "Please select a content volume"

  /** `handleSubmit`, once the simulated request has answered: with a volume chosen
      the wizard moves to step 7; nothing is written. */
  function Submit(s: State): (r: Result<State, SubmitError>)
    ensures r.Ok? <==> s.signupData.contentVolume.Some?
    ensures r.Ok? ==> r.value == SetCurrentStep(s, 7)
  {
    if s.signupData.contentVolume.None? then Err(NoVolume) else Ok(SetCurrentStep(s, 7))
  }

  /** `handleGoBack` */
  function Back(s: State): (r: State)
    ensures r.currentStep == 5 && r.signupData == s.signupData && r.completedSteps == s.completedSteps
  {
    SetCurrentStep(s, 5)
  }

  /** The last card clicked is the one saved, and after any click "continue" succeeds. */
  lemma LastClickWins(s: State, a: ContentVolume, b: ContentVolume)
    ensures SelectVolume(SelectVolume(s, a), b).signupData == SelectVolume(s, b).signupData
    ensures Submit(SelectVolume(s, a)).Ok?
  {
    var p := NoChange.(contentVolume := Some(Some(a)));
    var q := NoChange.(contentVolume := Some(Some(b)));
    MergeTwiceIsMergeOfThen(s.signupData, p, q);
    assert Then(p, q) == q;
  }
}
