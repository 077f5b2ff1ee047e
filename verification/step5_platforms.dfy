/** The business platforms screen (src/components/signup/Step5Platforms.tsx): any
    number of platforms, toggled by clicking cards and written to the draft at once. */
module Step5Platforms {
  import opened Wrappers
  import opened Lists
  import opened SignupData
  import opened SignupContext

  /** `togglePlatform`: a chosen platform is spliced out, a new one is pushed. */
  function TogglePlatform(s: State, p: Platform): (r: State)
    ensures r.signupData.platforms == Toggle(s.signupData.platforms, p)
    ensures r.currentStep == s.currentStep && r.completedSteps == s.completedSteps
    ensures OnlyChanged(s.signupData, r.signupData, {PlatformsField})
  {
    var patch := NoChange.(platforms := Some(Toggle(s.signupData.platforms, p)));
    assert forall f :: PatchGet(patch, f).Some? <==> f == PlatformsField;
    UpdateSignupData(s, patch)
  }

  /** Clicking keeps the saved list duplicate-free and flips whether `p` is chosen. */
  lemma ToggleKeepsNoDuplicates(s: State, p: Platform)
    requires NoDuplicates(s.signupData.platforms)
    ensures NoDuplicates(TogglePlatform(s, p).signupData.platforms)
    ensures p in TogglePlatform(s, p).signupData.platforms <==> p !in s.signupData.platforms
  {
    Lists.ToggleKeepsNoDuplicates(s.signupData.platforms, p);
  }

  /** Clicking a new platform twice restores the list; clicking a chosen one twice
      keeps the same platforms but moves it to the end. */
  lemma ToggleTwice(s: State, p: Platform)
    requires NoDuplicates(s.signupData.platforms)
    ensures p !in s.signupData.platforms ==>
      TogglePlatform(TogglePlatform(s, p), p).signupData.platforms == s.signupData.platforms
    ensures p in s.signupData.platforms ==>
      && multiset(TogglePlatform(TogglePlatform(s, p), p).signupData.platforms) == multiset(s.signupData.platforms)
      && TogglePlatform(TogglePlatform(s, p), p).signupData.platforms[|s.signupData.platforms| - 1] == p
  {
    var ps := s.signupData.platforms;
    if p !in ps {
      ToggleTwiceWhenAbsent(ps, p);
    } else {
      ToggleTwiceWhenPresent(ps, p);
      RemoveAtMultiset(ps, IndexOf(ps, p).value);
    }
  }

  datatype SubmitError = NoPlatform  // "Please select at least one platform"

  /** `handleSubmit`, once the simulated request has answered: at least one platform,
      then the wizard moves to step 6; nothing is written. */
  function Submit(s: State): (r: Result<State, SubmitError>)
    ensures r.Ok? <==> s.signupData.platforms != []
    ensures r.Ok? ==> r.value == SetCurrentStep(s, 6)
  {
    if |s.signupData.platforms| == 0 then Err(NoPlatform) else Ok(SetCurrentStep(s, 6))
  }

  /** `handleGoBack` */
  function Back(s: State): (r: State)
    ensures r.currentStep == 4 && r.signupData == s.signupData && r.completedSteps == s.completedSteps
  {
    SetCurrentStep(s, 4)
  }
}
