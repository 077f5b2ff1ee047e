/** The biography screen (src/components/signup/Step5Bio.tsx): a text area cut at
    500 UTF-16 code units, saved on "continue". */
module Step5Bio {
  import opened Wrappers
  import opened Text
  import opened SignupData
  import opened SignupContext

  /** `maxBioLength` */
  const MaxBioLength: nat := 500

  function Mount(s: State): (bio: string)
    ensures bio == s.signupData.bio
  {
    s.signupData.bio
  }

  /** `onChange`: the typed text, cut by `slice(0, 500)` to its longest prefix of
      at most 500 code units. */
  function Edit(text: string): (bio: string)
    ensures Units(bio) <= MaxBioLength
    ensures bio <= text
    ensures Units(text) <= MaxBioLength ==> bio == text
    ensures bio == text || Units(bio) + CharUnits(text[|bio|]) > MaxBioLength
  {
    TakeUnits(text, MaxBioLength)
  }

  lemma EditIdempotent(text: string)
    ensures Edit(Edit(text)) == Edit(text)
  {
  }

  datatype SubmitError = EmptyBio  // "Please enter a description"

  /** `handleSubmit`: a non-empty bio is saved and the wizard moves to step 6. */
  function Submit(s: State, bio: string): (r: Result<State, SubmitError>)
    ensures r.Ok? <==> bio != ""
    ensures r.Ok? ==> r.value.currentStep == 6 && r.value.signupData.bio == bio
    ensures r.Ok? ==> r.value.completedSteps == s.completedSteps
    ensures r.Ok? ==> OnlyChanged(s.signupData, r.value.signupData, {BioField})
  {
    if bio == "" then Err(EmptyBio)
    else
      var p := NoChange.(bio := Some(bio));
      assert forall f :: PatchGet(p, f).Some? <==> f == BioField;
      Ok(Advance(s, p, 6))
  }

  /** `handleGoBack`: the text is discarded. */
  function Back(s: State): (r: State)
    ensures r.currentStep == 4 && r.signupData == s.signupData && r.completedSteps == s.completedSteps
  {
    SetCurrentStep(s, 4)
  }

  /** A bio typed on this screen is saved as a prefix of at most 500 code units. */
  lemma SavedBioIsBounded(s: State, text: string)
    ensures Submit(s, Edit(text)).Ok? <==> text != ""
    ensures Submit(s, Edit(text)).Ok? ==>
      var saved := Submit(s, Edit(text)).value.signupData.bio;
      Units(saved) <= MaxBioLength && saved <= text
  {
  }
}
