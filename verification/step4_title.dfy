/** The profile-title screen (src/components/signup/Step4Title.tsx): a text box cut
    at 60 UTF-16 code units, saved on "continue". */
module Step4Title {
  import opened Wrappers
  import opened Text
  import opened SignupData
  import opened SignupContext

  /** `maxTitleLength` */
  const MaxTitleLength: nat := 60

  /** The box starts with the saved title. */
  function Mount(s: State): (title: string)
    ensures title == s.signupData.title
  {
    s.signupData.title
  }

  /** `onChange`: the typed text, cut by `slice(0, 60)` to its longest prefix of at
      most 60 code units. */
  function Edit(text: string): (title: string)
    ensures Units(title) <= MaxTitleLength
    ensures title <= text
    ensures Units(text) <= MaxTitleLength ==> title == text
    ensures title == text || Units(title) + CharUnits(text[|title|]) > MaxTitleLength
  {
    TakeUnits(text, MaxTitleLength)
  }

  /** Cutting an already cut text changes nothing. */
  lemma EditIdempotent(text: string)
    ensures Edit(Edit(text)) == Edit(text)
  {
  }

  datatype SubmitError = EmptyTitle  // "Please enter a title"

  /** `handleSubmit`: a non-empty title is saved and the wizard moves to step 5. */
  function Submit(s: State, title: string): (r: Result<State, SubmitError>)
    ensures r.Ok? <==> title != ""
    ensures r.Ok? ==> r.value.currentStep == 5 && r.value.signupData.title == title
    ensures r.Ok? ==> r.value.completedSteps == s.completedSteps
    ensures r.Ok? ==> OnlyChanged(s.signupData, r.value.signupData, {TitleField})
  {
    if title == "" then Err(EmptyTitle)
    else
      var p := NoChange.(title := Some(title));
      assert forall f :: PatchGet(p, f).Some? <==> f == TitleField;
      Ok(Advance(s, p, 5))
  }

  /** `handleGoBack`: the text in the box is discarded. */
  function Back(s: State): (r: State)
    ensures r.currentStep == 3 && r.signupData == s.signupData && r.completedSteps == s.completedSteps
  {
    SetCurrentStep(s, 3)
  }

  /** A title typed on this screen is saved as a prefix of at most 60 code units. */
  lemma SavedTitleIsBounded(s: State, text: string)
    ensures Submit(s, Edit(text)).Ok? <==> text != ""
    ensures Submit(s, Edit(text)).Ok? ==>
      var saved := Submit(s, Edit(text)).value.signupData.title;
      Units(saved) <= MaxTitleLength && saved <= text
  {
  }
}
