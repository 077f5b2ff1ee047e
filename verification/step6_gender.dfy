/** The gender screen (src/components/signup/Step6Gender.tsx): one of four radio
    options, saved on "continue". */
module Step6Gender {
  import opened Wrappers
  import opened SignupData
  import opened SignupContext

  /** The radio group starts on the saved choice, if any. */
  function Mount(s: State): (selected: Option<Gender>)
    ensures selected == s.signupData.gender
  {
    s.signupData.gender
  }

  datatype SubmitError = NoGender  // "Please select a gender"

  /** `handleSubmit`: a selected option is saved and the wizard moves to step 7. */
  function Submit(s: State, selected: Option<Gender>): (r: Result<State, SubmitError>)
    ensures r.Ok? <==> selected.Some?
    ensures r.Ok? ==> r.value.currentStep == 7 && r.value.signupData.gender == selected
    ensures r.Ok? ==> r.value.completedSteps == s.completedSteps
    ensures r.Ok? ==> OnlyChanged(s.signupData, r.value.signupData, {GenderField})
  {
    if selected.None? then Err(NoGender)
    else
      var p := NoChange.(gender := Some(selected));
      assert forall f :: PatchGet(p, f).Some? <==> f == GenderField;
      Ok(Advance(s, p, 7))
  }

  /** `handleGoBack`: the selection is discarded. */
  function Back(s: State): (r: State)
    ensures r.currentStep == 5 && r.signupData == s.signupData && r.completedSteps == s.completedSteps
  {
    SetCurrentStep(s, 5)
  }

  /** Clicking an option (`onValueChange`) and continuing always saves that option. */
  lemma ChosenGenderIsSaved(s: State, g: Gender)
    ensures Submit(s, Some(g)).Ok? && Submit(s, Some(g)).value.signupData.gender == Some(g)
  {
  }

  /** Coming back to the screen after continuing shows the saved choice. */
  lemma ReturnShowsSavedChoice(s: State, g: Gender)
    ensures Mount(Submit(s, Some(g)).value) == Some(g)
  {
  }
}
