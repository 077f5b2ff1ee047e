/** The business categories screen (src/components/signup/Step4Categories.tsx): up
    to three categories, toggled by clicking cards and written to the draft at once. */
module Step4Categories {
  import opened Wrappers
  import opened Lists
  import opened SignupData
  import opened SignupContext

  /** `MAX_CATEGORIES` */
  const MaxCategories: nat := 3

  /** `toggleCategory`: a chosen card is removed, a new one is added below the cap;
      at the cap the click is refused ("You can select up to 3 categories") and
      nothing is written. */
  function ToggleCategory(s: State, c: Category): (r: Result<State, ToggleError>)
    ensures r.Err? <==> c !in s.signupData.categories && |s.signupData.categories| >= MaxCategories
    ensures r.Ok? ==> r.value.signupData.categories == Toggle(s.signupData.categories, c)
    ensures r.Ok? ==> r.value.currentStep == s.currentStep && r.value.completedSteps == s.completedSteps
    ensures r.Ok? ==> OnlyChanged(s.signupData, r.value.signupData, {CategoriesField})
  {
    match ToggleCapped(s.signupData.categories, c, MaxCategories)
    case Err(e) => Err(e)
    case Ok(updated) =>
      var p := NoChange.(categories := Some(updated));
      assert forall f :: PatchGet(p, f).Some? <==> f == CategoriesField;
      Ok(UpdateSignupData(s, p))
  }

  /** Clicking keeps the saved selection duplicate-free and within three entries,
      and flips whether the clicked category is chosen. */
  lemma ToggleKeepsSelectionValid(s: State, c: Category)
    requires NoDuplicates(s.signupData.categories) && |s.signupData.categories| <= MaxCategories
    ensures ToggleCategory(s, c).Ok? ==>
      var cs := ToggleCategory(s, c).value.signupData.categories;
      NoDuplicates(cs) && |cs| <= MaxCategories && (c in cs <==> c !in s.signupData.categories)
  {
    ToggleCappedKeepsInvariant(s.signupData.categories, c, MaxCategories);
    ToggleKeepsNoDuplicates(s.signupData.categories, c);
  }

  /** Below the cap, clicking a new card twice leaves the selection as it was. */
  lemma ToggleTwiceRestores(s: State, c: Category)
    requires c !in s.signupData.categories && |s.signupData.categories| < MaxCategories
    ensures ToggleCategory(s, c).Ok?
    ensures ToggleCategory(ToggleCategory(s, c).value, c).Ok?
    ensures ToggleCategory(ToggleCategory(s, c).value, c).value.signupData.categories == s.signupData.categories
  {
    ToggleTwiceWhenAbsent(s.signupData.categories, c);
  }

  datatype SubmitError = NoCategory  // "Please select at least one category"

  /** `handleSubmit`, once the simulated request has answered: at least one category,
      then the wizard moves to step 5; nothing is written. */
  function Submit(s: State): (r: Result<State, SubmitError>)
    ensures r.Ok? <==> s.signupData.categories != []
    ensures r.Ok? ==> r.value == SetCurrentStep(s, 5)
  {
    if |s.signupData.categories| == 0 then Err(NoCategory) else Ok(SetCurrentStep(s, 5))
  }

  /** `handleGoBack` */
  function Back(s: State): (r: State)
    ensures r.currentStep == 3 && r.signupData == s.signupData && r.completedSteps == s.completedSteps
  {
    SetCurrentStep(s, 3)
  }
}
