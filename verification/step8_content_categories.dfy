/** The content-categories screen (src/components/signup/Step8ContentCategories.tsx):
    up to five categories chosen by clicking cards, at least one required. */
module Step8ContentCategories {
  import opened Wrappers
  import opened Lists
  import opened SignupData
  import opened SignupContext

  /** `MAX_CATEGORIES` */
  const MaxCategories: nat := 5

  function Mount(s: State): (selected: seq<Category>)
    ensures selected == s.signupData.contentCategories
  {
    s.signupData.contentCategories
  }

  /** `toggleCategory`: a chosen card is deselected; a new one is added below the
      cap and refused at it ("You can select up to 5 categories"). */
  function ToggleCategory(selected: seq<Category>, c: Category): (r: Result<seq<Category>, ToggleError>)
    ensures r.Err? <==> c !in selected && |selected| >= MaxCategories
    ensures r.Ok? ==> r.value == Toggle(selected, c)
    ensures r.Ok? ==> forall x :: x != c ==> (x in r.value <==> x in selected)
  {
    var r := ToggleCapped(selected, c, MaxCategories);
    assert r.Ok? && c in selected ==> forall x :: x != c ==> (x in r.value <==> x in selected) by {
      if r.Ok? && c in selected {
        RemoveAtMultiset(selected, IndexOf(selected, c).value);
        assert forall x :: x != c ==> multiset(r.value)[x] == multiset(selected)[x];
      }
    }
    r
  }

  /** A selection built by clicking stays duplicate-free and within five entries. */
  lemma ToggleKeepsSelectionValid(selected: seq<Category>, c: Category)
    requires NoDuplicates(selected) && |selected| <= MaxCategories
    ensures ToggleCategory(selected, c).Ok? ==>
      NoDuplicates(ToggleCategory(selected, c).value) && |ToggleCategory(selected, c).value| <= MaxCategories
    ensures ToggleCategory(selected, c).Ok? ==> (c in ToggleCategory(selected, c).value <==> c !in selected)
  {
    ToggleCappedKeepsInvariant(selected, c, MaxCategories);
    ToggleKeepsNoDuplicates(selected, c);
  }

  /** Below the cap, clicking a new card twice leaves the selection as it was. */
  lemma ToggleTwiceRestores(selected: seq<Category>, c: Category)
    requires c !in selected && |selected| < MaxCategories
    ensures ToggleCategory(selected, c) == Ok(selected + [c])
    ensures ToggleCategory(ToggleCategory(selected, c).value, c) == Ok(selected)
  {
    ToggleCappedTwice(selected, c, MaxCategories);
  }

  datatype SubmitError = NoCategory  // "Please select at least one category"

  /** `handleSubmit`: a non-empty selection is saved and the wizard moves to step 9. */
  function Submit(s: State, selected: seq<Category>): (r: Result<State, SubmitError>)
    ensures r.Ok? <==> selected != []
    ensures r.Ok? ==> r.value.currentStep == 9 && r.value.signupData.contentCategories == selected
    ensures r.Ok? ==> r.value.completedSteps == s.completedSteps
    ensures r.Ok? ==> OnlyChanged(s.signupData, r.value.signupData, {ContentCategoriesField})
  {
    if |selected| == 0 then Err(NoCategory)
    else
      var p := NoChange.(contentCategories := Some(selected));
      assert forall f :: PatchGet(p, f).Some? <==> f == ContentCategoriesField;
      Ok(Advance(s, p, 9))
  }

  /** `handleGoBack`: the selection is discarded. */
  function Back(s: State): (r: State)
    ensures r.currentStep == 7 && r.signupData == s.signupData && r.completedSteps == s.completedSteps
  {
    SetCurrentStep(s, 7)
  }
}
