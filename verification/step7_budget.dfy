/** The business budget screen (src/components/signup/Step7Budget.tsx): one of five
    cards, written to the draft on click; "complete setup" only switches the screen
    to its thank-you view, and "start over" resets the wizard. */
module Step7Budget {
  import opened Wrappers
  import opened SignupData
  import opened SignupContext

  /** `handleSelectBudget`: the click is written to the draft at once. */
  function SelectBudget(s: State, budget: Budget): (r: State)
    ensures r.signupData.budget == Some(budget)
    ensures r.currentStep == s.currentStep && r.completedSteps == s.completedSteps
    ensures OnlyChanged(s.signupData, r.signupData, {BudgetField})
  {
    var p := NoChange.(budget := Some(Some(budget)));
    assert forall f :: PatchGet(p, f).Some? <==> f == BudgetField;
    UpdateSignupData(s, p)
  }

  datatype SubmitError = NoBudget  // "Please select a budget range"

  /** `handleSubmit`, once the simulated request has answered: with a budget chosen
      the screen's `isComplete` flag is set; the wizard state is left alone. */
  function Submit(s: State): (r: Result<bool, SubmitError>)
    ensures r.Ok? <==> s.signupData.budget.Some?
    ensures r.Ok? ==> r.value
  {
    if s.signupData.budget.None? then Err(NoBudget) else Ok(true)
  }

  /** `handleGoBack` ("Start Over"): the wizard is reset (the page then leaves for the
      home page). */
  function StartOver(s: State): (r: State)
    ensures r == Fresh() && r.signupData.budget.None?
  {
    ResetSignup(s)
  }

  /** The last card clicked is the one saved, and after any click setup completes. */
  lemma LastClickWins(s: State, a: Budget, b: Budget)
    ensures SelectBudget(SelectBudget(s, a), b).signupData == SelectBudget(s, b).signupData
    ensures Submit(SelectBudget(s, a)) == Ok(true)
  {
    var p := NoChange.(budget := Some(Some(a)));
    var q := NoChange.(budget := Some(Some(b)));
    MergeTwiceIsMergeOfThen(s.signupData, p, q);
    assert Then(p, q) == q;
  }
}
