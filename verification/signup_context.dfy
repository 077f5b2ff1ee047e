/** The wizard container of src/contexts/SignupContext.tsx: the current step, the
    list of completed steps and the shared draft, with the operations the
    provider hands to every screen. State updates are synchronous values. */
module SignupContext {
  import opened SignupData

  /** `totalSteps`: the creator wizard has steps 0 through 12. */
  const TotalSteps: int := 13
  const LastStep: int := TotalSteps - 1

  datatype State = State(currentStep: int, completedSteps: seq<int>, signupData: SignupData)

  /** The state the provider starts with (its three `useState` initial values). */
  function Fresh(): (s: State)
    ensures s.currentStep == 0 && s.completedSteps == []
    ensures forall f :: f != CountryCodeField ==> IsEmptyValue(Get(s.signupData, f))
    ensures s.signupData.countryCode == "+1"
  {
    State(0, [], Initial())
  }

  // ---------------------------------------------------------------------------
  // Setters
  // ---------------------------------------------------------------------------

  /** `setCurrentStep`, exposed as is: any number is accepted. */
  function SetCurrentStep(s: State, step: int): (r: State)
    ensures r.currentStep == step
    ensures r.completedSteps == s.completedSteps && r.signupData == s.signupData
  {
    s.(currentStep := step)
  }

  /** Nothing keeps a screen from moving the wizard past its last step. */
  lemma SetCurrentStepIsUnchecked(s: State)
    ensures SetCurrentStep(s, TotalSteps).currentStep > LastStep
    ensures SetCurrentStep(s, -1).currentStep < 0
  {
  }

  /** `updateSignupData`: merge a partial record into the draft. */
  function UpdateSignupData(s: State, p: Patch): (r: State)
    ensures r.currentStep == s.currentStep && r.completedSteps == s.completedSteps
    ensures forall f :: PatchGet(p, f).Some? ==> Get(r.signupData, f) == PatchGet(p, f).value
    ensures OnlyChanged(s.signupData, r.signupData, Mentioned(p))
  {
    s.(signupData := Merge(s.signupData, p))
  }

  /** What a screen's "continue" or "back" does: write its fields, then show `step`. */
  function Advance(s: State, p: Patch, step: int): (r: State)
    ensures r.currentStep == step && r.completedSteps == s.completedSteps
    ensures forall f :: PatchGet(p, f).Some? ==> Get(r.signupData, f) == PatchGet(p, f).value
    ensures OnlyChanged(s.signupData, r.signupData, Mentioned(p))
  {
    SetCurrentStep(UpdateSignupData(s, p), step)
  }

  /** `resetSignup`: back to the provider's initial state, whatever came before. */
  function ResetSignup(s: State): (r: State)
    ensures r == Fresh()
  {
    State(currentStep := 0, completedSteps := [], signupData := Initial())
  }

  // ---------------------------------------------------------------------------
  // Skipping
  // ---------------------------------------------------------------------------

  /** `skipCurrentStep`: one step forward unless already on the last step. */
  function SkipCurrentStep(s: State): (r: State)
    ensures s.currentStep < LastStep ==> r.currentStep == s.currentStep + 1
    ensures s.currentStep >= LastStep ==> r.currentStep == s.currentStep
    ensures r.completedSteps == s.completedSteps && r.signupData == s.signupData
  {
    if s.currentStep < TotalSteps - 1 then s.(currentStep := s.currentStep + 1) else s
  }

  function SkipTimes(s: State, n: nat): State {
    if n == 0 then s else SkipCurrentStep(SkipTimes(s, n - 1))
  }

  /** From any step in range, `n` skips land on `min(step + n, 12)`: skipping never
      passes the last step and never records a step as completed. */
  lemma {:induction false} SkipsStopAtLastStep(s: State, n: nat)
    requires 0 <= s.currentStep <= LastStep
    ensures SkipTimes(s, n).currentStep == if s.currentStep + n < LastStep then s.currentStep + n else LastStep
    ensures SkipTimes(s, n).completedSteps == s.completedSteps
    ensures SkipTimes(s, n).signupData == s.signupData
  {
    if n > 0 {
      SkipsStopAtLastStep(s, n - 1);
    }
  }

  /** `skipToCompletion`: every step 0..12 completed and the wizard on step 12. */
  function SkipToCompletion(s: State): (r: State)
    ensures |r.completedSteps| == TotalSteps
    ensures forall i :: 0 <= i < TotalSteps ==> r.completedSteps[i] == i
    ensures r.currentStep == LastStep
    ensures r.signupData == s.signupData
  {
    s.(completedSteps := seq(TotalSteps, i => i), currentStep := TotalSteps - 1)
  }

  // ---------------------------------------------------------------------------
  // Completed steps
  // ---------------------------------------------------------------------------

  predicate Sorted(xs: seq<int>) {
    forall i, j :: 0 <= i < j < |xs| ==> xs[i] <= xs[j]
  }

  predicate StrictlySorted(xs: seq<int>) {
    forall i, j :: 0 <= i < j < |xs| ==> xs[i] < xs[j]
  }

  /** Insert `x` before the first element greater than it. */
  function Insert(xs: seq<int>, x: int): (r: seq<int>)
    ensures multiset(r) == multiset(xs) + multiset{x}
  {
    if xs == [] then [x]
    else if x < xs[0] then [x] + xs
    else
      assert xs == [xs[0]] + xs[1..];
      [xs[0]] + Insert(xs[1..], x)
  }

  lemma {:induction false} InsertKeepsLowerBound(xs: seq<int>, x: int, b: int)
    requires forall i :: 0 <= i < |xs| ==> b <= xs[i]
    requires b <= x
    ensures forall i :: 0 <= i < |Insert(xs, x)| ==> b <= Insert(xs, x)[i]
  {
    if xs != [] && x >= xs[0] {
      InsertKeepsLowerBound(xs[1..], x, b);
    }
  }

  lemma {:induction false} InsertKeepsStrictLowerBound(xs: seq<int>, x: int, b: int)
    requires forall i :: 0 <= i < |xs| ==> b < xs[i]
    requires b < x
    ensures forall i :: 0 <= i < |Insert(xs, x)| ==> b < Insert(xs, x)[i]
  {
    if xs != [] && x >= xs[0] {
      InsertKeepsStrictLowerBound(xs[1..], x, b);
    }
  }

  /** Inserting into a sorted list keeps it sorted. */
  lemma {:induction false} InsertSorted(xs: seq<int>, x: int)
    requires Sorted(xs)
    ensures Sorted(Insert(xs, x))
  {
    if xs != [] && x >= xs[0] {
      InsertSorted(xs[1..], x);
      InsertKeepsLowerBound(xs[1..], x, xs[0]);
    }
  }

  /** Inserting a new value into a strictly increasing list keeps it strictly increasing. */
  lemma {:induction false} InsertStrictlySorted(xs: seq<int>, x: int)
    requires StrictlySorted(xs) && x !in xs
    ensures StrictlySorted(Insert(xs, x))
  {
    if xs != [] && x >= xs[0] {
      assert x != xs[0];
      InsertStrictlySorted(xs[1..], x);
      InsertKeepsStrictLowerBound(xs[1..], x, xs[0]);
    }
  }

  lemma {:induction false} InsertGreatest(xs: seq<int>, x: int)
    requires Sorted(xs)
    requires forall i :: 0 <= i < |xs| ==> xs[i] <= x
    ensures Insert(xs, x) == xs + [x]
  {
    if xs != [] {
      InsertGreatest(xs[1..], x);
    }
  }

  /** `Array.prototype.sort` with the numeric comparator `(a, b) => a - b`. */
  function SortAscending(xs: seq<int>): (r: seq<int>)
    ensures Sorted(r)
    ensures multiset(r) == multiset(xs)
  {
    if xs == [] then []
    else
      var init := xs[..|xs| - 1];
      assert xs == init + [xs[|xs| - 1]];
      var sortedInit := SortAscending(init);
      InsertSorted(sortedInit, xs[|xs| - 1]);
      Insert(sortedInit, xs[|xs| - 1])
  }

  lemma {:induction false} SortSorted(xs: seq<int>)
    requires Sorted(xs)
    ensures SortAscending(xs) == xs
  {
    if xs != [] {
      var init := xs[..|xs| - 1];
      SortSorted(init);
      InsertGreatest(init, xs[|xs| - 1]);
      assert init + [xs[|xs| - 1]] == xs;
    }
  }

  /** `markStepComplete`: append the step and sort, unless it is already listed. */
  function MarkStepComplete(s: State, step: int): (r: State)
    ensures step in r.completedSteps
    ensures forall x :: x in r.completedSteps <==> x in s.completedSteps || x == step
    ensures step in s.completedSteps ==> r == s
    ensures step !in s.completedSteps ==> Sorted(r.completedSteps)
    ensures r.currentStep == s.currentStep && r.signupData == s.signupData
  {
    if step in s.completedSteps then s
    else
      var sorted := SortAscending(s.completedSteps + [step]);
      assert forall x :: x in sorted <==> x in multiset(s.completedSteps + [step]);
      s.(completedSteps := sorted)
  }

  /** A list that is sorted and free of duplicates stays so, and the new step is
      inserted in place. */
  lemma MarkStepCompleteKeepsOrder(s: State, step: int)
    requires StrictlySorted(s.completedSteps)
    requires step !in s.completedSteps
    ensures MarkStepComplete(s, step).completedSteps == Insert(s.completedSteps, step)
    ensures StrictlySorted(MarkStepComplete(s, step).completedSteps)
  {
    var c := s.completedSteps;
    assert (c + [step])[..|c + [step]| - 1] == c;
    SortSorted(c);
    InsertStrictlySorted(c, step);
  }

  /** Marking the same step twice is the same as marking it once. */
  lemma MarkStepCompleteIdempotent(s: State, step: int)
    ensures MarkStepComplete(MarkStepComplete(s, step), step) == MarkStepComplete(s, step)
  {
  }

  /** `isStepComplete` */
  predicate IsStepComplete(s: State, step: int) {
    step in s.completedSteps
  }

  /** Marking a step makes it, and only it, newly complete. */
  lemma MarkThenQuery(s: State, step: int, other: int)
    ensures IsStepComplete(MarkStepComplete(s, step), step)
    ensures other != step ==> (IsStepComplete(MarkStepComplete(s, step), other) <==> IsStepComplete(s, other))
  {
  }

  /** After `skipToCompletion` every step reads as complete, and nothing else does. */
  lemma SkipToCompletionCompletesAll(s: State, step: int)
    ensures IsStepComplete(SkipToCompletion(s), step) <==> 0 <= step < TotalSteps
  {
    var c := SkipToCompletion(s).completedSteps;
    if 0 <= step < TotalSteps {
      assert c[step] == step;
    }
  }
}
