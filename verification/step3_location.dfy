/** The location screen (src/components/signup/Step3Location.tsx): a search box
    with suggestions filtered from a fixed list, saved on "continue". */
module Step3Location {
  import opened Wrappers
  import opened Text
  import opened SignupData
  import opened SignupContext

  /** `suggestedLocations` */
  const SuggestedLocations: seq<string> := [
    "New York, USA", "Los Angeles, USA", "London, UK", "Paris, France", "Tokyo, Japan",
    "Sydney, Australia", "Toronto, Canada", "Berlin, Germany", "Singapore", "Dubai, UAE"
  ]

  datatype Local = Local(searchTerm: string, showSuggestions: bool)

  function Mount(s: State): (l: Local)
    ensures l.searchTerm == s.signupData.location && !l.showSuggestions
  {
    Local(s.signupData.location, false)
  }

  /** Case-insensitive substring match (ASCII case). */
  predicate Matches(location: string, term: string) {
    Contains(ToLower(location), ToLower(term))
  }

  /** `locations.filter(location => location.toLowerCase().includes(term.toLowerCase()))` */
  function Filter(locations: seq<string>, term: string): (r: seq<string>)
    ensures |r| <= |locations|
    ensures forall x :: x in r <==> x in locations && Matches(x, term)
  {
    if locations == [] then []
    else (if Matches(locations[0], term) then [locations[0]] else []) + Filter(locations[1..], term)
  }

  /** `filteredLocations` */
  function FilteredLocations(term: string): (r: seq<string>)
    ensures forall x :: x in r <==> x in SuggestedLocations && Matches(x, term)
  {
    Filter(SuggestedLocations, term)
  }

  /** A filter that lets everything through returns the list unchanged, in order. */
  lemma {:induction false} FilterKeepsAll(locations: seq<string>, term: string)
    requires forall i :: 0 <= i < |locations| ==> Matches(locations[i], term)
    ensures Filter(locations, term) == locations
  {
    if locations != [] {
      FilterKeepsAll(locations[1..], term);
    }
  }

  /** Filtering a list in two pieces filters each piece and keeps them in order. */
  lemma {:induction false} FilterAppend(a: seq<string>, b: seq<string>, term: string)
    ensures Filter(a + b, term) == Filter(a, term) + Filter(b, term)
  {
    if a == [] {
      assert a + b == b;
    } else {
      assert (a + b)[0] == a[0];
      assert (a + b)[1..] == a[1..] + b;
      FilterAppend(a[1..], b, term);
    }
  }

  /** A single entry is kept exactly when it matches. Together with `FilterAppend`
      this pins the result down: the matching entries, in their original order. */
  lemma FilterSingle(x: string, term: string)
    ensures Filter([x], term) == if Matches(x, term) then [x] else []
  {
  }

  /** An empty search matches every suggestion. */
  lemma EmptyTermShowsAll()
    ensures FilteredLocations("") == SuggestedLocations
  {
    forall i | 0 <= i < |SuggestedLocations| ensures Matches(SuggestedLocations[i], "") {
      EverythingContainsEmpty(ToLower(SuggestedLocations[i]));
    }
    FilterKeepsAll(SuggestedLocations, "");
  }

  /** Every suggestion finds itself. */
  lemma SuggestionMatchesItself(location: string)
    requires location in SuggestedLocations
    ensures location in FilteredLocations(location)
  {
    ContainsIffOccurs(ToLower(location), ToLower(location));
    assert OccursAt(ToLower(location), ToLower(location), 0);
  }

  /** The suggestion list under the box: shown only while the box has focus, is
      non-empty and has matches. */
  function VisibleSuggestions(l: Local): (r: seq<string>)
    ensures r != [] ==> l.showSuggestions && l.searchTerm != ""
    ensures l.showSuggestions && l.searchTerm != "" ==> r == FilteredLocations(l.searchTerm)
    ensures forall x :: x in r ==> x in SuggestedLocations && Matches(x, l.searchTerm)
  {
    if l.showSuggestions && l.searchTerm != "" && |FilteredLocations(l.searchTerm)| > 0
    then FilteredLocations(l.searchTerm) else []
  }

  /** Typing replaces the search term and opens the suggestions. */
  function Type(l: Local, text: string): (r: Local)
    ensures r.searchTerm == text && r.showSuggestions
  {
    Local(text, true)
  }

  /** Focusing the box opens the suggestions and keeps the term. */
  function Focus(l: Local): (r: Local)
    ensures r.searchTerm == l.searchTerm && r.showSuggestions
    ensures l.searchTerm != "" ==> VisibleSuggestions(r) == FilteredLocations(l.searchTerm)
  {
    l.(showSuggestions := true)
  }

  /** `handleLocationSelect`: the chosen suggestion becomes the text; the list closes. */
  function Select(l: Local, location: string): (r: Local)
    ensures r.searchTerm == location && VisibleSuggestions(r) == []
  {
    Local(location, false)
  }

  datatype SubmitError = EmptyLocation  // "Please enter your location"

  /** `handleSubmit`: any non-empty text is saved as the location (it need not be a
      suggestion) and the wizard moves to step 4. */
  function Submit(s: State, l: Local): (r: Result<State, SubmitError>)
    ensures r.Ok? <==> l.searchTerm != ""
    ensures r.Ok? ==> r.value.currentStep == 4 && r.value.signupData.location == l.searchTerm
    ensures r.Ok? ==> r.value.completedSteps == s.completedSteps
    ensures r.Ok? ==> OnlyChanged(s.signupData, r.value.signupData, {LocationField})
  {
    if l.searchTerm == "" then Err(EmptyLocation)
    else
      var p := NoChange.(location := Some(l.searchTerm));
      assert forall f :: PatchGet(p, f).Some? <==> f == LocationField;
      Ok(Advance(s, p, 4))
  }

  /** `handleGoBack`: the search text is discarded. */
  function Back(s: State): (r: State)
    ensures r.currentStep == 2 && r.signupData == s.signupData && r.completedSteps == s.completedSteps
  {
    SetCurrentStep(s, 2)
  }

  /** Picking a shown suggestion and continuing saves exactly that suggestion. */
  lemma PickedSuggestionIsSaved(s: State, l: Local, location: string)
    requires location in VisibleSuggestions(l)
    ensures Submit(s, Select(l, location)).Ok?
    ensures Submit(s, Select(l, location)).value.signupData.location == location
    ensures location in SuggestedLocations
  {
    assert location != "" by {
      assert "" !in SuggestedLocations;
    }
  }
}
