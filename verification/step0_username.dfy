/** The username screen (src/components/signup/Step0Username.tsx): the user types a
    name, checks its availability, and may continue only after a successful check. */
module Step0Username {
  import opened Wrappers
  import opened Text
  import opened SignupData
  import opened SignupContext

  /** The screen's own state: the text in the box and the last availability answer
      (`null` until checked). */
  datatype Local = Local(username: string, isAvailable: Option<bool>)

  /** The box starts with the username already saved in the draft. */
  function Mount(s: State): (l: Local)
    ensures l.username == s.signupData.username && l.isAvailable.None?
  {
    Local(s.signupData.username, None)
  }

  /** Typing replaces the text and forgets the last availability answer. */
  function EditUsername(l: Local, text: string): (r: Local)
    ensures r.username == text && r.isAvailable.None?
  {
    Local(text, None)
  }

  /** Names the simulated back end reports as taken. */
  const Reserved: seq<string> := ["admin", "support", "test", "user"]

  /** `/^[a-zA-Z0-9_]+$/` */
  predicate IsWellFormed(name: string) {
    name != "" && forall i :: 0 <= i < |name| ==> IsWordChar(name[i])
  }

  /** Taken, compared without regard to (ASCII) case. */
  predicate IsTaken(name: string) {
    ToLower(name) in Reserved
  }

  datatype CheckError =
    | TooShort           // "Username is too short"
    | InvalidCharacters  // "Invalid username"

  /** `handleCheckUsername` once the simulated request has answered. Names shorter
      than three UTF-16 code units are refused first, then names with characters outside
      `[a-zA-Z0-9_]`; otherwise the answer is recorded: available exactly when the
      name is not reserved. */
  function CheckUsername(l: Local): (r: Result<Local, CheckError>)
    ensures r == Err(TooShort) <==> Units(l.username) < 3
    ensures r == Err(InvalidCharacters) <==> Units(l.username) >= 3 && !IsWellFormed(l.username)
    ensures r.Ok? ==> r.value.username == l.username
    ensures r.Ok? ==> (r.value.isAvailable == Some(true) <==> !IsTaken(l.username))
    ensures r.Ok? ==> r.value.isAvailable.Some?
  {
    if l.username == "" || Units(l.username) < 3 then Err(TooShort)
    else if !IsWellFormed(l.username) then Err(InvalidCharacters)
    else Ok(l.(isAvailable := Some(!IsTaken(l.username))))
  }

  datatype SubmitError = NotChecked  // "Please check username availability"

  /** `handleSubmit`: only after a check that found the name available; saves the
      username and moves to step 1. */
  function Submit(s: State, l: Local): (r: Result<State, SubmitError>)
    ensures r.Ok? <==> l.isAvailable == Some(true)
    ensures r.Ok? ==> r.value.currentStep == 1 && r.value.signupData.username == l.username
    ensures r.Ok? ==> r.value.completedSteps == s.completedSteps
    ensures r.Ok? ==> OnlyChanged(s.signupData, r.value.signupData, {UsernameField})
  {
    if l.isAvailable != Some(true) then Err(NotChecked)
    else
      var p := NoChange.(username := Some(l.username));
      assert Mentioned(p) == {UsernameField} by {
        assert forall f :: PatchGet(p, f).Some? <==> f == UsernameField;
      }
      Ok(Advance(s, p, 1))
  }

  /** Editing the name after a check makes "continue" refuse until the new name
      is checked. */
  lemma EditRequiresRecheck(s: State, l: Local, text: string)
    ensures Submit(s, EditUsername(l, text)).Err?
  {
  }

  /** The flow type, check, continue succeeds exactly for a name of at least three
      characters from `[a-zA-Z0-9_]` that is not reserved, and saves that name. */
  lemma SavedUsernameIsValid(s: State, text: string)
    ensures
      var checked := CheckUsername(EditUsername(Mount(s), text));
      (checked.Ok? && Submit(s, checked.value).Ok?) <==>
        (Units(text) >= 3 && IsWellFormed(text) && !IsTaken(text))
    ensures
      var checked := CheckUsername(EditUsername(Mount(s), text));
      checked.Ok? && Submit(s, checked.value).Ok? ==>
        Submit(s, checked.value).value.signupData.username == text
    ensures IsWellFormed(text) ==> Units(text) == |text|
  {
    if IsWellFormed(text) {
      UnitsOfBmp(text);
    }
  }

  /** Whether a name is taken does not depend on the case of its letters. */
  lemma ReservedIgnoresCase(name: string)
    ensures IsTaken(name) <==> IsTaken(ToLower(name))
  {
    assert ToLower(ToLower(name)) == ToLower(name);
  }

  /** Examples: a reserved name in another case is taken; a longer name that
      starts with one is not. */
  lemma ReservedExamples()
    ensures IsTaken("Admin") && IsTaken("SUPPORT") && !IsTaken("admins")
  {
    assert ToLower("Admin") == "admin";
    assert ToLower("SUPPORT") == "support";
  }
}
