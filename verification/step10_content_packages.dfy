/** The content-packages screen (src/components/signup/Step10ContentPackages.tsx): a
    list of at least one package, each with a kind, a description and a price. */
module Step10ContentPackages {
  import opened Wrappers
  import opened Lists
  import opened Text
  import opened SignupData
  import opened SignupContext

  /** `DEFAULT_PACKAGE`: an Instagram post with no description and price 0. */
  const DefaultPackage: ContentPackage := ContentPackage(InstagramPost, "", 0.0)

  /** The saved packages, or one default package when none are saved. */
  function Mount(s: State): (packages: seq<ContentPackage>)
    ensures |packages| >= 1
    ensures s.signupData.contentPackages != [] ==> packages == s.signupData.contentPackages
    ensures s.signupData.contentPackages == [] ==> packages == [DefaultPackage]
  {
    if |s.signupData.contentPackages| > 0 then s.signupData.contentPackages else [DefaultPackage]
  }

  /** The three inputs of a package card. */
  datatype Change =
    | KindChange(kind: PackageType)
    | DescriptionChange(description: string)
    | PriceChange(text: string)

  /** The price an input text stands for: the empty box is 0, anything else goes
      through `parseFloat`, which is a parameter here. */
  function PriceOf(text: string, parseFloat: string -> real): (price: real)
    ensures text == "" ==> price == 0.0
  {
    if text == "" then 0.0 else parseFloat(text)
  }

  /** `handlePackageChange(index, field, value)`: one field of one card is replaced;
      the index is one of the cards shown. */
  function ChangePackage(packages: seq<ContentPackage>, index: nat, change: Change, parseFloat: string -> real)
    : (r: seq<ContentPackage>)
    requires index < |packages|
    ensures |r| == |packages|
    ensures forall k :: 0 <= k < |r| && k != index ==> r[k] == packages[k]
    ensures change.KindChange? ==> r[index] == packages[index].(kind := change.kind)
    ensures change.DescriptionChange? ==> r[index] == packages[index].(description := change.description)
    ensures change.PriceChange? ==> r[index] == packages[index].(price := PriceOf(change.text, parseFloat))
  {
    var p := packages[index];
    var updated := match change
      case KindChange(kind) => p.(kind := kind)
      case DescriptionChange(d) => p.(description := d)
      case PriceChange(text) => p.(price := PriceOf(text, parseFloat));
    packages[index := updated]
  }

  /** `handleAddPackage` */
  function AddPackage(packages: seq<ContentPackage>): (r: seq<ContentPackage>)
    ensures |r| == |packages| + 1 && r[..|packages|] == packages && r[|packages|] == DefaultPackage
  {
    packages + [DefaultPackage]
  }

  datatype RemoveError = LastPackage  // "You need at least one package"

  /** `handleRemovePackage(index)`: the last remaining package cannot be removed. */
  function RemovePackage(packages: seq<ContentPackage>, index: nat): (r: Result<seq<ContentPackage>, RemoveError>)
    ensures r.Err? <==> |packages| == 1
    ensures r.Ok? ==> r.value == RemoveAt(packages, index)
  {
    if |packages| == 1 then Err(LastPackage) else Ok(RemoveAt(packages, index))
  }

  /** The screen never shows an empty list: mounting gives one package and no edit
      takes the last one away. */
  lemma PackagesNeverEmpty(packages: seq<ContentPackage>, index: nat, change: Change, parseFloat: string -> real)
    requires |packages| >= 1
    ensures |AddPackage(packages)| >= 1
    ensures RemovePackage(packages, index).Ok? ==> |RemovePackage(packages, index).value| >= 1
    ensures index < |packages| ==> |ChangePackage(packages, index, change, parseFloat)| >= 1
  {
  }

  /** `pkg.description.trim() !== '' && pkg.price > 0` */
  predicate IsComplete(p: ContentPackage) {
    Trim(p.description) != "" && p.price > 0.0
  }

  datatype SubmitError = InvalidPackages  // "Invalid packages"

  /** `handleSubmit`: every package needs a description that is not blank and a
      positive price; the list is saved and the wizard moves to step 11. */
  function Submit(s: State, packages: seq<ContentPackage>): (r: Result<State, SubmitError>)
    ensures r.Ok? <==> forall k :: 0 <= k < |packages| ==> IsComplete(packages[k])
    ensures r.Ok? ==> r.value.currentStep == 11 && r.value.signupData.contentPackages == packages
    ensures r.Ok? ==> r.value.completedSteps == s.completedSteps
    ensures r.Ok? ==> OnlyChanged(s.signupData, r.value.signupData, {ContentPackagesField})
  {
    if !(forall k :: 0 <= k < |packages| ==> IsComplete(packages[k])) then Err(InvalidPackages)
    else
      var p := NoChange.(contentPackages := Some(packages));
      assert forall f :: PatchGet(p, f).Some? <==> f == ContentPackagesField;
      Ok(Advance(s, p, 11))
  }

  /** A package passes exactly when its description has a character that is not
      white space and its price is positive. */
  lemma SubmitAcceptsExactly(s: State, packages: seq<ContentPackage>)
    ensures Submit(s, packages).Ok? <==>
      forall k :: 0 <= k < |packages| ==> !IsBlank(packages[k].description) && packages[k].price > 0.0
  {
    forall k | 0 <= k < |packages| {
      TrimEmptyIffBlank(packages[k].description);
    }
  }

  /** The default package alone is refused: a fresh screen cannot continue untouched. */
  lemma DefaultPackageRefused(s: State)
    ensures Submit(s, [DefaultPackage]).Err?
  {
    assert !IsComplete([DefaultPackage][0]);
  }

  /** `handleGoBack`: the list is saved as it stands, valid or not, and the wizard
      moves to step 9. */
  function Back(s: State, packages: seq<ContentPackage>): (r: State)
    ensures r.currentStep == 9 && r.signupData.contentPackages == packages
    ensures r.completedSteps == s.completedSteps
    ensures OnlyChanged(s.signupData, r.signupData, {ContentPackagesField})
  {
    var p := NoChange.(contentPackages := Some(packages));
    assert forall f :: PatchGet(p, f).Some? <==> f == ContentPackagesField;
    Advance(s, p, 9)
  }

  /** Leaving by "back" with a non-empty list and returning shows the same list. */
  lemma BackThenMountRestores(s: State, packages: seq<ContentPackage>)
    requires |packages| >= 1
    ensures Mount(Back(s, packages)) == packages
  {
  }
}
