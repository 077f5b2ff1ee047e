/** The content-images screen (src/components/signup/Step9ContentImages.tsx): up to
    ten images, one of them marked as the profile picture. Its "continue" finishes
    the sign-up: the images are written, then the whole wizard is reset. */
module Step9ContentImages {
  import opened Wrappers
  import opened Lists
  import opened SignupData
  import opened SignupContext

  /** `MIN_IMAGES` and `MAX_IMAGES` */
  const MinImages: nat := 3
  const MaxImages: nat := 10

  /** Every entry of `placeholderImages` is this path, so the random pick among them
      always yields it. */
  const Placeholder: string := "/placeholder.svg"

  /** The images on screen and `profileImageIndex`. */
  datatype Local = Local(images: seq<ContentImage>, profileIndex: Option<nat>)

  /** `images.findIndex(img => img.isProfilePicture)`, with `None` for -1. */
  function FirstProfilePicture(images: seq<ContentImage>): (r: Option<nat>)
    ensures r.Some? ==> r.value < |images| && images[r.value].isProfilePicture
    ensures r.Some? ==> forall k :: 0 <= k < r.value ==> !images[k].isProfilePicture
    ensures r.None? ==> forall k :: 0 <= k < |images| ==> !images[k].isProfilePicture
  {
    if images == [] then None
    else if images[0].isProfilePicture then Some(0)
    else match FirstProfilePicture(images[1..])
      case None => None
      case Some(k) => Some(k + 1)
  }

  /** The screen starts with the saved images and the first one flagged as the
      profile picture, if any. */
  function Mount(s: State): (l: Local)
    ensures l.images == s.signupData.contentImages
    ensures l.profileIndex == FirstProfilePicture(l.images)
  {
    var images := s.signupData.contentImages;
    Local(images, FirstProfilePicture(images))
  }

  /** The index and the flags agree: exactly the image at `profileIndex` is flagged. */
  predicate Aligned(l: Local) {
    && (l.profileIndex.Some? ==> l.profileIndex.value < |l.images|)
    && forall k :: 0 <= k < |l.images| ==> (l.images[k].isProfilePicture <==> l.profileIndex == Some(k))
  }

  /** At most one image is flagged. */
  predicate AtMostOneFlag(images: seq<ContentImage>) {
    forall i, j :: 0 <= i < j < |images| ==> !(images[i].isProfilePicture && images[j].isProfilePicture)
  }

  /** Saved images with at most one flag give a screen whose index and flags agree. */
  lemma MountAligned(s: State)
    requires AtMostOneFlag(s.signupData.contentImages)
    ensures Aligned(Mount(s))
  {
  }

  datatype AddError = TooManyImages  // "Maximum 10 images allowed"

  /** `handleAddImage`: below ten images a placeholder without a flag is appended. */
  function AddImage(l: Local): (r: Result<Local, AddError>)
    ensures r.Err? <==> |l.images| >= MaxImages
    ensures r.Ok? ==> r.value.images == l.images + [ContentImage(Placeholder, false)]
    ensures r.Ok? ==> r.value.profileIndex == l.profileIndex
  {
    if |l.images| >= MaxImages then Err(TooManyImages)
    else Ok(l.(images := l.images + [ContentImage(Placeholder, false)]))
  }

  /** `handleRemoveImage(index)`: the image is spliced out; removing the profile
      picture clears the choice, removing an earlier image shifts it down. */
  function RemoveImage(l: Local, index: nat): (r: Local)
    ensures r.images == RemoveAt(l.images, index)
    ensures l.profileIndex == Some(index) ==> r.profileIndex.None?
    ensures l.profileIndex.Some? && l.profileIndex.value > index ==> r.profileIndex == Some(l.profileIndex.value - 1)
    ensures l.profileIndex.Some? && l.profileIndex.value < index ==> r.profileIndex == l.profileIndex
    ensures l.profileIndex.None? ==> r.profileIndex.None?
  {
    var newIndex :=
      if l.profileIndex == Some(index) then None
      else if l.profileIndex.Some? && l.profileIndex.value > index then Some(l.profileIndex.value - 1)
      else l.profileIndex;
    Local(RemoveAt(l.images, index), newIndex)
  }

  /** `handleSetProfilePicture(index)`: every flag is cleared, then image `index` is
      flagged. The index is one of the images shown. */
  function SetProfilePicture(l: Local, index: nat): (r: Local)
    requires index < |l.images|
    ensures |r.images| == |l.images| && r.profileIndex == Some(index)
    ensures forall k :: 0 <= k < |r.images| ==> r.images[k].url == l.images[k].url
    ensures forall k :: 0 <= k < |r.images| ==> (r.images[k].isProfilePicture <==> k == index)
  {
    var cleared := seq(|l.images|, k requires 0 <= k < |l.images| => l.images[k].(isProfilePicture := false));
    Local(cleared[index := cleared[index].(isProfilePicture := true)], Some(index))
  }

  /** Each edit keeps the index and the flags in agreement. */
  lemma EditsKeepAligned(l: Local, index: nat)
    requires Aligned(l)
    ensures AddImage(l).Ok? ==> Aligned(AddImage(l).value)
    ensures Aligned(RemoveImage(l, index))
    ensures index < |l.images| ==> Aligned(SetProfilePicture(l, index))
  {
    var r := RemoveImage(l, index);
    forall k | 0 <= k < |r.images| ensures r.images[k].isProfilePicture <==> r.profileIndex == Some(k) {
      if index < |l.images| {
        var k' := if k < index then k else k + 1;
        assert r.images[k] == l.images[k'];
      }
    }
  }

  datatype SubmitError =
    | TooFewImages      // "Please add at least 3 images"
    | NoProfilePicture  // "Please select a profile picture"

  /** `handleSubmit`, once the simulated request has answered: at least three images
      and a chosen profile picture; the images are written to the draft and then
      `resetSignup` throws the whole draft away (the page then leaves for the
      dashboard). */
  function Submit(s: State, l: Local): (r: Result<State, SubmitError>)
    ensures r == Err(TooFewImages) <==> |l.images| < MinImages
    ensures r == Err(NoProfilePicture) <==> |l.images| >= MinImages && l.profileIndex.None?
    ensures r.Ok? ==> r.value == Fresh()
  {
    if |l.images| < MinImages then Err(TooFewImages)
    else if l.profileIndex.None? then Err(NoProfilePicture)
    else
      var written := UpdateSignupData(s, NoChange.(contentImages := Some(l.images)));
      Ok(ResetSignup(written))
  }

  /** An accepted submission had exactly one flagged image among at least three. */
  lemma AcceptedHasOneProfilePicture(s: State, l: Local)
    requires Aligned(l) && Submit(s, l).Ok?
    ensures |l.images| >= MinImages
    ensures exists k :: 0 <= k < |l.images| && l.images[k].isProfilePicture
    ensures AtMostOneFlag(l.images)
  {
    assert l.images[l.profileIndex.value].isProfilePicture;
  }

  /** `handleGoBack`: the images are written to the draft (the page then leaves for
      the dashboard; the step is not changed). */
  function Back(s: State, l: Local): (r: State)
    ensures r.signupData.contentImages == l.images
    ensures r.currentStep == s.currentStep && r.completedSteps == s.completedSteps
    ensures OnlyChanged(s.signupData, r.signupData, {ContentImagesField})
  {
    var p := NoChange.(contentImages := Some(l.images));
    assert forall f :: PatchGet(p, f).Some? <==> f == ContentImagesField;
    UpdateSignupData(s, p)
  }

  /** Leaving by "back" and returning restores the screen, profile choice included. */
  lemma BackThenMountRestores(s: State, l: Local)
    requires Aligned(l)
    ensures Mount(Back(s, l)) == l
  {
    if l.profileIndex.Some? {
      assert l.images[l.profileIndex.value].isProfilePicture;
    }
  }
}
