/** The social-channels screen (src/components/signup/Step7SocialProfiles.tsx): a
    small form for one channel, a list of added channels (one per platform), and
    a "continue" that saves the list as it stands. */
module Step7SocialProfiles {
  import opened Wrappers
  import opened Lists
  import opened SignupData
  import opened SignupContext

  /** The list on screen and the channel being filled in (`newProfile`). */
  datatype Local = Local(profiles: seq<SocialProfile>, newProfile: SocialProfile)

  /** The blank form: Instagram, no URL, under 1,000 followers. */
  const BlankProfile: SocialProfile := SocialProfile(Instagram, "", Some(Under1k))

  function Mount(s: State): (l: Local)
    ensures l.profiles == s.signupData.socialProfiles && l.newProfile == BlankProfile
  {
    Local(s.signupData.socialProfiles, BlankProfile)
  }

  /** The platform, follower-range and URL inputs of the form. */
  function SetPlatform(l: Local, p: Platform): (r: Local)
    ensures r.newProfile.platform == p && r.newProfile.url == l.newProfile.url
    ensures r.newProfile.followers == l.newProfile.followers && r.profiles == l.profiles
  {
    l.(newProfile := l.newProfile.(platform := p))
  }

  function SetFollowers(l: Local, f: FollowerRange): (r: Local)
    ensures r.newProfile.followers == Some(f) && r.newProfile.platform == l.newProfile.platform
    ensures r.newProfile.url == l.newProfile.url && r.profiles == l.profiles
  {
    l.(newProfile := l.newProfile.(followers := Some(f)))
  }

  function SetUrl(l: Local, url: string): (r: Local)
    ensures r.newProfile.url == url && r.newProfile.platform == l.newProfile.platform
    ensures r.newProfile.followers == l.newProfile.followers && r.profiles == l.profiles
  {
    l.(newProfile := l.newProfile.(url := url))
  }

  /** Some listed channel is on platform `p` (`profiles.find(…)`). */
  predicate HasPlatform(profiles: seq<SocialProfile>, p: Platform) {
    exists i :: 0 <= i < |profiles| && profiles[i].platform == p
  }

  /** No platform is listed twice. */
  predicate DistinctPlatforms(profiles: seq<SocialProfile>) {
    forall i, j :: 0 <= i < j < |profiles| ==> profiles[i].platform != profiles[j].platform
  }

  /** Every listed channel has a URL the URL parser accepts. */
  predicate AllUrlsValid(profiles: seq<SocialProfile>, isValidUrl: string -> bool) {
    forall i :: 0 <= i < |profiles| ==> profiles[i].url != "" && isValidUrl(profiles[i].url)
  }

  datatype AddError =
    | MissingUrl         // "Please enter a URL"
    | InvalidUrl         // "Please enter a valid URL"
    | DuplicatePlatform  // "Platform already added"

  /** `handleAddProfile`: the URL must be non-empty, then parse (`isValidUrl` stands
      for the `URL` constructor not throwing), then the platform must be new; the
      channel is appended and the form is cleared. */
  function AddProfile(l: Local, isValidUrl: string -> bool): (r: Result<Local, AddError>)
    ensures r == Err(MissingUrl) <==> l.newProfile.url == ""
    ensures r == Err(InvalidUrl) <==> l.newProfile.url != "" && !isValidUrl(l.newProfile.url)
    ensures r.Ok? <==>
      l.newProfile.url != "" && isValidUrl(l.newProfile.url) && !HasPlatform(l.profiles, l.newProfile.platform)
    ensures r.Ok? ==> r.value.profiles == l.profiles + [l.newProfile] && r.value.newProfile == BlankProfile
  {
    if l.newProfile.url == "" then Err(MissingUrl)
    else if !isValidUrl(l.newProfile.url) then Err(InvalidUrl)
    else if HasPlatform(l.profiles, l.newProfile.platform) then Err(DuplicatePlatform)
    else Ok(Local(l.profiles + [l.newProfile], BlankProfile))
  }

  /** `handleRemoveProfile(index)`: `splice(index, 1)` on the list. */
  function RemoveProfile(l: Local, index: nat): (r: Local)
    ensures index < |l.profiles| ==> |r.profiles| == |l.profiles| - 1
    ensures index < |l.profiles| ==> multiset(r.profiles) == multiset(l.profiles) - multiset{l.profiles[index]}
    ensures index >= |l.profiles| ==> r == l
    ensures index < |l.profiles| ==> r.profiles == l.profiles[..index] + l.profiles[index + 1..]
    ensures r.profiles == RemoveAt(l.profiles, index)
    ensures r.newProfile == l.newProfile
  {
    assert index < |l.profiles| ==>
      multiset(RemoveAt(l.profiles, index)) == multiset(l.profiles) - multiset{l.profiles[index]} by {
      if index < |l.profiles| {
        RemoveAtMultiset(l.profiles, index);
      }
    }
    l.(profiles := RemoveAt(l.profiles, index))
  }

  /** Adding keeps the list one-per-platform with parseable URLs. */
  lemma AddKeepsListWellFormed(l: Local, isValidUrl: string -> bool)
    requires DistinctPlatforms(l.profiles) && AllUrlsValid(l.profiles, isValidUrl)
    ensures AddProfile(l, isValidUrl).Ok? ==>
      var r := AddProfile(l, isValidUrl).value;
      DistinctPlatforms(r.profiles) && AllUrlsValid(r.profiles, isValidUrl)
  {
    if AddProfile(l, isValidUrl).Ok? {
      var ps := l.profiles + [l.newProfile];
      forall i, j | 0 <= i < j < |ps| ensures ps[i].platform != ps[j].platform {
        if j == |l.profiles| {
          assert ps[i] == l.profiles[i];
        }
      }
    }
  }

  /** Removing keeps the list one-per-platform with parseable URLs. */
  lemma RemoveKeepsListWellFormed(l: Local, index: nat, isValidUrl: string -> bool)
    requires DistinctPlatforms(l.profiles) && AllUrlsValid(l.profiles, isValidUrl)
    ensures DistinctPlatforms(RemoveProfile(l, index).profiles)
    ensures AllUrlsValid(RemoveProfile(l, index).profiles, isValidUrl)
  {
    var r := RemoveProfile(l, index).profiles;
    forall i | 0 <= i < |r| ensures r[i] == l.profiles[if i < index then i else i + 1] {
    }
  }

  /** Removing the channel just added restores the list. */
  lemma AddThenRemoveRestores(l: Local, isValidUrl: string -> bool)
    requires AddProfile(l, isValidUrl).Ok?
    ensures RemoveProfile(AddProfile(l, isValidUrl).value, |l.profiles|).profiles == l.profiles
  {
    var ps := l.profiles + [l.newProfile];
    assert ps[..|l.profiles|] == l.profiles;
  }

  /** `handleSubmit`: the list is saved as it stands (it may be empty) and the wizard
      moves to step 8. */
  function Submit(s: State, l: Local): (r: State)
    ensures r.currentStep == 8 && r.signupData.socialProfiles == l.profiles
    ensures r.completedSteps == s.completedSteps
    ensures OnlyChanged(s.signupData, r.signupData, {SocialProfilesField})
  {
    var p := NoChange.(socialProfiles := Some(l.profiles));
    assert forall f :: PatchGet(p, f).Some? <==> f == SocialProfilesField;
    Advance(s, p, 8)
  }

  /** `handleGoBack`: unsaved changes to the list are discarded. */
  function Back(s: State): (r: State)
    ensures r.currentStep == 6 && r.signupData == s.signupData && r.completedSteps == s.completedSteps
  {
    SetCurrentStep(s, 6)
  }
}
