/** The sign-up page of src/pages/Signup.tsx: which screen the wizard shows for
    its current step, and the title and description above it. */
module SignupPage {
  import opened Wrappers
  import opened SignupContext

  /** The thirteen creator screens, in wizard order. */
  datatype Screen =
    | UsernameScreen | BasicInfoScreen | VerifyOtpScreen | LocationScreen | TitleScreen
    | BioScreen | GenderScreen | SocialProfilesScreen | ContentCategoriesScreen
    | ContentImagesScreen | ContentPackagesScreen | PhoneVerificationScreen | PaymentScreen

  /** The step a screen is written for. */
  function StepOf(screen: Screen): (k: int)
    ensures 0 <= k < TotalSteps
  {
    match screen
    case UsernameScreen => 0
    case BasicInfoScreen => 1
    case VerifyOtpScreen => 2
    case LocationScreen => 3
    case TitleScreen => 4
    case BioScreen => 5
    case GenderScreen => 6
    case SocialProfilesScreen => 7
    case ContentCategoriesScreen => 8
    case ContentImagesScreen => 9
    case ContentPackagesScreen => 10
    case PhoneVerificationScreen => 11
    case PaymentScreen => 12
  }

  /** `renderStepComponent`: each step in range shows the screen written for it;
      any other value falls back to the username screen. */
  function RenderStepComponent(step: int): (r: Screen)
    ensures 0 <= step < TotalSteps ==> StepOf(r) == step
    ensures !(0 <= step < TotalSteps) ==> r == UsernameScreen
  {
    if step == 0 then UsernameScreen
    else if step == 1 then BasicInfoScreen
    else if step == 2 then VerifyOtpScreen
    else if step == 3 then LocationScreen
    else if step == 4 then TitleScreen
    else if step == 5 then BioScreen
    else if step == 6 then GenderScreen
    else if step == 7 then SocialProfilesScreen
    else if step == 8 then ContentCategoriesScreen
    else if step == 9 then ContentImagesScreen
    else if step == 10 then ContentPackagesScreen
    else if step == 11 then PhoneVerificationScreen
    else if step == 12 then PaymentScreen
    else UsernameScreen
  }

  /** Every screen is reachable, from exactly the step it is written for. */
  lemma RenderStepOf(screen: Screen)
    ensures RenderStepComponent(StepOf(screen)) == screen
  {
  }

  /** Distinct steps in range show distinct screens. */
  lemma RenderStepInjective(a: int, b: int)
    requires 0 <= a < TotalSteps && 0 <= b < TotalSteps
    ensures RenderStepComponent(a) == RenderStepComponent(b) ==> a == b
  {
  }

  datatype StepText = StepText(title: string, description: string)

  /** The `stepInfo` table, indexed by step. */
  const Headings: seq<StepText> := [
    StepText("Claim your username", "Choose a unique username for your profile"),
    StepText("Create your account", "Get started with your content creator journey"),
    StepText("Verify your email", "Enter the 6-digit code we sent to your email"),
    StepText("Where are you located?", "Help brands find you for location-based campaigns"),
    StepText("Introduce yourself", "Add a title that will be shown on your profile"),
    StepText("Describe yourself", "Tell us about you and your content"),
    StepText("What's your gender?", "This helps brands find creators for targeted campaigns"),
    StepText("Add your social channels", "Connect your social profiles and share your follower count"),
    StepText("What content do you create?", "Select categories that describe your content"),
    StepText("Add your content", "Upload images of you and your content (3 minimum + profile picture)"),
    StepText("Your content packages", "Set up the content packages you offer with pricing"),
    StepText("Verify your phone", "Add your phone number to get notified of new orders"),
    StepText("Add payment method", "Add a payment method to receive payments from brands")
  ]

  /** `stepInfo[currentStep]`: the heading of each step, absent outside 0..12. */
  function StepInfo(step: int): (r: Option<StepText>)
    ensures r.Some? <==> 0 <= step < TotalSteps
    ensures r.Some? ==> r.value.title != "" && r.value.description != ""
  {
    if 0 <= step < |Headings| then
      var h := Headings[step];
      assert h.title != "" && h.description != "" by {
        assert Headings[0].title != "" && Headings[0].description != "";
        assert Headings[1].title != "" && Headings[1].description != "";
        assert Headings[2].title != "" && Headings[2].description != "";
        assert Headings[3].title != "" && Headings[3].description != "";
        assert Headings[4].title != "" && Headings[4].description != "";
        assert Headings[5].title != "" && Headings[5].description != "";
        assert Headings[6].title != "" && Headings[6].description != "";
        assert Headings[7].title != "" && Headings[7].description != "";
        assert Headings[8].title != "" && Headings[8].description != "";
        assert Headings[9].title != "" && Headings[9].description != "";
        assert Headings[10].title != "" && Headings[10].description != "";
        assert Headings[11].title != "" && Headings[11].description != "";
        assert Headings[12].title != "" && Headings[12].description != "";
      }
      Some(h)
    else None
  }

  /** `stepInfo[currentStep]?.title || ""` */
  function StepTitle(step: int): (r: string)
    ensures r != "" <==> 0 <= step < TotalSteps
    ensures 0 <= step < TotalSteps ==> r == StepInfo(step).value.title
  {
    match StepInfo(step)
    case Some(info) => if info.title != "" then info.title else ""
    case None => ""
  }

  /** `stepInfo[currentStep]?.description` */
  function StepDescription(step: int): (r: Option<string>)
    ensures r.Some? <==> 0 <= step < TotalSteps
    ensures r.Some? ==> r.value != ""
  {
    match StepInfo(step)
    case Some(info) => Some(info.description)
    case None => None
  }

  /** A step outside 0..12 shows the username screen without its heading: the
      dispatch falls back to step 0, the heading lookup does not. */
  lemma OutOfRangeStepLosesHeading(step: int)
    requires !(0 <= step < TotalSteps)
    ensures RenderStepComponent(step) == RenderStepComponent(0)
    ensures StepTitle(step) == "" && StepTitle(0) == "Claim your username"
    ensures StepDescription(step).None?
  {
  }
}
