/** The draft record every sign-up screen reads and writes (`SignupData` in
    src/contexts/SignupContext.tsx), its initial value, and the partial update
    `{ ...prev, ...data }` the container applies to it.

    To state "this handler writes these fields and no others" the module also
    gives a uniform view of the record: `Get(d, f)` reads field `f` as a `Value`. */
module SignupData {
  import opened Wrappers

  // ---------------------------------------------------------------------------
  // Enumerations of the source's string-literal union types
  // ---------------------------------------------------------------------------

  datatype Industry = Agency | Ecommerce | WebsiteApp | BrickAndMortar | OtherBusiness
  datatype Category =
    Fashion | Beauty | Travel | FoodDrink | Tech | Finance | Health | Education | Entertainment | Sports
  datatype Platform = Instagram | TikTok | Twitter | YouTube | Twitch | Amazon | Website | Ugc
  datatype ContentVolume = Pieces0To5 | Pieces5To10 | Pieces10To20 | Pieces20To50 | Pieces50Plus
  datatype Budget = Under10k | Range10kTo50k | Range50kTo100k | Range100kTo500k | Above500k
  datatype Gender = Male | Female | NonBinary | PreferNotToSay
  datatype FollowerRange =
    | Under1k | Followers1kTo5k | Followers5kTo10k | Followers10kTo50k
    | Followers50kTo100k | Followers100kTo500k | Followers500kTo1m | Over1m
  datatype PackageType = InstagramPost | InstagramReel | TikTokVideo | Tweet | YouTubeVideo | OtherContent

  // ---------------------------------------------------------------------------
  // Records
  // ---------------------------------------------------------------------------

  datatype SocialProfile = SocialProfile(platform: Platform, url: string, followers: Option<FollowerRange>)

  /** `isProfilePicture` is optional in the source; an absent flag reads as false. */
  datatype ContentImage = ContentImage(url: string, isProfilePicture: bool)

  /** `price` is the number the price field holds (the text-to-number parse is not modelled). */
  datatype ContentPackage = ContentPackage(kind: PackageType, description: string, price: real)

  datatype PaymentMethod = PaymentMethod(cardNumber: string, expiryDate: string, cvv: string, nameOnCard: string)

  datatype SignupData = SignupData(
    username: string,
    name: string,
    email: string,
    password: string,
    brandName: string,
    isVerified: bool,
    location: string,
    title: string,
    bio: string,
    gender: Option<Gender>,
    socialProfiles: seq<SocialProfile>,
    contentCategories: seq<Category>,
    contentImages: seq<ContentImage>,
    contentPackages: seq<ContentPackage>,
    phoneNumber: string,
    countryCode: string,
    phoneVerified: bool,
    paymentMethod: Option<PaymentMethod>,
    industry: Option<Industry>,
    categories: seq<Category>,
    platforms: seq<Platform>,
    contentVolume: Option<ContentVolume>,
    budget: Option<Budget>)

  /** `Partial<SignupData>`: every field may be absent. */
  datatype Patch = Patch(
    username: Option<string>,
    name: Option<string>,
    email: Option<string>,
    password: Option<string>,
    brandName: Option<string>,
    isVerified: Option<bool>,
    location: Option<string>,
    title: Option<string>,
    bio: Option<string>,
    gender: Option<Option<Gender>>,
    socialProfiles: Option<seq<SocialProfile>>,
    contentCategories: Option<seq<Category>>,
    contentImages: Option<seq<ContentImage>>,
    contentPackages: Option<seq<ContentPackage>>,
    phoneNumber: Option<string>,
    countryCode: Option<string>,
    phoneVerified: Option<bool>,
    paymentMethod: Option<Option<PaymentMethod>>,
    industry: Option<Option<Industry>>,
    categories: Option<seq<Category>>,
    platforms: Option<seq<Platform>>,
    contentVolume: Option<Option<ContentVolume>>,
    budget: Option<Option<Budget>>)

  /** The empty partial record `{}`; handlers build their updates from it. */
  const NoChange: Patch := Patch(
    None, None, None, None, None, None, None, None, None, None, None, None,
    None, None, None, None, None, None, None, None, None, None, None)

  // ---------------------------------------------------------------------------
  // A uniform view of the fields
  // ---------------------------------------------------------------------------

  datatype Field =
    | UsernameField | NameField | EmailField | PasswordField | BrandNameField | IsVerifiedField
    | LocationField | TitleField | BioField | GenderField | SocialProfilesField
    | ContentCategoriesField | ContentImagesField | ContentPackagesField | PhoneNumberField
    | CountryCodeField | PhoneVerifiedField | PaymentMethodField | IndustryField | CategoriesField
    | PlatformsField | ContentVolumeField | BudgetField

  datatype Value =
    | Text(text: string)
    | Flag(flag: bool)
    | GenderChoice(gender: Option<Gender>)
    | Profiles(profiles: seq<SocialProfile>)
    | CategoryList(categoryList: seq<Category>)
    | Images(images: seq<ContentImage>)
    | Packages(packages: seq<ContentPackage>)
    | Payment(payment: Option<PaymentMethod>)
    | IndustryChoice(industry: Option<Industry>)
    | PlatformList(platformList: seq<Platform>)
    | VolumeChoice(volume: Option<ContentVolume>)
    | BudgetChoice(budget: Option<Budget>)

  function Get(d: SignupData, f: Field): Value {
    match f
    case UsernameField => Text(d.username)
    case NameField => Text(d.name)
    case EmailField => Text(d.email)
    case PasswordField => Text(d.password)
    case BrandNameField => Text(d.brandName)
    case IsVerifiedField => Flag(d.isVerified)
    case LocationField => Text(d.location)
    case TitleField => Text(d.title)
    case BioField => Text(d.bio)
    case GenderField => GenderChoice(d.gender)
    case SocialProfilesField => Profiles(d.socialProfiles)
    case ContentCategoriesField => CategoryList(d.contentCategories)
    case ContentImagesField => Images(d.contentImages)
    case ContentPackagesField => Packages(d.contentPackages)
    case PhoneNumberField => Text(d.phoneNumber)
    case CountryCodeField => Text(d.countryCode)
    case PhoneVerifiedField => Flag(d.phoneVerified)
    case PaymentMethodField => Payment(d.paymentMethod)
    case IndustryField => IndustryChoice(d.industry)
    case CategoriesField => CategoryList(d.categories)
    case PlatformsField => PlatformList(d.platforms)
    case ContentVolumeField => VolumeChoice(d.contentVolume)
    case BudgetField => BudgetChoice(d.budget)
  }

  /** The value a patch gives field `f`, if it mentions `f` at all. */
  function PatchGet(p: Patch, f: Field): Option<Value> {
    match f
    case UsernameField => if p.username.Some? then Some(Text(p.username.value)) else None
    case NameField => if p.name.Some? then Some(Text(p.name.value)) else None
    case EmailField => if p.email.Some? then Some(Text(p.email.value)) else None
    case PasswordField => if p.password.Some? then Some(Text(p.password.value)) else None
    case BrandNameField => if p.brandName.Some? then Some(Text(p.brandName.value)) else None
    case IsVerifiedField => if p.isVerified.Some? then Some(Flag(p.isVerified.value)) else None
    case LocationField => if p.location.Some? then Some(Text(p.location.value)) else None
    case TitleField => if p.title.Some? then Some(Text(p.title.value)) else None
    case BioField => if p.bio.Some? then Some(Text(p.bio.value)) else None
    case GenderField => if p.gender.Some? then Some(GenderChoice(p.gender.value)) else None
    case SocialProfilesField =>
      if p.socialProfiles.Some? then Some(Profiles(p.socialProfiles.value)) else None
    case ContentCategoriesField =>
      if p.contentCategories.Some? then Some(CategoryList(p.contentCategories.value)) else None
    case ContentImagesField =>
      if p.contentImages.Some? then Some(Images(p.contentImages.value)) else None
    case ContentPackagesField =>
      if p.contentPackages.Some? then Some(Packages(p.contentPackages.value)) else None
    case PhoneNumberField => if p.phoneNumber.Some? then Some(Text(p.phoneNumber.value)) else None
    case CountryCodeField => if p.countryCode.Some? then Some(Text(p.countryCode.value)) else None
    case PhoneVerifiedField => if p.phoneVerified.Some? then Some(Flag(p.phoneVerified.value)) else None
    case PaymentMethodField =>
      if p.paymentMethod.Some? then Some(Payment(p.paymentMethod.value)) else None
    case IndustryField => if p.industry.Some? then Some(IndustryChoice(p.industry.value)) else None
    case CategoriesField => if p.categories.Some? then Some(CategoryList(p.categories.value)) else None
    case PlatformsField => if p.platforms.Some? then Some(PlatformList(p.platforms.value)) else None
    case ContentVolumeField =>
      if p.contentVolume.Some? then Some(VolumeChoice(p.contentVolume.value)) else None
    case BudgetField => if p.budget.Some? then Some(BudgetChoice(p.budget.value)) else None
  }

  /** `a` and `b` agree on every field outside `written`. */
  predicate OnlyChanged(a: SignupData, b: SignupData, written: set<Field>) {
    forall f :: f !in written ==> Get(a, f) == Get(b, f)
  }

  /** Records are determined by their fields. */
  lemma FieldsDetermineRecord(a: SignupData, b: SignupData)
    requires forall f :: Get(a, f) == Get(b, f)
    ensures a == b
  {
    assert a.username == b.username by { assert Get(a, UsernameField) == Get(b, UsernameField); }
    assert a.name == b.name by { assert Get(a, NameField) == Get(b, NameField); }
    assert a.email == b.email by { assert Get(a, EmailField) == Get(b, EmailField); }
    assert a.password == b.password by { assert Get(a, PasswordField) == Get(b, PasswordField); }
    assert a.brandName == b.brandName by { assert Get(a, BrandNameField) == Get(b, BrandNameField); }
    assert a.isVerified == b.isVerified by { assert Get(a, IsVerifiedField) == Get(b, IsVerifiedField); }
    assert a.location == b.location by { assert Get(a, LocationField) == Get(b, LocationField); }
    assert a.title == b.title by { assert Get(a, TitleField) == Get(b, TitleField); }
    assert a.bio == b.bio by { assert Get(a, BioField) == Get(b, BioField); }
    assert a.gender == b.gender by { assert Get(a, GenderField) == Get(b, GenderField); }
    assert a.socialProfiles == b.socialProfiles by { assert Get(a, SocialProfilesField) == Get(b, SocialProfilesField); }
    assert a.contentCategories == b.contentCategories by { assert Get(a, ContentCategoriesField) == Get(b, ContentCategoriesField); }
    assert a.contentImages == b.contentImages by { assert Get(a, ContentImagesField) == Get(b, ContentImagesField); }
    assert a.contentPackages == b.contentPackages by { assert Get(a, ContentPackagesField) == Get(b, ContentPackagesField); }
    assert a.phoneNumber == b.phoneNumber by { assert Get(a, PhoneNumberField) == Get(b, PhoneNumberField); }
    assert a.countryCode == b.countryCode by { assert Get(a, CountryCodeField) == Get(b, CountryCodeField); }
    assert a.phoneVerified == b.phoneVerified by { assert Get(a, PhoneVerifiedField) == Get(b, PhoneVerifiedField); }
    assert a.paymentMethod == b.paymentMethod by { assert Get(a, PaymentMethodField) == Get(b, PaymentMethodField); }
    assert a.industry == b.industry by { assert Get(a, IndustryField) == Get(b, IndustryField); }
    assert a.categories == b.categories by { assert Get(a, CategoriesField) == Get(b, CategoriesField); }
    assert a.platforms == b.platforms by { assert Get(a, PlatformsField) == Get(b, PlatformsField); }
    assert a.contentVolume == b.contentVolume by { assert Get(a, ContentVolumeField) == Get(b, ContentVolumeField); }
    assert a.budget == b.budget by { assert Get(a, BudgetField) == Get(b, BudgetField); }
  }

  // ---------------------------------------------------------------------------
  // Initial value and partial update
  // ---------------------------------------------------------------------------

  /** The value a field holds when nothing has been entered: "", false, null or []. */
  predicate IsEmptyValue(v: Value) {
    match v
    case Text(s) => s == ""
    case Flag(b) => !b
    case GenderChoice(o) => o.None?
    case Profiles(xs) => xs == []
    case CategoryList(xs) => xs == []
    case Images(xs) => xs == []
    case Packages(xs) => xs == []
    case Payment(o) => o.None?
    case IndustryChoice(o) => o.None?
    case PlatformList(xs) => xs == []
    case VolumeChoice(o) => o.None?
    case BudgetChoice(o) => o.None?
  }

  /** `initialSignupData`: every field empty except the country code, which is "+1". */
  function Initial(): (d: SignupData)
    ensures forall f :: f != CountryCodeField ==> IsEmptyValue(Get(d, f))
    ensures Get(d, CountryCodeField) == Text("+1")
  {
    SignupData(
      username := "", name := "", email := "", password := "", brandName := "",
      isVerified := false, location := "", title := "", bio := "", gender := None,
      socialProfiles := [], contentCategories := [], contentImages := [], contentPackages := [],
      phoneNumber := "", countryCode := "+1", phoneVerified := false, paymentMethod := None,
      industry := None, categories := [], platforms := [], contentVolume := None, budget := None)
  }

  /** `{ ...prev, ...data }`: the fields `p` mentions take its values, the others keep theirs. */
  function Merge(d: SignupData, p: Patch): (r: SignupData)
    ensures forall f :: PatchGet(p, f).Some? ==> Get(r, f) == PatchGet(p, f).value
    ensures forall f :: PatchGet(p, f).None? ==> Get(r, f) == Get(d, f)
  {
    SignupData(
      username := p.username.GetOr(d.username),
      name := p.name.GetOr(d.name),
      email := p.email.GetOr(d.email),
      password := p.password.GetOr(d.password),
      brandName := p.brandName.GetOr(d.brandName),
      isVerified := p.isVerified.GetOr(d.isVerified),
      location := p.location.GetOr(d.location),
      title := p.title.GetOr(d.title),
      bio := p.bio.GetOr(d.bio),
      gender := p.gender.GetOr(d.gender),
      socialProfiles := p.socialProfiles.GetOr(d.socialProfiles),
      contentCategories := p.contentCategories.GetOr(d.contentCategories),
      contentImages := p.contentImages.GetOr(d.contentImages),
      contentPackages := p.contentPackages.GetOr(d.contentPackages),
      phoneNumber := p.phoneNumber.GetOr(d.phoneNumber),
      countryCode := p.countryCode.GetOr(d.countryCode),
      phoneVerified := p.phoneVerified.GetOr(d.phoneVerified),
      paymentMethod := p.paymentMethod.GetOr(d.paymentMethod),
      industry := p.industry.GetOr(d.industry),
      categories := p.categories.GetOr(d.categories),
      platforms := p.platforms.GetOr(d.platforms),
      contentVolume := p.contentVolume.GetOr(d.contentVolume),
      budget := p.budget.GetOr(d.budget))
  }

  /** The fields a patch mentions. */
  function Mentioned(p: Patch): set<Field> {
    set f: Field | PatchGet(p, f).Some?
  }

  /** A merge only writes the fields the patch mentions. */
  lemma MergeOnlyChangesMentioned(d: SignupData, p: Patch)
    ensures OnlyChanged(d, Merge(d, p), Mentioned(p))
  {
  }

  /** Two successive partial updates, as one: later fields win. */
  function Then(p: Patch, q: Patch): Patch {
    Patch(
      username := if q.username.Some? then q.username else p.username,
      name := if q.name.Some? then q.name else p.name,
      email := if q.email.Some? then q.email else p.email,
      password := if q.password.Some? then q.password else p.password,
      brandName := if q.brandName.Some? then q.brandName else p.brandName,
      isVerified := if q.isVerified.Some? then q.isVerified else p.isVerified,
      location := if q.location.Some? then q.location else p.location,
      title := if q.title.Some? then q.title else p.title,
      bio := if q.bio.Some? then q.bio else p.bio,
      gender := if q.gender.Some? then q.gender else p.gender,
      socialProfiles := if q.socialProfiles.Some? then q.socialProfiles else p.socialProfiles,
      contentCategories := if q.contentCategories.Some? then q.contentCategories else p.contentCategories,
      contentImages := if q.contentImages.Some? then q.contentImages else p.contentImages,
      contentPackages := if q.contentPackages.Some? then q.contentPackages else p.contentPackages,
      phoneNumber := if q.phoneNumber.Some? then q.phoneNumber else p.phoneNumber,
      countryCode := if q.countryCode.Some? then q.countryCode else p.countryCode,
      phoneVerified := if q.phoneVerified.Some? then q.phoneVerified else p.phoneVerified,
      paymentMethod := if q.paymentMethod.Some? then q.paymentMethod else p.paymentMethod,
      industry := if q.industry.Some? then q.industry else p.industry,
      categories := if q.categories.Some? then q.categories else p.categories,
      platforms := if q.platforms.Some? then q.platforms else p.platforms,
      contentVolume := if q.contentVolume.Some? then q.contentVolume else p.contentVolume,
      budget := if q.budget.Some? then q.budget else p.budget)
  }

  /** A field of the combined patch comes from the later patch when it mentions the
      field, from the earlier one otherwise. */
  lemma ThenPrefersLater(p: Patch, q: Patch)
    ensures forall f :: PatchGet(Then(p, q), f) == if PatchGet(q, f).Some? then PatchGet(q, f) else PatchGet(p, f)
  {
    forall f ensures PatchGet(Then(p, q), f) == if PatchGet(q, f).Some? then PatchGet(q, f) else PatchGet(p, f) {
      match f
      case UsernameField =>
      case NameField =>
      case EmailField =>
      case PasswordField =>
      case BrandNameField =>
      case IsVerifiedField =>
      case LocationField =>
      case TitleField =>
      case BioField =>
      case GenderField =>
      case SocialProfilesField =>
      case ContentCategoriesField =>
      case ContentImagesField =>
      case ContentPackagesField =>
      case PhoneNumberField =>
      case CountryCodeField =>
      case PhoneVerifiedField =>
      case PaymentMethodField =>
      case IndustryField =>
      case CategoriesField =>
      case PlatformsField =>
      case ContentVolumeField =>
      case BudgetField =>
    }
  }

  /** Last write wins: two updates in a row equal one update with the later values on
      top. Both sides unfold to one record, field by field. */
  lemma MergeTwiceIsMergeOfThen(d: SignupData, p: Patch, q: Patch)
    ensures Merge(Merge(d, p), q) == Merge(d, Then(p, q))
  {
  }

  /** The empty update changes nothing. */
  lemma MergeNoChange(d: SignupData)
    ensures Merge(d, NoChange) == d
  {
    FieldsDetermineRecord(Merge(d, NoChange), d);
  }

  /** Repeating an update changes nothing more. */
  lemma MergeIdempotent(d: SignupData, p: Patch)
    ensures Merge(Merge(d, p), p) == Merge(d, p)
  {
    FieldsDetermineRecord(Merge(Merge(d, p), p), Merge(d, p));
  }
}
