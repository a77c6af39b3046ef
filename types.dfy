/**
 * The shared vocabulary of the app (types.ts): the feed categories, the content styles and
 * industries an ad can carry, the ad record itself, the merchant campaign status and the
 * ids of the top-level views.  An optional TypeScript property is an `Option`.
 */
module Types {
  import opened Wrappers

  /** The feed filters (types.ts:2-11). */
  datatype Category = All | EndingSoon | Coupons | Cinematic | Tech | Fashion | Home | NewDrops | NearMe

  const AllCategories: seq<Category> :=
    [All, EndingSoon, Coupons, Category.Cinematic, Category.Tech, Category.Fashion, Category.Home, NewDrops, NearMe]

  /** The plain label types.ts gives each category. */
  function CategoryLabel(c: Category): string
  {
    match c
    case All => "All"
    case EndingSoon => "Ending Soon"
    case Coupons => "Coupons"
    case Cinematic => "Cinematic"
    case Tech => "Tech"
    case Fashion => "Fashion"
    case Home => "Home"
    case NewDrops => "New Drops"
    case NearMe => "Near Me"
  }

  /** Reads a plain label back; any other string is not a `Category`. */
  function CategoryOfLabel(text: string): (r: Option<Category>)
    ensures r.Some? ==> CategoryLabel(r.value) == text
  {
    if text == "All" then Some(All)
    else if text == "Ending Soon" then Some(EndingSoon)
    else if text == "Coupons" then Some(Coupons)
    else if text == "Cinematic" then Some(Category.Cinematic)
    else if text == "Tech" then Some(Category.Tech)
    else if text == "Fashion" then Some(Category.Fashion)
    else if text == "Home" then Some(Category.Home)
    else if text == "New Drops" then Some(NewDrops)
    else if text == "Near Me" then Some(NearMe)
    else None
  }

  /** Category is a closed set of nine values with nine distinct labels, each of which reads back. */
  lemma CategoryIsClosed(c: Category)
    ensures c in AllCategories
    ensures |AllCategories| == 9 && AllCategories[0] == All
    ensures CategoryOfLabel(CategoryLabel(c)) == Some(c)
    ensures forall i, j :: 0 <= i < j < |AllCategories| ==> CategoryLabel(AllCategories[i]) != CategoryLabel(AllCategories[j])
  {
    match c
    case All =>
    case EndingSoon =>
    case Coupons =>
    case Cinematic =>
    case Tech =>
    case Fashion =>
    case Home =>
    case NewDrops =>
    case NearMe =>
  }

  /** The style every ad is shot in (types.ts:13). */
  datatype ContentStyle = Cinematic | UGC | Minimalist | Tutorial

  /** The industries an ad may be tagged with (types.ts:30). */
  datatype Industry = Tech | Fashion | Home | Auto | Luxury

  /** An ad's brand: a name and a logo, and no id (types.ts:18-21). */
  datatype Brand = Brand(name: string, logo: string)

  datatype FundingProgress = FundingProgress(current: int, target: int)

  /** One video advertisement of the catalog (types.ts:15-40). */
  datatype VideoAd = VideoAd(
    id: string,
    title: string,
    brand: Brand,
    thumbnail: string,
    videoUrl: string,
    duration: string,
    category: string,
    style: ContentStyle,
    ctaText: string,
    isShoppable: Option<bool>,
    hasCoupon: Option<bool>,
    industry: Option<Industry>,
    isNewDrop: Option<bool>,
    timeLeft: Option<string>,
    location: Option<string>,
    specs: Option<seq<string>>,
    isAffiliate: Option<bool>,
    fundingProgress: Option<FundingProgress>)

  /** JavaScript truthiness of an optional flag: absent and `false` are both falsy. */
  predicate IsTrue(flag: Option<bool>)
  {
    flag == Some(true)
  }

  /** JavaScript truthiness of an optional string: absent and `''` are both falsy. */
  predicate HasText(text: Option<string>)
  {
    text.Some? && text.value != ""
  }

  /** The lifecycle of a merchant campaign (types.ts:42). */
  datatype CampaignStatus = Active | Draft | Expired | SoldOut

  function StatusLabel(s: CampaignStatus): string
  {
    match s
    case Active => "Active"
    case Draft => "Draft"
    case Expired => "Expired"
    case SoldOut => "Sold Out"
  }

  function StatusOfLabel(text: string): (r: Option<CampaignStatus>)
    ensures r.Some? ==> StatusLabel(r.value) == text
  {
    if text == "Active" then Some(Active)
    else if text == "Draft" then Some(Draft)
    else if text == "Expired" then Some(Expired)
    else if text == "Sold Out" then Some(SoldOut)
    else None
  }

  /** CampaignStatus is a closed set of four values whose labels read back. */
  lemma StatusLabelRoundTrip(s: CampaignStatus)
    ensures StatusOfLabel(StatusLabel(s)) == Some(s)
  {
    match s
    case Active =>
    case Draft =>
    case Expired =>
    case SoldOut =>
  }

  /** A row of the merchant dashboard (types.ts:44-53). */
  datatype MerchantCampaign = MerchantCampaign(
    id: string, title: string, campaignType: string, status: CampaignStatus,
    views: string, clips: string, ctr: string, spend: string)

  /** The top-level views (types.ts:55). */
  datatype Tab = Home | Nearby | Wallet | Updates | Profile | VideoPlayer | Merchant

  function TabId(t: Tab): string
  {
    match t
    case Home => "home"
    case Nearby => "nearby"
    case Wallet => "wallet"
    case Updates => "updates"
    case Profile => "profile"
    case VideoPlayer => "video-player"
    case Merchant => "merchant"
  }

  function TabOf(id: string): (r: Option<Tab>)
    ensures r.Some? ==> TabId(r.value) == id
  {
    if id == "home" then Some(Tab.Home)
    else if id == "nearby" then Some(Nearby)
    else if id == "wallet" then Some(Wallet)
    else if id == "updates" then Some(Updates)
    else if id == "profile" then Some(Profile)
    else if id == "video-player" then Some(VideoPlayer)
    else if id == "merchant" then Some(Merchant)
    else None
  }

  /** Tab is a closed set of seven ids, each of which reads back. */
  lemma TabIdRoundTrip(t: Tab)
    ensures TabOf(TabId(t)) == Some(t)
  {
    match t
    case Home =>
    case Nearby =>
    case Wallet =>
    case Updates =>
    case Profile =>
    case VideoPlayer =>
    case Merchant =>
  }

  /**
   * What App's `activeTab` cell can hold at run time: a `Tab`, or an id that the sidebar
   * sends although it is not one (the type is not enforced on the callback's argument).
   */
  datatype TabValue = InTab(tab: Tab) | OutsideTab(id: string)

  /** The value the cell takes when a navigation control passes it `id`. */
  function TabValueOf(id: string): (v: TabValue)
    ensures v.InTab? <==> TabOf(id).Some?
    ensures v.InTab? ==> TabId(v.tab) == id
    ensures v.OutsideTab? ==> v.id == id
  {
    match TabOf(id)
    case Some(t) => InTab(t)
    case None => OutsideTab(id)
  }
}
