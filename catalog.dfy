/**
 * The static data every view reads (constants.ts): the six mock advertisements, in feed
 * order, and the labels of the category bar.
 */
module Catalog {
  import opened Wrappers
  import opened Types

  /** `MOCK_VIDEOS` (constants.ts:6-89). */
  const MockVideos: seq<VideoAd> := [
    VideoAd(
      id := "1", title := "The New Speed: Nike Phantom Series",
      brand := Brand("Nike", "https://images.unsplash.com/photo-1542291026-7eec264c27ff?auto=format&fit=crop&w=64&q=80"),
      thumbnail := "https://images.unsplash.com/photo-1542291026-7eec264c27ff?auto=format&fit=crop&w=800&q=80",
      videoUrl := "https://player.vimeo.com/external/494163966.hd.mp4?s=56e6d1c92b95b866c1e550c609c13554b726b216&profile_id=174",
      duration := "00:15", category := "Flash Deals", style := ContentStyle.Cinematic, ctaText := "Shop the Collection",
      isShoppable := Some(true), hasCoupon := Some(true), industry := Some(Industry.Fashion), isNewDrop := Some(true), timeLeft := Some("01:15:30"), location := None, specs := None, isAffiliate := None, fundingProgress := None),
    VideoAd(
      id := "2", title := "Precision Craft: The 2024 Roadster Edit",
      brand := Brand("Luxe Motors", "https://images.unsplash.com/photo-1503376780353-7e6692767b70?auto=format&fit=crop&w=64&q=80"),
      thumbnail := "https://images.unsplash.com/photo-1503376780353-7e6692767b70?auto=format&fit=crop&w=800&q=80",
      videoUrl := "https://player.vimeo.com/external/434045526.hd.mp4?s=c27cf341d7676443f5daec9317b9df38e6f1f44a&profile_id=174",
      duration := "00:45", category := "Cinematic", style := ContentStyle.Cinematic, ctaText := "Book Test Drive",
      isShoppable := None, hasCoupon := None, industry := Some(Auto), isNewDrop := Some(true), timeLeft := None, location := None, specs := None, isAffiliate := None, fundingProgress := None),
    VideoAd(
      id := "3", title := "Beyond Visuals: Aura Phone 2.0 Launch",
      brand := Brand("Aura", "https://images.unsplash.com/photo-1511707171634-5f897ff02aa9?auto=format&fit=crop&w=64&q=80"),
      thumbnail := "https://images.unsplash.com/photo-1511707171634-5f897ff02aa9?auto=format&fit=crop&w=800&q=80",
      videoUrl := "https://player.vimeo.com/external/459389137.hd.mp4?s=910839e564d720b064c6ed89c646b14243640b72&profile_id=174",
      duration := "01:05", category := "Tech Showcase", style := ContentStyle.Cinematic, ctaText := "Pre-Order Now",
      isShoppable := Some(true), hasCoupon := None, industry := Some(Industry.Tech), isNewDrop := None, timeLeft := None, location := None, specs := Some(["OLED Retina X", "Quantum Chip", "Titanium Frame"]), isAffiliate := None, fundingProgress := None),
    VideoAd(
      id := "4", title := "Summer Essence: The Minimalist Wardrobe",
      brand := Brand("Vogue", "https://images.unsplash.com/photo-1445205170230-053b83016050?auto=format&fit=crop&w=64&q=80"),
      thumbnail := "https://images.unsplash.com/photo-1445205170230-053b83016050?auto=format&fit=crop&w=800&q=80",
      videoUrl := "https://player.vimeo.com/external/372335199.hd.mp4?s=554f67623916298ef922b947a505b82e1436df95&profile_id=174",
      duration := "00:30", category := "Fashion", style := Minimalist, ctaText := "Explore Lookbook",
      isShoppable := None, hasCoupon := None, industry := Some(Industry.Fashion), isNewDrop := Some(true), timeLeft := None, location := None, specs := None, isAffiliate := None, fundingProgress := None),
    VideoAd(
      id := "5", title := "Art of the Brew: Home Barista Masterclass",
      brand := Brand("BeanCo", "https://images.unsplash.com/photo-1495474472287-4d71bcdd2085?auto=format&fit=crop&w=64&q=80"),
      thumbnail := "https://images.unsplash.com/photo-1495474472287-4d71bcdd2085?auto=format&fit=crop&w=800&q=80",
      videoUrl := "https://player.vimeo.com/external/363820251.hd.mp4?s=d0092301844e1388701e19d08e5a7ecb7b255956&profile_id=174",
      duration := "02:15", category := "Tutorials", style := Tutorial, ctaText := "Shop Equipment",
      isShoppable := Some(true), hasCoupon := None, industry := Some(Industry.Home), isNewDrop := None, timeLeft := None, location := None, specs := None, isAffiliate := None, fundingProgress := None),
    VideoAd(
      id := "6", title := "Urban Explorer: Rugged Gear for the City",
      brand := Brand("Wilder", "https://images.unsplash.com/photo-1527631746610-bca00a040d60?auto=format&fit=crop&w=64&q=80"),
      thumbnail := "https://images.unsplash.com/photo-1527631746610-bca00a040d60?auto=format&fit=crop&w=800&q=80",
      videoUrl := "https://player.vimeo.com/external/351608226.hd.mp4?s=8096f48f4951016757656910793b86027a4d469d&profile_id=174",
      duration := "00:50", category := "Near Me", style := UGC, ctaText := "Find Store",
      isShoppable := None, hasCoupon := None, industry := Some(Luxury), isNewDrop := None, timeLeft := None, location := Some("SOHO, New York"), specs := None, isAffiliate := None, fundingProgress := None)
  ]

  /** The label the category bar shows and sends for each category (constants.ts:91-101). */
  function BarLabel(c: Category): string
  {
    match c
    case All => "All"
    case EndingSoon => "\U{26A1} Ending Soon"
    case Coupons => "\U{2702}\U{FE0F} Coupons"
    case Cinematic => "\U{1F3AC} Cinematic"
    case Tech => "\U{1F4F1} Tech"
    case Fashion => "\U{1F457} Fashion"
    case Home => "\U{1F3E0} Home"
    case NewDrops => "\U{1F680} New Drops"
    case NearMe => "\U{1F4CD} Near Me"
  }

  /** `CATEGORIES`, in bar order (constants.ts:91-101). */
  const CategoryLabels: seq<string> := [
    "All",
    "\U{26A1} Ending Soon",
    "\U{2702}\U{FE0F} Coupons",
    "\U{1F3AC} Cinematic",
    "\U{1F4F1} Tech",
    "\U{1F457} Fashion",
    "\U{1F3E0} Home",
    "\U{1F680} New Drops",
    "\U{1F4CD} Near Me"
  ]

  /** Reads a bar label back; any other string names no category. */
  function CategoryOfBarLabel(text: string): (r: Option<Category>)
    ensures r.Some? <==> text in CategoryLabels
    ensures r.Some? ==> BarLabel(r.value) == text
  {
    if text == BarLabel(All) then Some(All)
    else if text == BarLabel(EndingSoon) then Some(EndingSoon)
    else if text == BarLabel(Coupons) then Some(Coupons)
    else if text == BarLabel(Category.Cinematic) then Some(Category.Cinematic)
    else if text == BarLabel(Category.Tech) then Some(Category.Tech)
    else if text == BarLabel(Category.Fashion) then Some(Category.Fashion)
    else if text == BarLabel(Category.Home) then Some(Category.Home)
    else if text == BarLabel(NewDrops) then Some(NewDrops)
    else if text == BarLabel(NearMe) then Some(NearMe)
    else None
  }

  /** Every category reads back from its bar label. */
  lemma BarLabelRoundTrip(c: Category)
    ensures CategoryOfBarLabel(BarLabel(c)) == Some(c)
  {
    match c
    case All =>
    case EndingSoon =>
    case Coupons =>
    case Cinematic =>
    case Tech =>
    case Fashion =>
    case Home =>
    case NewDrops =>
    case NearMe =>
  }

  /** The bar lists the label of each category, in the order of the type, starting with 'All'. */
  lemma CategoryLabelsInOrder()
    ensures |CategoryLabels| == 9 && CategoryLabels[0] == "All"
    ensures forall i :: 0 <= i < 9 ==> CategoryLabels[i] == BarLabel(AllCategories[i])
  {
  }

  /** The nine labels of the bar are distinct, and every category has one. */
  lemma CategoryLabelsDistinct()
    ensures forall i, j :: 0 <= i < j < |CategoryLabels| ==> CategoryLabels[i] != CategoryLabels[j]
    ensures forall c :: BarLabel(c) in CategoryLabels
  {
    CategoryLabelsInOrder();
    forall c: Category ensures BarLabel(c) in CategoryLabels {
      CategoryIsClosed(c);
    }
    forall i, j | 0 <= i < j < |CategoryLabels| ensures CategoryLabels[i] != CategoryLabels[j] {
      CategoryIsClosed(AllCategories[i]);
      BarLabelRoundTrip(AllCategories[i]);
      BarLabelRoundTrip(AllCategories[j]);
    }
  }

  /** No two ads share an id. */
  predicate DistinctIds(catalog: seq<VideoAd>)
  {
    forall i, j :: 0 <= i < j < |catalog| ==> catalog[i].id != catalog[j].id
  }

  /** The catalog holds six ads with ids '1' to '6', in that order. */
  lemma CatalogIds()
    ensures |MockVideos| == 6
    ensures forall i :: 0 <= i < 6 ==> MockVideos[i].id == [(('1' as int) + i) as char]
    ensures DistinctIds(MockVideos)
  {
  }

  /** Only ad '1' carries a coupon and a countdown, which starts at '01:15:30'. */
  lemma CatalogCouponAndCountdown()
    ensures forall v :: v in MockVideos ==> (IsTrue(v.hasCoupon) <==> v.id == "1")
    ensures forall v :: v in MockVideos ==> (HasText(v.timeLeft) <==> v.id == "1")
    ensures MockVideos[0].timeLeft == Some("01:15:30")
  {
  }

  /** Ads '1', '2' and '4' are new drops; only ad '6' has a location. */
  lemma CatalogDropsAndLocations()
    ensures forall v :: v in MockVideos ==> (IsTrue(v.isNewDrop) <==> v.id in {"1", "2", "4"})
    ensures forall v :: v in MockVideos ==> (HasText(v.location) <==> v.id == "6")
  {
  }

  /** The style and the industry of each ad. */
  lemma CatalogStylesAndIndustries()
    ensures [MockVideos[0].style, MockVideos[1].style, MockVideos[2].style, MockVideos[3].style, MockVideos[4].style, MockVideos[5].style]
         == [ContentStyle.Cinematic, ContentStyle.Cinematic, ContentStyle.Cinematic, Minimalist, Tutorial, UGC]
    ensures [MockVideos[0].industry, MockVideos[1].industry, MockVideos[2].industry, MockVideos[3].industry, MockVideos[4].industry, MockVideos[5].industry]
         == [Some(Industry.Fashion), Some(Auto), Some(Industry.Tech), Some(Industry.Fashion), Some(Industry.Home), Some(Luxury)]
  {
  }
}
