/**
 * The brand showroom (views/ShowroomView.tsx): the ads it lists, its four shelves, the
 * checks on a custom banner video and logo, and its toggles and tabs.
 */
module Showroom {
  import opened Wrappers
  import opened Types
  import opened Sequences
  import opened Catalog

  /** The showroom's own tabs (views/ShowroomView.tsx:19, views/ShowroomView.tsx:88-93). */
  datatype StoreTab = ShowroomTab | CatalogTab | LocationsTab | QandATab

  function StoreTabId(t: StoreTab): string
  {
    match t
    case ShowroomTab => "Showroom"
    case CatalogTab => "Catalog"
    case LocationsTab => "Locations"
    case QandATab => "Q&A"
  }

  /** The tab buttons, in order. */
  const StoreTabs: seq<StoreTab> := [ShowroomTab, CatalogTab, LocationsTab, QandATab]

  /** The four tabs carry four distinct ids, and every tab has a button. */
  lemma StoreTabIds(t: StoreTab)
    ensures t in StoreTabs
    ensures forall i, j :: 0 <= i < j < |StoreTabs| ==> StoreTabId(StoreTabs[i]) != StoreTabId(StoreTabs[j])
  {
  }

  /**
   * What reading `brand.id` yields: the brand record has a name and a logo and no id
   * (types.ts:18-21), so the property is always undefined.
   */
  function BrandIdOf(b: Brand): Option<string>
  {
    None
  }

  /** The test `brandVideos` passes to `filter` when a brand id is given. */
  function OfBrand(brandId: Option<string>): VideoAd -> bool
  {
    (v: VideoAd) => BrandIdOf(v.brand) == brandId
  }

  /**
   * `brandVideos` (views/ShowroomView.tsx:34): without a brand id the whole catalog; with
   * one, the ads whose brand carries that id, which is none of them.
   */
  function BrandVideos(catalog: seq<VideoAd>, brandId: Option<string>): (r: seq<VideoAd>)
    ensures IsSubsequence(r, catalog)
    ensures !HasText(brandId) ==> r == catalog
    ensures HasText(brandId) ==> r == []
  {
    if HasText(brandId) then
      FilterKeepsNone(catalog, OfBrand(brandId));
      Filter(catalog, OfBrand(brandId))
    else
      SubsequenceOfItself(catalog);
      catalog
  }

  /** The shelves of the showroom tab (views/ShowroomView.tsx:340-343). */
  datatype Shelf = NewDropsShelf | ShowcaseShelf | TutorialsShelf | InfluencerShelf

  /** The test each shelf applies to an ad. */
  predicate OnShelf(shelf: Shelf, v: VideoAd)
  {
    match shelf
    case NewDropsShelf => IsTrue(v.isNewDrop)
    case ShowcaseShelf => v.style == ContentStyle.Cinematic
    case TutorialsShelf => v.style == ContentStyle.Tutorial
    case InfluencerShelf => v.style == ContentStyle.UGC
  }

  function ShelfTest(shelf: Shelf): VideoAd -> bool
  {
    v => OnShelf(shelf, v)
  }

  /** A shelf's videos: exactly the catalog's ads that pass its test, in catalog order. */
  function ShelfVideos(catalog: seq<VideoAd>, shelf: Shelf): (r: seq<VideoAd>)
    ensures IsSubsequence(r, catalog)
    ensures forall v :: v in r <==> v in catalog && OnShelf(shelf, v)
    ensures forall v :: multiset(r)[v] == if OnShelf(shelf, v) then multiset(catalog)[v] else 0
  {
    Filter(catalog, ShelfTest(shelf))
  }

  /** Each style shelf is disjoint from the others: an ad has one style. */
  lemma StyleShelvesDisjoint(catalog: seq<VideoAd>, a: Shelf, b: Shelf)
    requires a != NewDropsShelf && b != NewDropsShelf && a != b
    ensures forall v :: v in ShelfVideos(catalog, a) ==> v !in ShelfVideos(catalog, b)
  {
  }

  /** In the catalog, the tutorials shelf holds ad '5' alone... */
  lemma TutorialsShelfOfCatalog()
    ensures ShelfVideos(MockVideos, TutorialsShelf) == [MockVideos[4]]
  {
    CatalogStylesAndIndustries();
    FilterKeepsOne(MockVideos, ShelfTest(TutorialsShelf), 4);
  }

  /** ...and the influencer shelf ad '6' alone. */
  lemma InfluencerShelfOfCatalog()
    ensures ShelfVideos(MockVideos, InfluencerShelf) == [MockVideos[5]]
  {
    CatalogStylesAndIndustries();
    FilterKeepsOne(MockVideos, ShelfTest(InfluencerShelf), 5);
  }

  /** The message for a banner that is not a video. */
  const NotVideoError := "Please upload a valid video file."

  /** The message for a banner taller than it is wide. */
  const PortraitError := "Please upload a landscape video."

  /**
   * A chosen file: its MIME type, and the width and height its metadata reports once
   * loaded (absent when the metadata never loads).
   */
  datatype MediaFile = MediaFile(mimeType: string, size: Option<Size>)

  datatype Size = Size(width: nat, height: nat)

  /** The outcome of choosing a banner (views/ShowroomView.tsx:48-73). */
  datatype BannerOutcome = NoFile | NotVideo | Portrait | Accepted | MetadataPending

  /**
   * The banner check: a video MIME type is required, then a frame no taller than it is wide;
   * a square frame passes.
   */
  function BannerCheck(file: Option<MediaFile>): (r: BannerOutcome)
    ensures r == Accepted <==> file.Some? && "video/" <= file.value.mimeType && file.value.size.Some? && file.value.size.value.height <= file.value.size.value.width
    ensures r == NotVideo <==> file.Some? && !("video/" <= file.value.mimeType)
    ensures r == Portrait <==> file.Some? && "video/" <= file.value.mimeType && file.value.size.Some? && file.value.size.value.height > file.value.size.value.width
    ensures r == NoFile <==> file.None?
  {
    match file
    case None => NoFile
    case Some(f) =>
      if !("video/" <= f.mimeType) then NotVideo
      else match f.size
        case None => MetadataPending
        case Some(sz) => if sz.height > sz.width then Portrait else Accepted
  }

  /** The showroom's state cells (views/ShowroomView.tsx:19-27). */
  class Storefront {
    var activeTab: StoreTab
    var isClipped: bool
    var isTracked: bool
    var isMuted: bool
    var customBannerUrl: Option<string>
    var customLogoUrl: Option<string>
    var bannerError: Option<string>

    /** Mounting: the showroom tab, nothing clipped or tracked, sound muted, no custom media, no error. */
    constructor ()
      ensures activeTab == ShowroomTab && !isClipped && !isTracked && isMuted
      ensures customBannerUrl == None && customLogoUrl == None && bannerError == None
    {
      activeTab := ShowroomTab;
      isClipped := false;
      isTracked := false;
      isMuted := true;
      customBannerUrl := None;
      customLogoUrl := None;
      bannerError := None;
    }

    /**
     * `handleBannerUpload` with its metadata callback: a non-video sets the type error, a
     * portrait frame the landscape error, both keeping the old banner; an accepted frame
     * clears the error and shows the new object URL; no file, or metadata that has not
     * loaded, changes nothing. Nothing else changes.
     */
    method BannerUpload(file: Option<MediaFile>, objectUrl: string)
      modifies this
      ensures BannerCheck(file) == Accepted ==> bannerError == None && customBannerUrl == Some(objectUrl)
      ensures BannerCheck(file) == NotVideo ==> bannerError == Some(NotVideoError) && customBannerUrl == old(customBannerUrl)
      ensures BannerCheck(file) == Portrait ==> bannerError == Some(PortraitError) && customBannerUrl == old(customBannerUrl)
      ensures BannerCheck(file) in {NoFile, MetadataPending} ==> bannerError == old(bannerError) && customBannerUrl == old(customBannerUrl)
      ensures activeTab == old(activeTab) && customLogoUrl == old(customLogoUrl)
      ensures isClipped == old(isClipped) && isTracked == old(isTracked) && isMuted == old(isMuted)
    {
      if file.None? {
        return;
      }
      var f := file.value;
      if !("video/" <= f.mimeType) {
        bannerError := Some(NotVideoError);
        return;
      }
      if f.size.None? {
        return;
      }
      if f.size.value.height > f.size.value.width {
        bannerError := Some(PortraitError);
      } else {
        bannerError := None;
        customBannerUrl := Some(objectUrl);
      }
    }

    /** `handleLogoUpload`: a file with an image MIME type becomes the logo; anything else changes nothing. */
    method LogoUpload(file: Option<MediaFile>, objectUrl: string)
      modifies this
      ensures file.Some? && "image/" <= file.value.mimeType ==> customLogoUrl == Some(objectUrl)
      ensures !(file.Some? && "image/" <= file.value.mimeType) ==> customLogoUrl == old(customLogoUrl)
      ensures activeTab == old(activeTab) && customBannerUrl == old(customBannerUrl) && bannerError == old(bannerError)
      ensures isClipped == old(isClipped) && isTracked == old(isTracked) && isMuted == old(isMuted)
    {
      if file.Some? && "image/" <= file.value.mimeType {
        customLogoUrl := Some(objectUrl);
      }
    }

    /** 'Clip Coupon' only ever sets the flag, so clipping twice is clipping once. */
    method ClipCoupon()
      modifies this
      ensures isClipped
      ensures isTracked == old(isTracked) && isMuted == old(isMuted) && activeTab == old(activeTab)
      ensures customBannerUrl == old(customBannerUrl) && customLogoUrl == old(customLogoUrl) && bannerError == old(bannerError)
    {
      isClipped := true;
    }

    /** Either 'Track Brand' button flips the tracked flag. */
    method ToggleTrack()
      modifies this
      ensures isTracked == !old(isTracked)
      ensures isClipped == old(isClipped) && isMuted == old(isMuted) && activeTab == old(activeTab)
      ensures customBannerUrl == old(customBannerUrl) && customLogoUrl == old(customLogoUrl) && bannerError == old(bannerError)
    {
      isTracked := !isTracked;
    }

    /** `toggleSound` flips the muted flag. */
    method ToggleSound()
      modifies this
      ensures isMuted == !old(isMuted)
      ensures isClipped == old(isClipped) && isTracked == old(isTracked) && activeTab == old(activeTab)
      ensures customBannerUrl == old(customBannerUrl) && customLogoUrl == old(customLogoUrl) && bannerError == old(bannerError)
    {
      isMuted := !isMuted;
    }

    /** A tab button selects its tab. */
    method SelectTab(t: StoreTab)
      modifies this
      ensures activeTab == t
      ensures isClipped == old(isClipped) && isTracked == old(isTracked) && isMuted == old(isMuted)
      ensures customBannerUrl == old(customBannerUrl) && customLogoUrl == old(customLogoUrl) && bannerError == old(bannerError)
    {
      activeTab := t;
    }
  }

  /**
   * A rejected banner keeps the accepted one: after a landscape video, a portrait one shows
   * the landscape error and the first video stays; a later accepted one clears the error.
   */
  method RejectedBannerKeepsPrevious() returns (afterReject: Option<string>, error: Option<string>, afterRetry: Option<string>, cleared: Option<string>)
    ensures afterReject == Some("blob:first") && error == Some(PortraitError)
    ensures afterRetry == Some("blob:third") && cleared == None
  {
    var room := new Storefront();
    room.BannerUpload(Some(MediaFile("video/mp4", Some(Size(1920, 1080)))), "blob:first");
    room.BannerUpload(Some(MediaFile("video/mp4", Some(Size(1080, 1920)))), "blob:second");
    afterReject, error := room.customBannerUrl, room.bannerError;
    room.BannerUpload(Some(MediaFile("video/webm", Some(Size(720, 720)))), "blob:third");
    afterRetry, cleared := room.customBannerUrl, room.bannerError;
  }

  /** Toggling twice restores both flags, and clipping twice leaves the coupon clipped. */
  method TogglesAndClip() returns (tracked: bool, muted: bool, clipped: bool)
    ensures !tracked && muted && clipped
  {
    var room := new Storefront();
    room.ToggleTrack();
    room.ToggleTrack();
    room.ToggleSound();
    room.ToggleSound();
    room.ClipCoupon();
    room.ClipCoupon();
    tracked, muted, clipped := room.isTracked, room.isMuted, room.isClipped;
  }
}
