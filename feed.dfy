/**
 * The data App derives from its state (App.tsx:20-64): the feed for the selected category,
 * the ad the player shows and the list of related ads beside it.
 */
module Feed {
  import opened Wrappers
  import opened Types
  import opened Sequences
  import opened Catalog

  /** The test each case of the feed switch applies to an ad; an absent flag counts as false. */
  predicate Matches(c: Category, v: VideoAd)
  {
    match c
    case All => true
    case EndingSoon => HasText(v.timeLeft)
    case Coupons => IsTrue(v.hasCoupon)
    case Cinematic => v.style == ContentStyle.Cinematic
    case Tech => v.industry == Some(Industry.Tech)
    case Fashion => v.industry == Some(Industry.Fashion)
    case Home => v.industry == Some(Industry.Home)
    case NewDrops => IsTrue(v.isNewDrop)
    case NearMe => HasText(v.location)
  }

  /** The case's test as a function value, the argument the switch passes to `filter`. */
  function TestOf(c: Category): VideoAd -> bool
  {
    v => Matches(c, v)
  }

  /**
   * The feed for one category: exactly the catalog's ads that pass the category's test, in
   * catalog order; 'All' gives a copy of the whole catalog.
   */
  function FilteredVideos(catalog: seq<VideoAd>, c: Category): (r: seq<VideoAd>)
    ensures IsSubsequence(r, catalog)
    ensures forall v :: v in r <==> v in catalog && Matches(c, v)
    ensures forall v :: multiset(r)[v] == if Matches(c, v) then multiset(catalog)[v] else 0
    ensures c == All ==> r == catalog
  {
    if c == All then
      SubsequenceOfItself(catalog);
      catalog
    else
      Filter(catalog, TestOf(c))
  }

  /** Filtering the feed again by the same category changes nothing. */
  lemma FilteredVideosIdempotent(catalog: seq<VideoAd>, c: Category)
    ensures FilteredVideos(FilteredVideos(catalog, c), c) == FilteredVideos(catalog, c)
  {
    if c != All {
      FilterIdempotent(catalog, TestOf(c));
    }
  }

  /**
   * The case labels of the switch as they stand in App.tsx:26-40: the category bar's emoji
   * labels with their UTF-8 bytes read back as Windows-1252 text.
   */
  function CaseLabelAsWritten(c: Category): string
  {
    match c
    case All => "All"
    case EndingSoon => "\U{00E2}\U{0161}\U{00A1} Ending Soon"
    case Coupons => "\U{00E2}\U{0153}\U{201A}\U{00EF}\U{00B8} Coupons"
    case Cinematic => "\U{00F0}\U{0178}\U{017D}\U{00AC} Cinematic"
    case Tech => "\U{00F0}\U{0178}\U{201C}\U{00B1} Tech"
    case Fashion => "\U{00F0}\U{0178}\U{2018}\U{2014} Fashion"
    case Home => "\U{00F0}\U{0178}\U{00A0} Home"
    case NewDrops => "\U{00F0}\U{0178}\U{0161}\U{20AC} New Drops"
    case NearMe => "\U{00F0}\U{0178}\U{201C} Near Me"
  }

  /** Each case label as written leads back to its own case. */
  lemma CaseLabelRoundTrip(c: Category)
    ensures CaseOfLabelAsWritten(CaseLabelAsWritten(c)) == Some(c)
  {
    match c
    case All =>
    case EndingSoon =>
    case Coupons =>
    case Cinematic =>
    case Tech =>
    case Fashion =>
    case Home =>
    case NewDrops =>
    case NearMe =>
  }

  /** The case of the switch as written that a selected label reaches, if any. */
  function CaseOfLabelAsWritten(text: string): (r: Option<Category>)
    ensures r.Some? ==> CaseLabelAsWritten(r.value) == text
    ensures r.None? ==> forall c :: CaseLabelAsWritten(c) != text
  {
    if text == CaseLabelAsWritten(All) then Some(All)
    else if text == CaseLabelAsWritten(EndingSoon) then Some(EndingSoon)
    else if text == CaseLabelAsWritten(Coupons) then Some(Coupons)
    else if text == CaseLabelAsWritten(Category.Cinematic) then Some(Category.Cinematic)
    else if text == CaseLabelAsWritten(Category.Tech) then Some(Category.Tech)
    else if text == CaseLabelAsWritten(Category.Fashion) then Some(Category.Fashion)
    else if text == CaseLabelAsWritten(Category.Home) then Some(Category.Home)
    else if text == CaseLabelAsWritten(NewDrops) then Some(NewDrops)
    else if text == CaseLabelAsWritten(NearMe) then Some(NearMe)
    else None
  }

  /**
   * `filteredVideos` as App.tsx:20-45 computes it: the selected label is compared with the
   * case labels above, and a label that matches none falls to the default, the whole catalog.
   */
  function FeedAsWritten(catalog: seq<VideoAd>, selected: string): (r: seq<VideoAd>)
    ensures IsSubsequence(r, catalog)
    ensures (forall c :: CaseLabelAsWritten(c) != selected) ==> r == catalog
    ensures forall c :: CaseLabelAsWritten(c) == selected ==> r == FilteredVideos(catalog, c)
  {
    match CaseOfLabelAsWritten(selected)
    case None =>
      SubsequenceOfItself(catalog);
      catalog
    case Some(c) =>
      assert forall d :: CaseLabelAsWritten(d) == selected ==> d == c by {
        forall d | CaseLabelAsWritten(d) == selected ensures d == c {
          CaseLabelRoundTrip(d);
        }
      }
      FilteredVideos(catalog, c)
  }

  /**
   * `filteredVideos` with the cases spelled as the category bar spells them: the label of a
   * category gives that category's feed, and any other label the whole catalog.
   */
  function FeedFor(catalog: seq<VideoAd>, selected: string): (r: seq<VideoAd>)
    ensures IsSubsequence(r, catalog)
    ensures selected !in CategoryLabels ==> r == catalog
    ensures forall c :: BarLabel(c) == selected ==> r == FilteredVideos(catalog, c)
  {
    match CategoryOfBarLabel(selected)
    case None =>
      SubsequenceOfItself(catalog);
      catalog
    case Some(c) =>
      assert forall d :: BarLabel(d) == selected ==> d == c by {
        forall d | BarLabel(d) == selected ensures d == c {
          BarLabelRoundTrip(d);
        }
      }
      FilteredVideos(catalog, c)
  }

  /** No label the category bar sends reaches a filtering case of the switch as written. */
  lemma BarLabelsMissTheSwitch(selected: string)
    requires selected in CategoryLabels
    ensures forall c :: c != All ==> CaseLabelAsWritten(c) != selected
  {
    CategoryLabelsInOrder();
  }

  /** So as written, every category of the bar shows the whole catalog. */
  lemma FeedAsWrittenIgnoresBar(catalog: seq<VideoAd>, selected: string)
    requires selected in CategoryLabels
    ensures FeedAsWritten(catalog, selected) == catalog
  {
    BarLabelsMissTheSwitch(selected);
  }

  /** 'Coupons' from the bar shows all six ads as written... */
  lemma CouponsAsWritten()
    ensures FeedAsWritten(MockVideos, BarLabel(Coupons)) == MockVideos && |MockVideos| == 6
  {
    CategoryLabelsInOrder();
    assert BarLabel(Coupons) == CategoryLabels[2];
    FeedAsWrittenIgnoresBar(MockVideos, BarLabel(Coupons));
  }

  /** With the intended labels, each category's label on the bar selects that category's feed. */
  lemma FeedOfBarLabel(catalog: seq<VideoAd>, c: Category)
    ensures FeedFor(catalog, BarLabel(c)) == FilteredVideos(catalog, c)
  {
    BarLabelRoundTrip(c);
  }

  /** In the catalog, the coupon test passes ad '1' alone. */
  lemma CouponTestOfCatalog()
    ensures Filter(MockVideos, TestOf(Coupons)) == [MockVideos[0]]
  {
    CatalogIds();
    FilterKeepsOne(MockVideos, TestOf(Coupons), 0);
  }

  /** ...and only ad '1', the one ad with a coupon, once the cases carry the bar's labels. */
  lemma CouponsAsIntended()
    ensures FeedFor(MockVideos, BarLabel(Coupons)) == [MockVideos[0]]
  {
    FeedOfBarLabel(MockVideos, Coupons);
    CouponTestOfCatalog();
  }

  /** `selectedVideo`: the first ad whose id is the selected id; no ad when none is selected. */
  function SelectedVideo(catalog: seq<VideoAd>, selectedId: Option<string>): (r: Option<VideoAd>)
    ensures r.Some? ==> r.value in catalog && selectedId == Some(r.value.id)
    ensures r.Some? ==> exists i :: 0 <= i < |catalog| && catalog[i] == r.value && forall j :: 0 <= j < i ==> selectedId != Some(catalog[j].id)
    ensures r.None? <==> forall v :: v in catalog ==> selectedId != Some(v.id)
    ensures selectedId.None? ==> r.None?
  {
    Find(catalog, (v: VideoAd) => selectedId == Some(v.id))
  }

  /** The test `relatedVideos` passes to `filter`: the ad's id is not the selected id. */
  function Unselected(selectedId: Option<string>): VideoAd -> bool
  {
    (v: VideoAd) => selectedId != Some(v.id)
  }

  /**
   * `relatedVideos`: the catalog without the ads whose id is the selected id, in catalog order;
   * the whole catalog when no id is selected.
   */
  function RelatedVideos(catalog: seq<VideoAd>, selectedId: Option<string>): (r: seq<VideoAd>)
    ensures IsSubsequence(r, catalog)
    ensures forall v :: v in r <==> v in catalog && selectedId != Some(v.id)
    ensures forall v :: multiset(r)[v] == if selectedId != Some(v.id) then multiset(catalog)[v] else 0
    ensures selectedId.None? ==> r == catalog
  {
    var keep := Unselected(selectedId);
    if selectedId.None? then
      FilterKeepsAll(catalog, keep);
      Filter(catalog, keep)
    else
      Filter(catalog, keep)
  }

  /** The related list never holds the ad the player shows. */
  lemma RelatedOmitsSelected(catalog: seq<VideoAd>, selectedId: Option<string>)
    requires SelectedVideo(catalog, selectedId).Some?
    ensures SelectedVideo(catalog, selectedId).value !in RelatedVideos(catalog, selectedId)
  {
  }

  /** With distinct ids, the related list is one ad shorter than the catalog exactly when the id is found. */
  lemma RelatedLength(catalog: seq<VideoAd>, selectedId: Option<string>)
    requires DistinctIds(catalog)
    ensures |RelatedVideos(catalog, selectedId)| == if SelectedVideo(catalog, selectedId).Some? then |catalog| - 1 else |catalog|
  {
    var keep := Unselected(selectedId);
    if SelectedVideo(catalog, selectedId).Some? {
      var v := SelectedVideo(catalog, selectedId).value;
      var i :| 0 <= i < |catalog| && catalog[i] == v;
      FilterDropsOne(catalog, keep, i);
    } else {
      FilterKeepsAll(catalog, keep);
    }
  }
}
