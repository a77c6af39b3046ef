/**
 * App's view state (App.tsx:14-18) and the handlers that change it (App.tsx:47-80): which
 * view is active, the category of the feed, the ad the player shows and whether the
 * create modal is open; and which view App mounts for that state (App.tsx:82-180).
 */
module Navigation {
  import opened Wrappers
  import opened Types
  import opened Catalog
  import opened Feed

  /** What App mounts inside the shell. */
  datatype View =
    | HomeView(videos: seq<VideoAd>, selectedCategory: string)
    | PlayerView(video: VideoAd, related: seq<VideoAd>)
    | MerchantView
    | NearbyView
    | WalletView
    | UpdatesView
    | ProfileView
    | NoView

  /**
   * The view mounted for a state: one per tab, the player only when the selected id is
   * found in the catalog, and nothing for a value of the tab cell that is not a `Tab`.
   */
  function MountedView(catalog: seq<VideoAd>, activeTab: TabValue, selectedCategory: string, selectedId: Option<string>): (r: View)
    ensures r.PlayerView? <==> activeTab == InTab(VideoPlayer) && SelectedVideo(catalog, selectedId).Some?
    ensures r.PlayerView? ==> r.video in catalog && selectedId == Some(r.video.id) && r.video !in r.related
    ensures r.PlayerView? ==> r.video == SelectedVideo(catalog, selectedId).value
    ensures r.PlayerView? ==> r.related == RelatedVideos(catalog, selectedId)
    ensures r.NoView? <==> activeTab.OutsideTab? || (activeTab == InTab(VideoPlayer) && SelectedVideo(catalog, selectedId).None?)
    ensures r.HomeView? <==> activeTab == InTab(Tab.Home)
    ensures r.HomeView? ==> r.videos == FeedAsWritten(catalog, selectedCategory) && r.selectedCategory == selectedCategory
    ensures r == MerchantView <==> activeTab == InTab(Merchant)
    ensures r == NearbyView <==> activeTab == InTab(Nearby)
    ensures r == WalletView <==> activeTab == InTab(Wallet)
    ensures r == UpdatesView <==> activeTab == InTab(Updates)
    ensures r == ProfileView <==> activeTab == InTab(Profile)
  {
    if activeTab.OutsideTab? then NoView
    else if activeTab.tab == Tab.Home then HomeView(FeedAsWritten(catalog, selectedCategory), selectedCategory)
    else if activeTab.tab == VideoPlayer then
      match SelectedVideo(catalog, selectedId)
      case Some(v) => PlayerView(v, RelatedVideos(catalog, selectedId))
      case None => NoView
    else if activeTab.tab == Merchant then MerchantView
    else if activeTab.tab == Nearby then NearbyView
    else if activeTab.tab == Wallet then WalletView
    else if activeTab.tab == Updates then UpdatesView
    else
      assert activeTab.tab == Profile;
      ProfileView
  }

  /** The ids the sidebar's buttons send (components/Sidebar.tsx:12-17, components/Sidebar.tsx:66). */
  const SidebarTabIds: seq<string> := ["home", "nearby", "wallet", "updates", "showroom", "merchant", "profile"]

  /** The ids the bottom navigation sends (components/BottomNav.tsx:13-17). */
  const BottomNavTabIds: seq<string> := ["home", "nearby", "wallet", "updates", "profile"]

  /**
   * Every id the bottom navigation sends is a `Tab`; the sidebar's 'showroom' is not, and a
   * tab cell holding it mounts nothing, whatever else the state holds.
   */
  lemma NavigationIds(catalog: seq<VideoAd>, selectedCategory: string, selectedId: Option<string>)
    ensures forall id :: id in BottomNavTabIds ==> TabOf(id).Some?
    ensures "showroom" in SidebarTabIds && TabOf("showroom").None?
    ensures MountedView(catalog, TabValueOf("showroom"), selectedCategory, selectedId) == NoView
  {
  }

  /** App's state cells. */
  class App {
    var selectedCategory: string
    var activeTab: TabValue
    var selectedVideoId: Option<string>
    var isCreateModalOpen: bool

    /** The initial state: the 'All' feed on the home tab, no ad selected, modal closed. */
    constructor ()
      ensures selectedCategory == "All" && activeTab == InTab(Tab.Home)
      ensures selectedVideoId == None && !isCreateModalOpen
    {
      selectedCategory := "All";
      activeTab := InTab(Tab.Home);
      selectedVideoId := None;
      isCreateModalOpen := false;
    }

    /** The view App mounts for the current state. */
    function Screen(): View
      reads this
    {
      MountedView(MockVideos, activeTab, selectedCategory, selectedVideoId)
    }

    /** `handleVideoClick`: opens the player on `id`, without looking it up in the catalog. */
    method VideoClick(id: string)
      modifies this
      ensures selectedVideoId == Some(id) && activeTab == InTab(VideoPlayer)
      ensures selectedCategory == old(selectedCategory) && isCreateModalOpen == old(isCreateModalOpen)
    {
      selectedVideoId := Some(id);
      activeTab := InTab(VideoPlayer);
    }

    /** `handleBackToFeed`, also the logo's click: back to the home tab with no ad selected. */
    method BackToFeed()
      modifies this
      ensures selectedVideoId == None && activeTab == InTab(Tab.Home)
      ensures selectedCategory == old(selectedCategory) && isCreateModalOpen == old(isCreateModalOpen)
    {
      selectedVideoId := None;
      activeTab := InTab(Tab.Home);
    }

    /** `handleReset`, the empty feed's reset button: only the category changes, to 'All'. */
    method Reset()
      modifies this
      ensures selectedCategory == "All"
      ensures activeTab == old(activeTab) && selectedVideoId == old(selectedVideoId)
      ensures isCreateModalOpen == old(isCreateModalOpen)
    {
      selectedCategory := "All";
    }

    /** The category bar's `onSelectCategory`: sets the category, goes home and drops the selection. */
    method SelectCategory(category: string)
      modifies this
      ensures selectedCategory == category && activeTab == InTab(Tab.Home) && selectedVideoId == None
      ensures isCreateModalOpen == old(isCreateModalOpen)
    {
      selectedCategory := category;
      activeTab := InTab(Tab.Home);
      selectedVideoId := None;
    }

    /**
     * The raw `setActiveTab` the shell receives: the tab cell takes whatever id a navigation
     * control sends; the selected ad and the category stay as they were.
     */
    method SetActiveTab(id: string)
      modifies this
      ensures activeTab == TabValueOf(id)
      ensures selectedVideoId == old(selectedVideoId) && selectedCategory == old(selectedCategory)
      ensures isCreateModalOpen == old(isCreateModalOpen)
    {
      activeTab := TabValueOf(id);
    }

    /** The header's create button. */
    method OpenCreateModal()
      modifies this
      ensures isCreateModalOpen
      ensures activeTab == old(activeTab) && selectedVideoId == old(selectedVideoId) && selectedCategory == old(selectedCategory)
    {
      isCreateModalOpen := true;
    }

    /** The modal's `onClose` (its backdrop and its two close buttons). */
    method CloseCreateModal()
      modifies this
      ensures !isCreateModalOpen
      ensures activeTab == old(activeTab) && selectedVideoId == old(selectedVideoId) && selectedCategory == old(selectedCategory)
    {
      isCreateModalOpen := false;
    }
  }

  /** An id that no ad of a catalog carries selects nothing. */
  lemma AbsentIdNotFound(catalog: seq<VideoAd>, id: string)
    requires forall i :: 0 <= i < |catalog| ==> catalog[i].id != id
    ensures SelectedVideo(catalog, Some(id)).None?
  {
    forall v | v in catalog ensures Some(id) != Some(v.id) {
      var i :| 0 <= i < |catalog| && catalog[i] == v;
    }
  }

  /** The catalog holds no ad with id '7'. */
  lemma UnknownIdNotFound()
    ensures SelectedVideo(MockVideos, Some("7")).None?
  {
    CatalogIds();
    forall i | 0 <= i < |MockVideos| ensures MockVideos[i].id != "7" {
      assert MockVideos[i].id[0] != '7';
    }
    AbsentIdNotFound(MockVideos, "7");
  }

  /**
   * Clicking an id the catalog does not hold switches to the player tab, and the player is
   * not mounted: the screen is empty.
   */
  method VideoClickOnUnknownId() returns (tab: TabValue, screen: View)
    ensures tab == InTab(VideoPlayer) && screen == NoView
  {
    var app := new App();
    app.VideoClick("7");
    UnknownIdNotFound();
    tab, screen := app.activeTab, app.Screen();
  }

  /**
   * A tab change through the shell keeps the selected id: after opening ad '3' and going
   * home from the bottom navigation, the id is still selected while the feed shows.
   */
  method ShellTabKeepsSelection() returns (selected: Option<string>, screen: View)
    ensures selected == Some("3") && screen.HomeView?
  {
    var app := new App();
    app.VideoClick("3");
    app.SetActiveTab(BottomNavTabIds[0]);
    selected, screen := app.selectedVideoId, app.Screen();
  }

  /**
   * Choosing 'Coupons' on the category bar mounts the feed with the whole catalog: the label
   * the bar sends matches no case of the switch as written.
   */
  method CouponsFromBarShowsAll() returns (screen: View)
    ensures screen == HomeView(MockVideos, BarLabel(Coupons))
  {
    var app := new App();
    app.SelectCategory(BarLabel(Coupons));
    CouponsAsWritten();
    screen := app.Screen();
  }
}
