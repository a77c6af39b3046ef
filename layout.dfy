/**
 * The shell around the active view (components/Layout.tsx): which chrome it renders for the
 * active tab, and its own sidebar flag, which the header's menu button flips and which
 * closes whenever the active tab changes or a tab is chosen in the overlay.
 */
module Shell {
  import opened Types
  import opened Navigation

  /** `isVideoView` (components/Layout.tsx:30). */
  predicate IsVideoView(activeTab: TabValue)
  {
    activeTab == InTab(VideoPlayer)
  }

  /** The pieces of chrome the shell renders around the view. */
  datatype Chrome = Chrome(
    headerOnSmallScreens: bool,
    fixedSidebar: bool,
    overlaySidebar: bool,
    categoryBar: bool,
    bottomNav: bool)

  /**
   * The chrome for a state: outside the player, the header, the fixed sidebar, the category
   * bar and the bottom navigation are all there; in the player none of them is. The overlay
   * sidebar is there exactly when the sidebar flag is set, in every view.
   */
  function ChromeOf(activeTab: TabValue, isSidebarOpen: bool): (c: Chrome)
    ensures c.fixedSidebar && c.categoryBar && c.bottomNav && c.headerOnSmallScreens <==> !IsVideoView(activeTab)
    ensures !c.fixedSidebar && !c.categoryBar && !c.bottomNav && !c.headerOnSmallScreens <==> IsVideoView(activeTab)
    ensures c.overlaySidebar <==> isSidebarOpen
  {
    var framed := !IsVideoView(activeTab);
    Chrome(framed, framed, isSidebarOpen, framed, framed)
  }

  /** Layout's state: the sidebar flag, and the tab its close-on-change effect last saw. */
  class Layout {
    var isSidebarOpen: bool
    var seenTab: TabValue

    /** Mounting: the sidebar starts closed. */
    constructor (activeTab: TabValue)
      ensures !isSidebarOpen && seenTab == activeTab
    {
      isSidebarOpen := false;
      seenTab := activeTab;
    }

    /** `toggleSidebar`, the header's menu button. */
    method ToggleSidebar()
      modifies this
      ensures isSidebarOpen == !old(isSidebarOpen) && seenTab == old(seenTab)
    {
      isSidebarOpen := !isSidebarOpen;
    }

    /**
     * The effect that runs after a render: when the active tab differs from the one it
     * last saw, the sidebar closes; otherwise the flag is left alone.
     */
    method AfterRender(activeTab: TabValue)
      modifies this
      ensures seenTab == activeTab
      ensures isSidebarOpen == (old(isSidebarOpen) && activeTab == old(seenTab))
    {
      if activeTab != seenTab {
        isSidebarOpen := false;
      }
      seenTab := activeTab;
    }

    /** A click on the overlay's backdrop closes the sidebar. */
    method BackdropClick()
      modifies this
      ensures !isSidebarOpen && seenTab == old(seenTab)
    {
      isSidebarOpen := false;
    }

    /** Choosing a tab in the overlay sidebar: the id goes to App, and the sidebar closes. */
    method OverlaySelect(app: App, id: string)
      modifies this, app
      ensures !isSidebarOpen && seenTab == old(seenTab)
      ensures app.activeTab == TabValueOf(id)
      ensures app.selectedVideoId == old(app.selectedVideoId) && app.selectedCategory == old(app.selectedCategory)
      ensures app.isCreateModalOpen == old(app.isCreateModalOpen)
    {
      app.SetActiveTab(id);
      isSidebarOpen := false;
    }
  }

  /**
   * The close-on-tab-change effect: with the sidebar open on the feed, a change of the tab
   * to the player (as an ad click makes once the sidebar is closed) leaves the sidebar
   * closed after the next render, and the fixed chrome is gone.
   */
  method SidebarClosesOnVideoClick() returns (openBefore: bool, chrome: Chrome)
    ensures openBefore && chrome == Chrome(false, false, false, false, false)
  {
    var app := new App();
    var layout := new Layout(app.activeTab);
    layout.ToggleSidebar();
    openBefore := layout.isSidebarOpen;
    app.VideoClick("1");
    layout.AfterRender(app.activeTab);
    chrome := ChromeOf(app.activeTab, layout.isSidebarOpen);
  }

  /** A render that keeps the tab leaves an open sidebar open. */
  method SidebarStaysOpenOnSameTab() returns (open: bool)
    ensures open
  {
    var app := new App();
    var layout := new Layout(app.activeTab);
    layout.ToggleSidebar();
    app.SelectCategory("All");
    layout.AfterRender(app.activeTab);
    open := layout.isSidebarOpen;
  }
}
