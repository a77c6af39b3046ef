# ClipCart view-state model

ClipCart is a single-page React app that shows short video advertisements. A feed filtered
by category leads into a player, which lists related ads. The shell around every view has a
header, a fixed sidebar, an overlay sidebar, a category bar and a bottom navigation bar.
There is also a brand showroom page with shelves and custom banner and logo uploads.
Countdown badges tick down once a second.

This project models the logic under that markup in Dafny and proves properties of it:

- `wrappers.dfy`, `sequences.dfy`: `Option`, and the order-preserving `filter` and `find` of
  JavaScript arrays, with their membership, multiplicity and subsequence properties.
- `types.dfy`: the categories, content styles, industries, the ad record (an optional
  property is an `Option`), campaign statuses and the top-level tab ids.
- `catalog.dfy`: the six mock ads and the category bar's labels, as literal data, with
  lemmas on what the data holds.
- `feed.dfy`: the feed switch, both as written and with the labels the bar actually
  sends; the selected-ad lookup; and the related list.
- `navigation.dfy`: App's state cells as a class with one method per handler, and the view
  App mounts for a state. The feed it mounts is the switch as written (see "Findings").
- `layout.dfy`: the shell's chrome gating and its sidebar flag with the close-on-tab-change
  effect.
- `timer.dfy`: the countdown. A display string is parsed, lowered by one second with a borrow,
  and re-formatted with padding. The tick is a method that works on local `h`, `m`, `s` step
  by step, proved against a specification function.
- `showroom.dfy`: the brand filter, the four shelves, the banner and logo acceptance
  decisions, and the flags and tabs of the showroom.

Three behaviours are modelled as the code has them:

- Clicking an ad does not check its id against the catalog. Only the render checks it, so
  an unknown id leads to an empty player tab (`Navigation.VideoClickOnUnknownId`).
- A tab change through the shell keeps the selected id (`Navigation.ShellTabKeepsSelection`).
- The sidebar sends `'showroom'`, which is not a `Tab`. App mounts nothing for it
  (`Navigation.NavigationIds`), so the tab cell is modelled as `TabValue`, a `Tab` or a
  foreign id.

Some behaviours one might expect do not hold in the code, and the model follows the code:

- Selecting an unknown ad is not a no-op.
- Switching tabs does not clear the selected ad, so the selected id is not confined to the
  player view.
- The create dialog is a static grid with an open/close flag, not a multi-step wizard.
- The catalog has one coupon ad, not two.

## Model

| member | source | states |
|---|---|---|
| Sequences.Filter | App.tsx:27-41 | `filter` keeps exactly the elements that pass the test, each as often as in the input, in their original order (a subsequence), and is never longer |
| Sequences.Find | App.tsx:58-60 | `find` returns nothing exactly when no element passes; otherwise the first element that passes |
| Types.CategoryIsClosed | types.ts:2-11 | Category is a closed set of nine values, 'All' first, with nine distinct labels that each read back to their category |
| Types.CategoryOfLabel | types.ts:2-11 | a label that is read back names the category whose label it is |
| Types.StatusLabelRoundTrip | types.ts:42 | each of the four campaign statuses reads back from its label |
| Types.StatusOfLabel | types.ts:42 | a label that is read back names the status whose label it is |
| Types.TabIdRoundTrip | types.ts:55 | each of the seven tabs, 'video-player' among them, reads back from its id |
| Types.TabOf | types.ts:55 | an id that is read back is the id of the tab it names |
| Types.TabValueOf | App.tsx:72 | the tab cell holds a `Tab` exactly when the id sent is one of the seven ids, and otherwise keeps the foreign id itself |
| Catalog.CategoryOfBarLabel | constants.ts:91-101 | a string names a category exactly when it is one of the bar's labels, and then it is that category's label |
| Catalog.BarLabelRoundTrip | constants.ts:91-101 | every category reads back from its bar label |
| Catalog.CategoryLabelsInOrder | constants.ts:91-101 | the bar has nine labels, 'All' first, one per category in the order of the type |
| Catalog.CategoryLabelsDistinct | constants.ts:91-101 | the nine bar labels are pairwise distinct, and every category has one |
| Catalog.CatalogIds | constants.ts:6-89 | the catalog has six ads with ids '1' to '6' in order, pairwise distinct |
| Catalog.CatalogCouponAndCountdown | constants.ts:19-20 | only ad '1' has a coupon; only ad '1' has a countdown, and it starts at '01:15:30' |
| Catalog.CatalogDropsAndLocations | constants.ts:21-87 | the new drops are exactly ads '1', '2' and '4'; only ad '6' has a location |
| Catalog.CatalogStylesAndIndustries | constants.ts:15-85 | the style of each ad (Cinematic on '1' to '3', Minimalist, Tutorial, UGC) and its industry (Fashion, Auto, Tech, Fashion, Home, Luxury) |
| Feed.Matches | App.tsx:27-41 | the test of each case (countdown, coupon, cinematic style, tech, fashion or home industry, new drop, location; an absent flag is false); `Feed.FilteredVideos` states what filtering by it yields |
| Feed.FilteredVideos | App.tsx:21-41 | one case of the switch: exactly the ads that pass the case's test, with their multiplicity, in catalog order; 'All' gives the whole catalog |
| Feed.FilteredVideosIdempotent | App.tsx:25-41 | filtering a category's feed again by that category changes nothing |
| Feed.CaseLabelRoundTrip | App.tsx:26-40 | each case label as written leads back to its own case, so no two cases share a label |
| Feed.CaseOfLabelAsWritten | App.tsx:25-43 | a selected label reaches a case exactly when it equals that case's label, and otherwise no case |
| Feed.FeedAsWritten | App.tsx:20-45 | the switch as written: a label equal to a case label gives exactly that case's feed (its ads, with their multiplicity, in catalog order), and any other label falls to the default, the whole catalog |
| Feed.BarLabelsMissTheSwitch | App.tsx:26-40 | no label the bar sends equals any filtering case label as written |
| Feed.FeedAsWrittenIgnoresBar | App.tsx:42-43 | as written, every label the bar sends shows the whole catalog |
| Feed.CouponsAsWritten | App.tsx:28-29 | as written, the bar's 'Coupons' shows all six ads |
| Feed.FeedFor | App.tsx:20-45 | the intended switch: the bar label of a category gives exactly that category's feed, and any other label the whole catalog |
| Feed.FeedOfBarLabel | App.tsx:25-41 | for the intended switch, each category's bar label selects that category's feed |
| Feed.CouponTestOfCatalog | App.tsx:29 | in the catalog, the coupon test passes ad '1' alone |
| Feed.CouponsAsIntended | App.tsx:28-29 | with the intended labels, 'Coupons' shows ad '1' alone |
| Feed.SelectedVideo | App.tsx:58-60 | the lookup gives the first ad of the catalog carrying the selected id, and nothing when none does or no id is selected |
| Feed.RelatedVideos | App.tsx:62-64 | the related list is the catalog without the ads carrying the selected id, every other ad kept as often as it occurs, in catalog order; with no id it is the whole catalog |
| Feed.RelatedOmitsSelected | App.tsx:62-64 | the related list never holds the ad the player shows |
| Feed.RelatedLength | App.tsx:62-64 | with distinct ids, the related list is one ad shorter than the catalog when the id is found, and the whole length otherwise |
| Navigation.MountedView | App.tsx:82-180 | the player is mounted exactly on the player tab with an id the lookup finds, showing the lookup's ad (the first with that id) and the related list without it; the feed is mounted exactly on the home tab, with the switch's result as written for the selected label; each of the merchant, nearby, wallet, updates and profile tabs mounts exactly its own view; a foreign tab id or a failed lookup mounts nothing |
| Navigation.App.Screen | App.tsx:82-98 | the view for App's current cells over the catalog; what it mounts is stated by `Navigation.MountedView` |
| Navigation.NavigationIds | components/Sidebar.tsx:16 | every id the bottom bar sends is a `Tab`; the sidebar sends 'showroom', which is not, and a tab cell holding it mounts nothing |
| Navigation.App.constructor | App.tsx:15-18 | the app starts on the 'All' feed on the home tab, with no ad selected and the dialog closed |
| Navigation.App.VideoClick | App.tsx:47-51 | a click selects the id, without looking it up, and switches to the player; the category and the dialog stay |
| Navigation.App.BackToFeed | App.tsx:53-56 | back to the home tab with no ad selected; the category and the dialog stay |
| Navigation.App.Reset | App.tsx:66 | only the category changes, to 'All' |
| Navigation.App.SelectCategory | App.tsx:74-79 | the category is set, the home tab shown and the selection dropped together |
| Navigation.App.SetActiveTab | App.tsx:72 | the tab cell takes the id sent; the selected id, the category and the dialog stay |
| Navigation.App.OpenCreateModal | App.tsx:80 | the dialog opens; nothing else changes |
| Navigation.App.CloseCreateModal | App.tsx:183-186 | the dialog closes; nothing else changes |
| Navigation.AbsentIdNotFound | App.tsx:58-60 | an id no ad of the catalog carries selects nothing |
| Navigation.UnknownIdNotFound | constants.ts:6-89 | the catalog holds no ad with id '7' |
| Navigation.VideoClickOnUnknownId | App.tsx:91 | clicking id '7' switches to the player tab and mounts nothing |
| Navigation.ShellTabKeepsSelection | App.tsx:72 | after opening ad '3' and going home through the shell, ad '3' is still selected while the feed shows |
| Navigation.CouponsFromBarShowsAll | App.tsx:74-84 | choosing 'Coupons' on the bar mounts the feed with all six ads, as the switch as written computes it |
| Shell.IsVideoView | components/Layout.tsx:30 | the player tab is the video view; `Shell.ChromeOf` states the chrome it gates |
| Shell.ChromeOf | components/Layout.tsx:43-112 | the header on small screens, the fixed sidebar, the category bar and the bottom bar are there exactly outside the player; the overlay sidebar exactly when the flag is set |
| Shell.Layout.constructor | components/Layout.tsx:29 | the sidebar starts closed |
| Shell.Layout.ToggleSidebar | components/Layout.tsx:37 | the menu button flips the sidebar flag |
| Shell.Layout.AfterRender | components/Layout.tsx:33-35 | after a render the sidebar is open only if it was open and the tab did not change |
| Shell.Layout.BackdropClick | components/Layout.tsx:69 | a click on the backdrop closes the sidebar |
| Shell.Layout.OverlaySelect | components/Layout.tsx:74-77 | choosing in the overlay forwards the id to the tab cell, keeps the rest of App's state, and closes the sidebar |
| Shell.SidebarClosesOnVideoClick | components/Layout.tsx:33-35 | the close-on-tab-change effect: an open sidebar is closed after the render that follows a change of the tab to the player, and the player has no fixed chrome |
| Shell.SidebarStaysOpenOnSameTab | components/Layout.tsx:33-35 | a render that keeps the tab leaves the sidebar open |
| Countdown.Decimal | hooks/useTimer.ts:23 | `toString` gives at least one digit, and the digits read back as the number |
| Countdown.DecimalCanonical | hooks/useTimer.ts:23 | `toString` writes one digit exactly for numbers below ten, and no leading zero for larger ones |
| Countdown.Field | hooks/useTimer.ts:23 | padding gives at least two digits and no ':', reading back as the number: a single digit gets one leading '0', a longer number is its plain digits |
| Countdown.Split | hooks/useTimer.ts:12 | splitting gives at least one piece, and no piece holds ':' |
| Countdown.Parse | hooks/useTimer.ts:12-13 | `split(':')`, `Number` on each field and the first three fields as h, m, s; `Countdown.FormatParses` and `Countdown.TickOutcome` state what it reads back |
| Countdown.Format | hooks/useTimer.ts:23 | the three fields padded and joined with ':'; `Countdown.FormatParses` states that it reads back as the clock |
| Countdown.FormatParses | hooks/useTimer.ts:12-23 | a formatted display is readable and reads back as the clock it was made from |
| Countdown.FormatZero | hooks/useTimer.ts:20 | the zero clock formats as '00:00:00' |
| Countdown.Borrow | hooks/useTimer.ts:14-16 | a positive total goes down by exactly one second and zero stays zero; with seconds left only the seconds change; a minute borrow keeps the hours and sets 59 seconds; minutes and seconds stay below sixty |
| Countdown.BorrowIsPredecessor | hooks/useTimer.ts:14-16 | with minutes and seconds below sixty, the borrow is the unique such clock one second earlier |
| Countdown.TickText | hooks/useTimer.ts:11-24 | a tick leaves a readable display one second lower, never below zero, and a zero display is '00:00:00' |
| Countdown.InitialDisplay | hooks/useTimer.ts:5 | the display starts at the initial time when it is non-empty, and otherwise is exactly '00:00:00' |
| Countdown.Timer.constructor | hooks/useTimer.ts:5-8 | the display starts at the initial display, and the interval runs only for a non-empty initial time |
| Countdown.TickOutcome | hooks/useTimer.ts:18-23 | a tick that lowers the time to zero writes '00:00:00', any other writes the formatted lowered clock, and the written display reads as positive exactly in the second case |
| Countdown.Timer.Tick | hooks/useTimer.ts:10-25 | a running tick writes the display one second lower, and the interval keeps running exactly when the lowered time is positive; with no interval nothing changes |
| Countdown.Timer.Unmount | hooks/useTimer.ts:27 | unmounting clears the interval and keeps the display |
| Countdown.Timer.ChangeInitialTime | hooks/useTimer.ts:27-28 | a new initial time restarts the interval only if it is non-empty and does not reset the display |
| Countdown.ThreeSecondsRunOut | hooks/useTimer.ts:18-21 | a countdown from '00:00:03' shows '00:00:00' after three ticks and has stopped |
| Countdown.NoInitialTimeStaysZero | hooks/useTimer.ts:8 | without an initial time the display stays '00:00:00' |
| Showroom.StoreTabIds | views/ShowroomView.tsx:88-93 | every showroom tab has a button, and the four ids are distinct |
| Showroom.BrandVideos | views/ShowroomView.tsx:34 | without a brand id, the whole catalog; with a non-empty one, no ads, since a brand has no id |
| Showroom.ShelfVideos | views/ShowroomView.tsx:340-343 | a shelf holds exactly the catalog's ads that pass its test, each as often as in the catalog, in catalog order |
| Showroom.StyleShelvesDisjoint | views/ShowroomView.tsx:341-343 | no ad is on two of the style shelves |
| Showroom.TutorialsShelfOfCatalog | views/ShowroomView.tsx:342 | the tutorials shelf holds ad '5' alone |
| Showroom.InfluencerShelfOfCatalog | views/ShowroomView.tsx:343 | the influencer shelf holds ad '6' alone |
| Showroom.BannerCheck | views/ShowroomView.tsx:48-73 | a banner is accepted exactly for a video whose frame is not taller than wide (a square passes); a non-video is refused for its type, a tall video for its shape, and no file is nothing |
| Showroom.Storefront.constructor | views/ShowroomView.tsx:19-27 | the showroom tab, nothing clipped or tracked, sound muted, no custom media and no error |
| Showroom.Storefront.BannerUpload | views/ShowroomView.tsx:48-73 | a refused banner sets its error and keeps the old banner; an accepted one clears the error and shows the new file; no file or unloaded metadata changes nothing |
| Showroom.Storefront.LogoUpload | views/ShowroomView.tsx:75-81 | a file whose MIME type starts with 'image/' becomes the logo; no file or any other type leaves the logo as it was; nothing else changes |
| Showroom.Storefront.ClipCoupon | views/ShowroomView.tsx:301 | clipping only sets the clipped flag |
| Showroom.Storefront.ToggleTrack | views/ShowroomView.tsx:225 | either track button flips the tracked flag |
| Showroom.Storefront.ToggleSound | views/ShowroomView.tsx:83-86 | the sound button flips the muted flag |
| Showroom.Storefront.SelectTab | views/ShowroomView.tsx:322 | a tab button selects its tab |
| Showroom.RejectedBannerKeepsPrevious | views/ShowroomView.tsx:64-70 | a tall banner after a wide one shows the landscape error and keeps the first; a later square one is taken and clears the error |
| Showroom.TogglesAndClip | views/ShowroomView.tsx:301 | toggling twice restores both flags, and clipping twice leaves the coupon clipped |

## Left out

- Theme switching (Header and ProfileView) writes the DOM, local storage and meta tags. It is not part of this model.
- VideoPlayerView (clipboard, toasts, menu placement, the video element) is not part of this model. Only the ad and the related list App passes it are modelled.
- The create dialog's contents: it is a static grid of options without handlers, so only its open flag is modelled.
- Browser APIs in the showroom are not modelled: object URLs are a parameter, URL revocation is left out, and the asynchronous metadata load is collapsed into an optional width and height on the chosen file (absent: the callback has not run).
- Scrolling (`window.scrollTo` on an ad click, the shelf scroll buttons) is left out: it changes no state.
- The interval's timing is left out; a tick is one abstract step.
- Countdown.Timer.constructor: requires a non-empty initial time to be well formed, meaning at least three ':'-separated fields of ASCII digits (an empty field reads as 0, extra fields are ignored). Number coercions outside that domain (NaN, blanks, signs, fractions, values beyond 2^53) are not modelled.
- React's functional state update in the tick is modelled as a direct write of the new display. Two intervals never run at once, because the effect's cleanup runs before each restart.
- Rendering (cards, icons, copy, styling) is left out. Sidebar and the bottom bar appear only as the ids they send. The sidebar's secondary links have no handler, and the header's profile menu is left out.
- The showroom's hard-coded brand record and its header video are display data. Only the shelves, filters and state cells are modelled.
- Only two shelves of the mock catalog are pinned to their ads in a lemma. The New Drops and Showcase shelves follow from `Showroom.ShelfVideos` together with `Catalog.CatalogDropsAndLocations` and `Catalog.CatalogStylesAndIndustries`.

## Findings

| source | as written | input that shows it | evidently intended | confidence | as-written member | corrected member |
|---|---|---|---|---|---|---|
| App.tsx:26-41 | the case labels of the feed switch are the bar's emoji labels mis-encoded (their UTF-8 bytes read as Windows-1252), so no label the category bar sends matches a case, and every category falls to the default | selecting '✂️ Coupons' on the bar shows all six ads | each bar label selects its own case, so '✂️ Coupons' shows ad '1' alone | high, not executed | Feed.CouponsAsWritten | Feed.CouponsAsIntended |
