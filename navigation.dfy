/**
 * The page's navigation state and the operations that assign it. `showPage`,
 * `showAppDetail`, `filterApps` and `handleRouting` become methods of `NavState`
 * that return the view they render; the renderers behind them become `Render`.
 */
module Navigation {
  import opened Common
  import opened Text
  import opened Catalog
  import opened Format
  import opened Router

  datatype ChangelogEntry = ChangelogEntry(version: string, notes: string)

  /** A home-page category tile: its label, its icon and the fragment it navigates to. */
  datatype QuickTile = QuickTile(caption: string, icon: string, hash: string)

  /** What a page renderer shows, without its markup. */
  datatype View =
    | LoadingView
    | EmptyStoreView
    | HomeView(featured: Option<App>, updates: seq<App>, tiles: seq<QuickTile>)
    | CatalogView(apps: seq<App>, options: seq<CategoryOption>, filter: string, sort: string, search: string)
    | ProfileMissingView
    | AboutView(profile: Profile, links: seq<LinkDetails>)
    | UpdatesView(apps: seq<App>)
    | DetailView(app: App, changelog: seq<ChangelogEntry>)
    | NotFoundView

  // ---------------------------------------------------------------------------
  // The home page's quick-category tiles.

  const QuickCategoryLabels: seq<string> := ["Productivity", "Fun", "Tools", "Experiments"]

  /**
   * The tile does what its label says: it opens the catalog on a known category that
   * is displayed under the tile's label and with the tile's icon.
   */
  predicate OpensItsCategory(t: QuickTile) {
    var r := ParseRoute(t.hash);
    r.ToPage? && r.page == Apps && r.filter.Some? && IsKnownCategory(r.filter.value)
    && DisplayCategoryDetails(r.filter.value) == CategoryDetails(t.caption, t.icon)
  }

  /** The tile fragment as written: the lower-cased display label used as a category id. */
  function TileHashAsWritten(caption: string): (h: string)
    ensures '/' !in caption ==> ParseRoute(h) == ToPage(Apps, Some(Lower(caption)))
  {
    var h := "#apps/filter/" + Lower(caption);
    LowerKeepsSlashFree(caption);
    if '/' in caption then h
    else
      FilterHashRoundTrip(Lower(caption));
      h
  }

  /** The tile icon as written (`getCategoryIcon`): the fallback icon unless the lower-cased label is a known id. */
  function TileIconAsWritten(caption: string): (icon: string)
    ensures icon == "layout-grid" <==> !IsKnownCategory(Lower(caption)) || Lower(caption) == "misc"
  {
    GridIconIffUnknownOrMisc(Lower(caption));
    DisplayCategoryDetails(Lower(caption)).icon
  }

  /** The tiles `renderHomePage` emits, as written. */
  function QuickTilesAsWritten(): (tiles: seq<QuickTile>)
    ensures |tiles| == |QuickCategoryLabels|
    ensures forall i :: 0 <= i < |tiles| ==>
              tiles[i].caption == QuickCategoryLabels[i]
              && ParseRoute(tiles[i].hash) == ToPage(Apps, Some(Lower(QuickCategoryLabels[i])))
              && tiles[i].icon == TileIconAsWritten(QuickCategoryLabels[i])
  {
    assert forall i :: 0 <= i < |QuickCategoryLabels| ==> '/' !in QuickCategoryLabels[i];
    seq(|QuickCategoryLabels|, i requires 0 <= i < |QuickCategoryLabels| =>
      QuickTile(QuickCategoryLabels[i], TileIconAsWritten(QuickCategoryLabels[i]), TileHashAsWritten(QuickCategoryLabels[i])))
  }

  /**
   * As written, the `Fun` tile filters by the id `fun`, but the category whose display
   * name is `Fun` has the id `games`: the tile does not open its category, never shows
   * a games app, and its icon is the fallback icon rather than the games icon.
   */
  lemma FunTileMissesGames(apps: seq<App>, sort: string, search: string)
    ensures QuickTilesAsWritten()[1].caption == "Fun" && !OpensItsCategory(QuickTilesAsWritten()[1])
    ensures ParseRoute(QuickTilesAsWritten()[1].hash) == ToPage(Apps, Some("fun"))
    ensures DisplayCategoryDetails("games").name == "Fun"
    ensures QuickTilesAsWritten()[1].icon == "layout-grid" != DisplayCategoryDetails("games").icon
    ensures forall a :: a in CatalogApps(apps, "fun", sort, search) ==> a.categoryId != "games"
  {
    assert CategoryTable[1].0 == "games";
    assert Lower("Fun") == "fun";
    assert DisplayCategoryDetails("fun").name == "fun";
    CatalogOnlyShowsCategory(apps, "fun", sort, search);
  }

  /** The id of the known category with this display name, if any. */
  function CategoryIdForLabel(caption: string): (r: Option<string>)
    ensures r.Some? ==> IsKnownCategory(r.value) && DisplayCategoryDetails(r.value).name == caption
  {
    LookupLabel(CategoryTable, caption)
  }

  function LookupLabel(table: seq<(string, CategoryDetails)>, caption: string): (r: Option<string>)
    requires forall k :: 0 <= k < |table| ==> table[k] in CategoryTable
    ensures r.Some? ==> exists k :: 0 <= k < |table| && table[k].0 == r.value && table[k].1.name == caption
  {
    if table == [] then None
    else if table[0].1.name == caption then Some(table[0].0)
    else
      var r := LookupLabel(table[1..], caption);
      assert forall k :: 0 <= k < |table[1..]| ==> table[1..][k] == table[k + 1];
      r
  }

  /** The tile fragment as evidently intended: the category id whose display name is the label. */
  function TileHash(caption: string): string {
    match CategoryIdForLabel(caption)
    case Some(id) => "#apps/filter/" + id
    case None => "#apps"
  }

  /** The tile icon as evidently intended: the icon of the category whose display name is the label. */
  function TileIcon(caption: string): string {
    match CategoryIdForLabel(caption)
    case Some(id) => DisplayCategoryDetails(id).icon
    case None => "layout-grid"
  }

  /** With the intended fragments and icons every tile opens the category it is labelled with. */
  lemma TilesOpenTheirCategory(caption: string)
    requires caption in QuickCategoryLabels
    ensures OpensItsCategory(QuickTile(caption, TileIcon(caption), TileHash(caption)))
  {
    var id := CategoryIdForLabel(caption).value;
    assert id in ["productivity", "games", "tools", "experiments"];
    FilterHashRoundTrip(id);
  }

  lemma AllTilesOpenTheirCategory()
    ensures forall caption :: caption in QuickCategoryLabels ==>
              OpensItsCategory(QuickTile(caption, TileIcon(caption), TileHash(caption)))
  {
    forall caption | caption in QuickCategoryLabels
      ensures OpensItsCategory(QuickTile(caption, TileIcon(caption), TileHash(caption)))
    {
      TilesOpenTheirCategory(caption);
    }
  }

  /** The tiles as evidently intended: each opens the category displayed under its label. */
  function QuickTiles(): (tiles: seq<QuickTile>)
    ensures |tiles| == |QuickCategoryLabels|
    ensures forall i :: 0 <= i < |tiles| ==> tiles[i].caption == QuickCategoryLabels[i] && OpensItsCategory(tiles[i])
  {
    AllTilesOpenTheirCategory();
    seq(|QuickCategoryLabels|, i requires 0 <= i < |QuickCategoryLabels| =>
      QuickTile(QuickCategoryLabels[i], TileIcon(QuickCategoryLabels[i]), TileHash(QuickCategoryLabels[i])))
  }

  // ---------------------------------------------------------------------------
  // The renderers.

  /** The changelog shown: the fetched entries, or none when the fetch threw. */
  function ChangelogOrEmpty(fetched: Option<seq<ChangelogEntry>>): (c: seq<ChangelogEntry>)
    ensures fetched.Some? ==> c == fetched.value
    ensures fetched.None? ==> c == []
  {
    fetched.GetOr([])
  }

  /** The profile links as the about page shows them, in order. */
  function LinksOf(links: seq<string>): (r: seq<LinkDetails>)
    ensures |r| == |links|
    ensures forall i :: 0 <= i < |links| ==>
              r[i].url == links[i]
              && (r[i].caption == links[i] <==> forall k :: 0 <= k < |LinkHosts| ==> !Includes(links[i], LinkHosts[k].0))
    ensures forall i, k :: 0 <= i < |links| && FirstHostMatch(links[i], k) ==>
              r[i].icon == LinkHosts[k].1 && r[i].caption == LinkHosts[k].2
    ensures forall i :: 0 <= i < |links| && (forall k :: 0 <= k < |LinkHosts| ==> !Includes(links[i], LinkHosts[k].0)) ==>
              r[i].icon == "link"
  {
    if links == [] then []
    else
      LabelIsUrlIffUnrecognised(links[0]);
      [LinkDetailsFor(links[0])] + LinksOf(links[1..])
  }

  /** The pages with a renderer of their own in `showPage`'s switch. */
  predicate HasRenderer(page: Page) {
    page == Home || page == Apps || page == About || page == Updates
  }

  /**
   * The renderer `showPage` selects: each shows the loading page while data is not
   * ready; the home page needs apps or a profile; the about page needs a profile; a
   * page without a renderer is not found.
   */
  function Render(page: Page, ready: bool, apps: seq<App>, developer: Option<Profile>,
                  filter: string, sort: string, search: string): (v: View)
    ensures HasRenderer(page) && !ready ==> v == LoadingView
    ensures !HasRenderer(page) ==> v == NotFoundView
    ensures v == EmptyStoreView <==> page == Home && ready && apps == [] && developer == None
    ensures v == ProfileMissingView <==> page == About && ready && developer == None
    ensures page == Home && ready && !(apps == [] && developer == None) ==> v.HomeView?
    ensures page == Apps && ready ==> v.CatalogView?
    ensures page == About && ready && developer.Some? ==> v.AboutView?
    ensures page == Updates && ready ==> v.UpdatesView?
    ensures v.HomeView? ==>
              v.featured == FeaturedApp(apps, developer) && v.updates == UpdatesStrip(apps)
              && v.tiles == QuickTilesAsWritten()
    ensures v.CatalogView? ==>
              page == Apps && v.apps == CatalogApps(apps, filter, sort, search) && v.options == CategoryOptions(apps)
    ensures v.AboutView? ==> developer == Some(v.profile) && v.links == LinksOf(v.profile.links)
    ensures v.UpdatesView? ==> v.apps == apps
  {
    match page
    case Home =>
      if !ready then LoadingView
      else if |apps| == 0 && developer.None? then EmptyStoreView
      else HomeView(FeaturedApp(apps, developer), UpdatesStrip(apps), QuickTilesAsWritten())
    case Apps =>
      if !ready then LoadingView
      else CatalogView(CatalogApps(apps, filter, sort, search), CategoryOptions(apps), filter, sort, search)
    case About =>
      if !ready then LoadingView
      else if developer.None? then ProfileMissingView
      else AboutView(developer.value, LinksOf(developer.value.links))
    case Updates =>
      if !ready then LoadingView
      else UpdatesView(apps)
    case _ => NotFoundView
  }

  /** `selectedAppId` is set and non-empty. */
  predicate Truthy(id: Option<string>) {
    id.Some? && id.value != ""
  }

  // ---------------------------------------------------------------------------
  // The module-level state.

  class NavState {
    var appsData: seq<App>
    var developer: Option<Profile>
    var isDataReady: bool
    var currentPage: Page
    var currentFilter: string
    var currentSort: string
    var currentSearch: string
    var selectedAppId: Option<string>

    /** The filter is kept lower-cased. */
    ghost predicate Valid()
      reads this
    {
      IsLower(currentFilter)
    }

    /** The state when the script loads. */
    constructor ()
      ensures appsData == [] && developer == None && !isDataReady
      ensures currentPage == Home && currentFilter == "all" && currentSort == "Newest"
      ensures currentSearch == "" && selectedAppId == None
      ensures Valid()
    {
      appsData := [];
      developer := None;
      isDataReady := false;
      currentPage := Home;
      currentFilter := "all";
      currentSort := "Newest";
      currentSearch := "";
      selectedAppId := None;
    }

    /** What `page`'s renderer shows for the current state. */
    function CurrentView(page: Page): View
      reads this
    {
      Render(page, isDataReady, appsData, developer, currentFilter, currentSort, currentSearch)
    }

    /**
     * The outcome of opening the detail page of `appId`: the app with its changelog
     * when it is loaded, else the catalog (or the loading page while data is not ready).
     */
    ghost predicate ShowsDetail(appId: string, fetched: Option<seq<ChangelogEntry>>, v: View)
      reads this
    {
      selectedAppId == Some(appId)
      && match FindById(appsData, appId)
         case Some(app) => currentPage == AppDetail && v == DetailView(app, ChangelogOrEmpty(fetched))
         case None => currentPage == Apps && v == (if isDataReady then CurrentView(Apps) else LoadingView)
    }

    /** The outcome of `showPage(page, { filter, sort })` from filter `filter0`, sort `sort0` and selection `selected0`. */
    ghost predicate PageShown(page: Page, filter: Option<string>, sort: Option<string>,
                              fetched: Option<seq<ChangelogEntry>>, v: View,
                              filter0: string, sort0: string, selected0: Option<string>)
      reads this
    {
      && currentFilter == (if filter.Some? then Lower(filter.value) else filter0)
      && currentSort == (if sort.Some? then sort.value else sort0)
      && (if !isDataReady && page != Loading then
            v == LoadingView && currentPage == page && selectedAppId == selected0
          else if page == AppDetail && Truthy(selected0) then
            ShowsDetail(selected0.value, fetched, v)
          else
            v == CurrentView(page) && currentPage == page && selectedAppId == selected0)
    }

    /**
     * `showPage`: a supplied filter (lower-cased) or sort replaces the current one, an
     * omitted one is kept; the page becomes current; while data is not ready the
     * loading page is shown whatever was asked for; a detail page is re-opened for the
     * selected app, which falls back to the catalog when that app is gone.
     */
    method ShowPage(page: Page, filter: Option<string>, sort: Option<string>,
                    fetched: Option<seq<ChangelogEntry>>) returns (v: View)
      modifies this
      decreases if page == AppDetail then 2 else 0
      ensures PageShown(page, filter, sort, fetched, v, old(currentFilter), old(currentSort), old(selectedAppId))
      ensures appsData == old(appsData) && developer == old(developer) && isDataReady == old(isDataReady)
      ensures currentSearch == old(currentSearch)
      ensures filter.Some? || old(Valid()) ==> Valid()
    {
      var newFilter := if filter.Some? then Lower(filter.value) else currentFilter;
      var newSort := if sort.Some? then sort.value else currentSort;
      if page != currentPage || newFilter != currentFilter || newSort != currentSort {
        currentPage := page;
        currentFilter := newFilter;
        currentSort := newSort;
      }
      if !isDataReady && page != Loading {
        v := LoadingView;
        return;
      }
      if page == AppDetail && Truthy(selectedAppId) {
        v := ShowAppDetail(selectedAppId.value, fetched);
        return;
      }
      v := CurrentView(page);
    }

    /**
     * `showAppDetail`: selects the app and the detail page; when the app is not loaded
     * it shows the catalog instead, keeping the filter and the sort.
     */
    method ShowAppDetail(appId: string, fetched: Option<seq<ChangelogEntry>>) returns (v: View)
      modifies this
      decreases 1
      ensures ShowsDetail(appId, fetched, v)
      ensures appsData == old(appsData) && developer == old(developer) && isDataReady == old(isDataReady)
      ensures currentFilter == old(currentFilter) && currentSort == old(currentSort)
      ensures currentSearch == old(currentSearch)
    {
      selectedAppId := Some(appId);
      currentPage := AppDetail;
      var app := FindById(appsData, appId);
      if app.None? {
        v := ShowPage(Apps, None, None, fetched);
        return;
      }
      v := DetailView(app.value, ChangelogOrEmpty(fetched));
    }

    /** `filterApps`: the catalog with the given filter (lower-cased), sort and search. */
    method FilterApps(filter: string, sort: string, search: string) returns (v: View)
      modifies this
      ensures currentFilter == Lower(filter) && currentSort == sort && currentSearch == search
      ensures currentPage == Apps && selectedAppId == old(selectedAppId) && Valid()
      ensures appsData == old(appsData) && developer == old(developer) && isDataReady == old(isDataReady)
      ensures v == if isDataReady
                   then CatalogView(CatalogApps(appsData, Lower(filter), sort, search), CategoryOptions(appsData),
                                    Lower(filter), sort, search)
                   else LoadingView
    {
      currentFilter := filter;
      currentSort := sort;
      currentSearch := search;
      v := ShowPage(Apps, Some(filter), Some(sort), None);
    }

    /** The outcome of routing `hash` from filter `filter0`, sort `sort0` and selection `selected0`. */
    ghost predicate RouteShown(hash: string, fetched: Option<seq<ChangelogEntry>>, v: View,
                               filter0: string, sort0: string, selected0: Option<string>)
      reads this
    {
      match ParseRoute(hash)
      case ToPage(page, filter) => PageShown(page, filter, None, fetched, v, filter0, sort0, selected0)
      case ToDetail(appId) =>
        ShowsDetail(appId, fetched, v) && currentFilter == filter0 && currentSort == sort0
    }

    /** `handleRouting`: the page the fragment names, shown as `showPage` or `showAppDetail` would. */
    method HandleRouting(hash: string, fetched: Option<seq<ChangelogEntry>>) returns (v: View)
      modifies this
      ensures RouteShown(hash, fetched, v, old(currentFilter), old(currentSort), old(selectedAppId))
      ensures appsData == old(appsData) && developer == old(developer) && isDataReady == old(isDataReady)
      ensures currentSearch == old(currentSearch)
      ensures old(Valid()) ==> Valid()
    {
      match ParseRoute(hash)
      case ToPage(page, filter) =>
        v := ShowPage(page, filter, None, fetched);
      case ToDetail(appId) =>
        v := ShowAppDetail(appId, fetched);
    }
  }

  /** A routed page other than the detail page becomes the current page, and renders as such once data is ready. */
  lemma RoutedPageIsCurrent(nav: NavState, hash: string, fetched: Option<seq<ChangelogEntry>>, v: View,
                            filter0: string, sort0: string, selected0: Option<string>)
    requires nav.RouteShown(hash, fetched, v, filter0, sort0, selected0)
    requires ParseRoute(hash).ToPage?
    ensures nav.currentPage == ParseRoute(hash).page
    ensures nav.isDataReady ==> v == nav.CurrentView(nav.currentPage)
    ensures !nav.isDataReady ==> v == LoadingView
  {
  }
}
