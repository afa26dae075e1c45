/**
 * The app catalog: app records as the apps listener stores them, the category
 * display helper, the catalog page's pipeline (category filter, then search, then
 * sort, all on a copy of `appsData`), the category option list, and the home page's
 * featured app and updates strip.
 */
module Catalog {
  import opened Common
  import opened Text

  /** An app document as the store delivers it; `category` is the id of the referenced category document. */
  datatype AppDoc = AppDoc(
    id: string, name: string, tagline: string, description: string, version: string,
    category: Option<string>, downloads: int, releaseMillis: Option<int>,
    screenshots: seq<string>, rating: real)

  /** An entry of `appsData`: the document's fields plus the resolved category id and display name. */
  datatype App = App(
    id: string, name: string, tagline: string, description: string, version: string,
    categoryId: string, categoryName: string, downloads: int, releaseMillis: Option<int>,
    screenshots: seq<string>, rating: real)

  /** The developer profile document. */
  datatype Profile = Profile(name: string, links: seq<string>, featuredAppId: Option<string>)

  datatype CategoryDetails = CategoryDetails(name: string, icon: string)

  /** The five category ids with a display name and icon of their own, as a lookup table. */
  const CategoryTable: seq<(string, CategoryDetails)> := [
    ("productivity", CategoryDetails("Productivity", "calendar-check")),
    ("games", CategoryDetails("Fun", "gamepad-2")),
    ("tools", CategoryDetails("Tools", "wrench")),
    ("experiments", CategoryDetails("Experiments", "flask-conical")),
    ("misc", CategoryDetails("Misc", "layout-grid"))
  ]

  predicate IsKnownCategory(categoryId: string) {
    exists k :: 0 <= k < |CategoryTable| && CategoryTable[k].0 == categoryId
  }

  /**
   * The display name and icon of a category id: the table entry for a known id,
   * otherwise the id itself as name with the generic grid icon.
   */
  function DisplayCategoryDetails(categoryId: string): (d: CategoryDetails)
    ensures forall k :: 0 <= k < |CategoryTable| && CategoryTable[k].0 == categoryId ==> d == CategoryTable[k].1
    ensures !IsKnownCategory(categoryId) ==> d == CategoryDetails(categoryId, "layout-grid")
    ensures d.name == categoryId <==> !IsKnownCategory(categoryId)
  {
    match categoryId
    case "productivity" =>
      assert CategoryTable[0].0 == categoryId;
      CategoryDetails("Productivity", "calendar-check")
    case "games" =>
      assert CategoryTable[1].0 == categoryId;
      CategoryDetails("Fun", "gamepad-2")
    case "tools" =>
      assert CategoryTable[2].0 == categoryId;
      CategoryDetails("Tools", "wrench")
    case "experiments" =>
      assert CategoryTable[3].0 == categoryId;
      CategoryDetails("Experiments", "flask-conical")
    case "misc" =>
      assert CategoryTable[4].0 == categoryId;
      CategoryDetails("Misc", "layout-grid")
    case _ =>
      assert !IsKnownCategory(categoryId) by {
        forall k | 0 <= k < |CategoryTable| ensures CategoryTable[k].0 != categoryId {
          assert CategoryTable[k].0 in ["productivity", "games", "tools", "experiments", "misc"];
        }
      }
      CategoryDetails(categoryId, "layout-grid")
  }

  /** A category shows the generic grid icon exactly when it is unknown or is `misc`. */
  lemma GridIconIffUnknownOrMisc(categoryId: string)
    ensures DisplayCategoryDetails(categoryId).icon == "layout-grid" <==>
              !IsKnownCategory(categoryId) || categoryId == "misc"
  {
    if IsKnownCategory(categoryId) {
      var k :| 0 <= k < |CategoryTable| && CategoryTable[k].0 == categoryId;
      assert CategoryTable[k].1.icon == "layout-grid" <==> k == 4;
    }
  }

  /** Known categories have pairwise different display names, so a name identifies its id. */
  lemma DisplayNamesDistinct(a: string, b: string)
    requires IsKnownCategory(a) && IsKnownCategory(b) && a != b
    ensures DisplayCategoryDetails(a).name != DisplayCategoryDetails(b).name
  {
    var i :| 0 <= i < |CategoryTable| && CategoryTable[i].0 == a;
    var j :| 0 <= j < |CategoryTable| && CategoryTable[j].0 == b;
  }

  /**
   * One entry of `appsData` built from a snapshot document: the category id, or
   * `N/A` without a category, and its display name, or `N/A`.
   */
  function Enrich(doc: AppDoc): (a: App)
    ensures a.id == doc.id && a.name == doc.name && a.tagline == doc.tagline
    ensures a.description == doc.description && a.downloads == doc.downloads
    ensures a.releaseMillis == doc.releaseMillis && a.screenshots == doc.screenshots
    ensures a.version == doc.version && a.rating == doc.rating
    ensures doc.category.None? ==> a.categoryId == "N/A"
    ensures doc.category.Some? ==> a.categoryId == doc.category.value
    ensures a.categoryName == DisplayCategoryDetails(a.categoryId).name
  {
    var categoryId := if doc.category.Some? then doc.category.value else "N/A";
    var categoryName := if doc.category.Some? then DisplayCategoryDetails(doc.category.value).name else "N/A";
    App(doc.id, doc.name, doc.tagline, doc.description, doc.version, categoryId, categoryName,
        doc.downloads, doc.releaseMillis, doc.screenshots, doc.rating)
  }

  /** `appsData` after a snapshot: every document enriched, in the snapshot's order. */
  function EnrichAll(docs: seq<AppDoc>): (apps: seq<App>)
    ensures |apps| == |docs|
    ensures forall i :: 0 <= i < |docs| ==> apps[i] == Enrich(docs[i])
  {
    if docs == [] then [] else [Enrich(docs[0])] + EnrichAll(docs[1..])
  }

  // ---------------------------------------------------------------------------
  // Step 1 of the catalog pipeline: the category filter.

  /** `apps.filter(app => app.categoryId === category)`. */
  function FilterByCategory(apps: seq<App>, category: string): (r: seq<App>)
    ensures |r| <= |apps|
    ensures forall a :: multiset(r)[a] == if a.categoryId == category then multiset(apps)[a] else 0
  {
    if apps == [] then []
    else
      assert apps == [apps[0]] + apps[1..];
      if apps[0].categoryId == category then [apps[0]] + FilterByCategory(apps[1..], category)
      else FilterByCategory(apps[1..], category)
  }

  /** The filter keeps relative order: it distributes over concatenation. */
  lemma {:induction false} FilterByCategoryAppend(xs: seq<App>, ys: seq<App>, category: string)
    ensures FilterByCategory(xs + ys, category) == FilterByCategory(xs, category) + FilterByCategory(ys, category)
  {
    if xs == [] {
      assert xs + ys == ys;
    } else {
      assert (xs + ys)[0] == xs[0] && (xs + ys)[1..] == xs[1..] + ys;
      FilterByCategoryAppend(xs[1..], ys, category);
    }
  }

  /** Filtering twice by the same category is filtering once. */
  lemma {:induction false} FilterByCategoryIdempotent(apps: seq<App>, category: string)
    ensures FilterByCategory(FilterByCategory(apps, category), category) == FilterByCategory(apps, category)
  {
    if apps != [] {
      FilterByCategoryIdempotent(apps[1..], category);
    }
  }

  // ---------------------------------------------------------------------------
  // Step 2: the case-insensitive search over name, tagline and description.

  /** The lower-cased name, tagline or description contains the (already lower-cased) term. */
  predicate MatchesTerm(a: App, lowerTerm: string) {
    Includes(Lower(a.name), lowerTerm) || Includes(Lower(a.tagline), lowerTerm)
      || Includes(Lower(a.description), lowerTerm)
  }

  function KeepMatching(apps: seq<App>, lowerTerm: string): (r: seq<App>)
    ensures forall a :: multiset(r)[a] == if MatchesTerm(a, lowerTerm) then multiset(apps)[a] else 0
  {
    if apps == [] then []
    else
      assert apps == [apps[0]] + apps[1..];
      if MatchesTerm(apps[0], lowerTerm) then [apps[0]] + KeepMatching(apps[1..], lowerTerm)
      else KeepMatching(apps[1..], lowerTerm)
  }

  /** The search step: the term is lower-cased once, then matched against each app. */
  function SearchApps(apps: seq<App>, term: string): (r: seq<App>)
    ensures forall a :: multiset(r)[a] == if MatchesTerm(a, Lower(term)) then multiset(apps)[a] else 0
  {
    KeepMatching(apps, Lower(term))
  }

  /** The empty term matches every app. */
  lemma {:induction false} SearchEmptyKeepsAll(apps: seq<App>)
    ensures SearchApps(apps, "") == apps
  {
    if apps != [] {
      IncludesEmpty(Lower(apps[0].name));
      SearchEmptyKeepsAll(apps[1..]);
    }
  }

  /** The search ignores the case of the term. */
  lemma SearchIgnoresTermCase(apps: seq<App>, term: string)
    ensures SearchApps(apps, term) == SearchApps(apps, Lower(term))
  {
    LowerOfLower(Lower(term));
  }

  // ---------------------------------------------------------------------------
  // Step 3: the sort.

  datatype SortOrder = ByDownloads | ByRelease

  /** The compared quantity: the download count, or the release time in milliseconds with a missing date as 0. */
  function SortKey(order: SortOrder, a: App): int {
    match order
    case ByDownloads => a.downloads
    case ByRelease => a.releaseMillis.GetOr(0)
  }

  predicate NonIncreasing(s: seq<App>, order: SortOrder) {
    forall i, j :: 0 <= i < j < |s| ==> SortKey(order, s[i]) >= SortKey(order, s[j])
  }

  /** Places `x` before the first element whose key is not larger than its own. */
  function Insert(x: App, s: seq<App>, order: SortOrder): (r: seq<App>)
    ensures multiset(r) == multiset(s) + multiset{x}
  {
    if s == [] || SortKey(order, s[0]) <= SortKey(order, x) then [x] + s
    else
      assert s == [s[0]] + s[1..];
      [s[0]] + Insert(x, s[1..], order)
  }

  /** Every key in `s` is at most `v`. */
  predicate AllAtMost(s: seq<App>, order: SortOrder, v: int) {
    forall i :: 0 <= i < |s| ==> SortKey(order, s[i]) <= v
  }

  lemma {:induction false} InsertAtMost(x: App, s: seq<App>, order: SortOrder, v: int)
    requires SortKey(order, x) <= v && AllAtMost(s, order, v)
    ensures AllAtMost(Insert(x, s, order), order, v)
  {
    if !(s == [] || SortKey(order, s[0]) <= SortKey(order, x)) {
      InsertAtMost(x, s[1..], order, v);
    }
  }

  lemma ConsSorted(h: App, t: seq<App>, order: SortOrder)
    requires NonIncreasing(t, order) && AllAtMost(t, order, SortKey(order, h))
    ensures NonIncreasing([h] + t, order)
  {
    var r := [h] + t;
    forall i, j | 0 <= i < j < |r| ensures SortKey(order, r[i]) >= SortKey(order, r[j]) {
      assert r[j] == t[j - 1];
      if i > 0 {
        assert r[i] == t[i - 1];
      }
    }
  }

  /** Inserting into a non-increasing list keeps it non-increasing. */
  lemma {:induction false} InsertSorted(x: App, s: seq<App>, order: SortOrder)
    requires NonIncreasing(s, order)
    ensures NonIncreasing(Insert(x, s, order), order)
  {
    if s == [] || SortKey(order, s[0]) <= SortKey(order, x) {
      assert AllAtMost(s, order, SortKey(order, x)) by {
        forall i | 0 <= i < |s| ensures SortKey(order, s[i]) <= SortKey(order, x) {
          assert i == 0 || SortKey(order, s[0]) >= SortKey(order, s[i]);
        }
      }
      ConsSorted(x, s, order);
    } else {
      InsertSorted(x, s[1..], order);
      assert AllAtMost(s[1..], order, SortKey(order, s[0])) by {
        forall i | 0 <= i < |s[1..]| ensures SortKey(order, s[1..][i]) <= SortKey(order, s[0]) {
          assert s[1..][i] == s[i + 1];
        }
      }
      InsertAtMost(x, s[1..], order, SortKey(order, s[0]));
      ConsSorted(s[0], Insert(x, s[1..], order), order);
    }
  }

  /** The comparator sort: a stable sort on descending key (insertion sort as the reference). */
  function SortDescending(s: seq<App>, order: SortOrder): (r: seq<App>)
    ensures multiset(r) == multiset(s)
    ensures NonIncreasing(r, order)
  {
    if s == [] then []
    else
      assert s == [s[0]] + s[1..];
      InsertSorted(s[0], SortDescending(s[1..], order), order);
      Insert(s[0], SortDescending(s[1..], order), order)
  }

  /** The apps whose key equals `k`, in order. */
  function WithKey(s: seq<App>, order: SortOrder, k: int): seq<App> {
    if s == [] then []
    else if SortKey(order, s[0]) == k then [s[0]] + WithKey(s[1..], order, k)
    else WithKey(s[1..], order, k)
  }

  lemma {:induction false} InsertKeepsTies(x: App, s: seq<App>, order: SortOrder, k: int)
    ensures WithKey(Insert(x, s, order), order, k)
         == (if SortKey(order, x) == k then [x] else []) + WithKey(s, order, k)
  {
    if s == [] || SortKey(order, s[0]) <= SortKey(order, x) {
      assert ([x] + s)[1..] == s;
    } else {
      InsertKeepsTies(x, s[1..], order, k);
      assert ([s[0]] + Insert(x, s[1..], order))[1..] == Insert(x, s[1..], order);
    }
  }

  /** Stability: apps with equal keys keep their relative order. */
  lemma {:induction false} SortKeepsTies(s: seq<App>, order: SortOrder, k: int)
    ensures WithKey(SortDescending(s, order), order, k) == WithKey(s, order, k)
  {
    if s != [] {
      SortKeepsTies(s[1..], order, k);
      InsertKeepsTies(s[0], SortDescending(s[1..], order), order, k);
    }
  }

  /** The sort step: `Most Downloaded` and `Newest` sort, any other key leaves the order alone. */
  function ApplySort(apps: seq<App>, sort: string): (r: seq<App>)
    ensures multiset(r) == multiset(apps)
    ensures sort == "Most Downloaded" ==> NonIncreasing(r, ByDownloads)
    ensures sort == "Newest" ==> NonIncreasing(r, ByRelease)
    ensures sort != "Most Downloaded" && sort != "Newest" ==> r == apps
  {
    if sort == "Most Downloaded" then SortDescending(apps, ByDownloads)
    else if sort == "Newest" then SortDescending(apps, ByRelease)
    else apps
  }

  // ---------------------------------------------------------------------------
  // The whole pipeline.

  /** Category filters that show every category: none, `all`, or a sort key. */
  predicate SkipsCategoryFilter(filter: string) {
    filter == "" || filter == "all" || filter == "Most Downloaded" || filter == "Newest"
  }

  /** An app survives the two filtering steps. */
  predicate ShownInCatalog(a: App, filter: string, search: string) {
    (SkipsCategoryFilter(filter) || a.categoryId == filter)
      && (search == "" || MatchesTerm(a, Lower(search)))
  }

  /** Reference definition of the filtered list: the shown apps in their original order. */
  function Shown(apps: seq<App>, filter: string, search: string): (r: seq<App>)
    ensures forall a :: multiset(r)[a] == if ShownInCatalog(a, filter, search) then multiset(apps)[a] else 0
  {
    if apps == [] then []
    else
      assert apps == [apps[0]] + apps[1..];
      if ShownInCatalog(apps[0], filter, search) then [apps[0]] + Shown(apps[1..], filter, search)
      else Shown(apps[1..], filter, search)
  }

  lemma {:induction false} FilterStepsAreShown(apps: seq<App>, filter: string, search: string)
    ensures var afterCategory := if SkipsCategoryFilter(filter) then apps else FilterByCategory(apps, filter);
            (if search == "" then afterCategory else SearchApps(afterCategory, search)) == Shown(apps, filter, search)
  {
    if apps != [] {
      FilterStepsAreShown(apps[1..], filter, search);
    }
  }

  /**
   * The list the catalog page shows: exactly the apps passing the category filter and
   * the search, each as often as in `apps`; sorted for the two sort keys, stably, and
   * in their original order for any other key.
   */
  function CatalogApps(apps: seq<App>, filter: string, sort: string, search: string): (r: seq<App>)
    ensures forall a :: multiset(r)[a] == if ShownInCatalog(a, filter, search) then multiset(apps)[a] else 0
    ensures sort == "Most Downloaded" ==> NonIncreasing(r, ByDownloads)
    ensures sort == "Newest" ==> NonIncreasing(r, ByRelease)
    ensures sort == "Most Downloaded" ==> forall k :: WithKey(r, ByDownloads, k) == WithKey(Shown(apps, filter, search), ByDownloads, k)
    ensures sort == "Newest" ==> forall k :: WithKey(r, ByRelease, k) == WithKey(Shown(apps, filter, search), ByRelease, k)
    ensures sort != "Most Downloaded" && sort != "Newest" ==> r == Shown(apps, filter, search)
  {
    var afterCategory := if SkipsCategoryFilter(filter) then apps else FilterByCategory(apps, filter);
    var afterSearch := if search == "" then afterCategory else SearchApps(afterCategory, search);
    FilterStepsAreShown(apps, filter, search);
    forall k ensures WithKey(SortDescending(afterSearch, ByDownloads), ByDownloads, k) == WithKey(afterSearch, ByDownloads, k)
                  && WithKey(SortDescending(afterSearch, ByRelease), ByRelease, k) == WithKey(afterSearch, ByRelease, k) {
      SortKeepsTies(afterSearch, ByDownloads, k);
      SortKeepsTies(afterSearch, ByRelease, k);
    }
    ApplySort(afterSearch, sort)
  }

  /** A category filter shows only apps of that category. */
  lemma CatalogOnlyShowsCategory(apps: seq<App>, filter: string, sort: string, search: string)
    requires !SkipsCategoryFilter(filter)
    ensures forall a :: a in CatalogApps(apps, filter, sort, search) ==> a.categoryId == filter
  {
    var r := CatalogApps(apps, filter, sort, search);
    forall a | a in r ensures a.categoryId == filter {
      assert multiset(r)[a] > 0;
    }
  }

  // ---------------------------------------------------------------------------
  // The category option list: `new Map(appsData.map(app => [app.categoryId, app.categoryName]))`,
  // without `N/A` and empty entries.

  datatype CategoryOption = CategoryOption(id: string, name: string)

  predicate DistinctIds(opts: seq<CategoryOption>) {
    forall i, j :: 0 <= i < j < |opts| ==> opts[i].id != opts[j].id
  }

  /** `Map.set`: overwrite the entry with this id where it stands, or append a new one. */
  function Upsert(opts: seq<CategoryOption>, id: string, name: string): (r: seq<CategoryOption>)
    requires DistinctIds(opts)
    ensures forall o :: o in r <==> (o in opts && o.id != id) || o == CategoryOption(id, name)
    ensures DistinctIds(r)
  {
    if opts == [] then [CategoryOption(id, name)]
    else if opts[0].id == id then
      assert forall o :: o in opts[1..] ==> o.id != id;
      [CategoryOption(id, name)] + opts[1..]
    else [opts[0]] + Upsert(opts[1..], id, name)
  }

  /** The display name of the last app carrying this category id, if any. */
  function LastCategoryName(apps: seq<App>, id: string): Option<string> {
    if apps == [] then None
    else if apps[|apps| - 1].categoryId == id then Some(apps[|apps| - 1].categoryName)
    else LastCategoryName(apps[..|apps| - 1], id)
  }

  /** The map built from `appsData`: one entry per category id, holding the last name written for it. */
  function CategoryMap(apps: seq<App>): (r: seq<CategoryOption>)
    ensures DistinctIds(r)
    ensures forall o :: o in r <==> LastCategoryName(apps, o.id) == Some(o.name)
  {
    if apps == [] then []
    else
      var last := apps[|apps| - 1];
      Upsert(CategoryMap(apps[..|apps| - 1]), last.categoryId, last.categoryName)
  }

  /** The options of the category drop-down: the map's entries with a non-empty id and name other than `N/A`. */
  function CategoryOptions(apps: seq<App>): (r: seq<CategoryOption>)
    ensures DistinctIds(r)
    ensures forall o :: o in r <==>
      LastCategoryName(apps, o.id) == Some(o.name) && o.id != "" && o.name != "" && o.id != "N/A"
  {
    KeepOptions(CategoryMap(apps))
  }

  function KeepOptions(opts: seq<CategoryOption>): (r: seq<CategoryOption>)
    ensures forall o :: o in r <==> o in opts && o.id != "" && o.name != "" && o.id != "N/A"
    ensures DistinctIds(opts) ==> DistinctIds(r)
  {
    if opts == [] then []
    else if opts[0].id != "" && opts[0].name != "" && opts[0].id != "N/A" then [opts[0]] + KeepOptions(opts[1..])
    else KeepOptions(opts[1..])
  }

  // ---------------------------------------------------------------------------
  // Home page: the featured app and the updates strip.

  /** `apps.find(app => app.id === id)`: the first app with that id. */
  function FindById(apps: seq<App>, id: string): (r: Option<App>)
    ensures r.None? <==> forall i :: 0 <= i < |apps| ==> apps[i].id != id
    ensures r.Some? ==> exists i :: 0 <= i < |apps| && apps[i] == r.value && r.value.id == id
                                   && forall j :: 0 <= j < i ==> apps[j].id != id
  {
    if apps == [] then None
    else if apps[0].id == id then
      assert apps[0] == apps[0];
      Some(apps[0])
    else
      var r := FindById(apps[1..], id);
      assert forall i :: 1 <= i < |apps| ==> apps[i] == apps[1..][i - 1];
      if r.Some? then
        var i :| 0 <= i < |apps[1..]| && apps[1..][i] == r.value && r.value.id == id
                 && forall j :: 0 <= j < i ==> apps[1..][j].id != id;
        assert apps[i + 1] == r.value;
        r
      else r
  }

  /** The profile names a featured app (`developer?.featuredAppId` is truthy). */
  predicate HasFeaturedId(developer: Option<Profile>) {
    developer.Some? && developer.value.featuredAppId.Some? && developer.value.featuredAppId.value != ""
  }

  /** The featured app: the app the profile names, else the newest (first) app, if any. */
  function FeaturedApp(apps: seq<App>, developer: Option<Profile>): (r: Option<App>)
    ensures HasFeaturedId(developer) ==>
      (r.Some? <==> exists i :: 0 <= i < |apps| && apps[i].id == developer.value.featuredAppId.value)
    ensures HasFeaturedId(developer) && r.Some? ==> r.value in apps && r.value.id == developer.value.featuredAppId.value
    ensures !HasFeaturedId(developer) ==> (r.Some? <==> |apps| > 0) && (r.Some? ==> r.value == apps[0])
  {
    if HasFeaturedId(developer) then FindById(apps, developer.value.featuredAppId.value)
    else if |apps| > 0 then Some(apps[0])
    else None
  }

  /** A named featured app that is not loaded gives no featured app: there is no fall-back to the first app. */
  lemma FeaturedNoFallback(apps: seq<App>, developer: Option<Profile>)
    requires HasFeaturedId(developer)
    requires forall a :: a in apps ==> a.id != developer.value.featuredAppId.value
    ensures FeaturedApp(apps, developer) == None
  {
  }

  /** The home page's updates strip: the first four apps (fewer if there are fewer), in order. */
  function UpdatesStrip(apps: seq<App>): (r: seq<App>)
    ensures |r| == if |apps| < 4 then |apps| else 4
    ensures r <= apps
  {
    apps[..if |apps| < 4 then |apps| else 4]
  }
}
