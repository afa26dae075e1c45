# A verified model of the app store's page logic

The app store is a single-page site in `js/main.js`. It subscribes to two Firestore
sources: the apps collection and the developer profile document. It keeps its
navigation state in module-level variables and renders one page at a time, chosen by
the URL fragment. This project models that logic in Dafny:

- `Text` (text.dfy): the JavaScript string operations the page relies on. These are
  ASCII `toLowerCase`, `includes`, `split('/')` and integer `toString`.
- `Catalog` (catalog.dfy): the app records and the enrichment of each document with
  its category id and display name. It covers the category table, the catalog's
  category filter, search and stable descending sort, the category options, the
  featured app and the four-item updates strip.
- `Format` (format.dfy): the profile link details and the download-count label.
- `Router` (router.dfy): the parse of the URL fragment into a route.
- `Navigation` (navigation.dfy): the navigation state as a class, `NavState`. Its
  methods are `showPage`, `showAppDetail`, `filterApps` and `handleRouting`, and each
  returns the view it renders. `Render` is the renderer switch. The module also holds
  the home page's quick-category tiles.
- `Readiness` (readiness.dfy): the readiness gate of the two listeners. It is given
  twice: as a state machine over deliveries (`Step`, `Run`), and as the `Listeners`
  class whose snapshot and error callbacks drive a `NavState`.
- `Counters` (counters.dfy): the rating and download transactions and the local
  memory of rated apps.
- `Detail` (detail.dfy): the detail page's screenshot carousel and the star display.

The database is a map from document path to document. Several outcomes are inputs of
the operations that depend on them:

- the URL fragment;
- whether a transaction's commit goes through;
- what the changelog fetch returned (`None` when it threw).

## Model

| member | source | states |
|---|---|---|
| Text.Lower | js/main.js:460-465 | lower-casing keeps the length, maps every character through the ASCII case map and yields a lower-case string |
| Text.LowerOfLower | js/main.js:776 | lower-casing an already lower-case filter changes nothing |
| Text.Includes | js/main.js:463-465 | `includes` holds exactly when the needle occurs at some position of the haystack |
| Text.LowerKeepsSlashFree | js/main.js:417 | lower-casing a label without `/` gives a string without `/`, so it stays one fragment segment |
| Text.IncludesEmpty | js/main.js:463-465 | the empty string is included in every string |
| Text.IncludesNotLonger | js/main.js:463-465 | a needle longer than the haystack is never included |
| Text.Split | js/main.js:910 | `split` yields at least one part, no part holds the separator, and joining the parts with the separator gives the input back |
| Text.SplitNoSep | js/main.js:910 | a string without the separator splits into itself alone |
| Text.SplitAfterFirst | js/main.js:910 | splitting `a + sep + rest` gives `a` followed by the parts of `rest` |
| Text.SplitJoin | js/main.js:910 | split undoes join for parts free of the separator |
| Text.NatToString | js/main.js:55 | a natural number prints as a non-empty string of digits |
| Text.IntToString | js/main.js:55 | an integer prints as an optional minus sign and digits, with the sign exactly for negative numbers |
| Text.ParseNatToString | js/main.js:55 | reading back the printed digits of a natural number gives the number |
| Text.IntToStringRoundTrip | js/main.js:55 | reading back a printed integer gives the integer |
| Text.SmallNatDigits | js/main.js:55 | a natural number below 1000 prints in at most three digits |
| Text.SmallIntDigits | js/main.js:55 | a non-negative integer below 1000 prints in at most three characters |
| Catalog.DisplayCategoryDetails | js/main.js:36-44 | the five known ids map to their table entries; any other id keeps its own id as the name with the `layout-grid` icon; the name equals the id exactly for unknown ids |
| Catalog.GridIconIffUnknownOrMisc | js/main.js:36-44 | an id shows the `layout-grid` icon exactly when it is unknown or is `misc` |
| Catalog.DisplayNamesDistinct | js/main.js:36-44 | distinct known ids have distinct display names |
| Catalog.Enrich | js/main.js:115-122 | an app record takes the document id and copies the document's fields, version and rating included; it takes the category reference's id or `N/A`, and that id's display name |
| Catalog.EnrichAll | js/main.js:115-122 | the snapshot keeps its documents' order, one app per document |
| Catalog.FilterByCategory | js/main.js:455-457 | the filter keeps exactly the apps of the category, each as often as before |
| Catalog.FilterByCategoryAppend | js/main.js:455-457 | filtering distributes over concatenation, so order is kept |
| Catalog.FilterByCategoryIdempotent | js/main.js:455-457 | filtering twice by the same category is filtering once |
| Catalog.KeepMatching | js/main.js:461-465 | the search keeps exactly the apps whose lower-cased name, tagline or description includes the term |
| Catalog.SearchApps | js/main.js:459-466 | searching keeps exactly the apps matching the lower-cased term, each as often as before |
| Catalog.SearchEmptyKeepsAll | js/main.js:459 | an empty search term keeps every app in order |
| Catalog.SearchIgnoresTermCase | js/main.js:460 | the case of the search term does not matter |
| Catalog.Insert | js/main.js:468-473 | insertion into a sorted list adds exactly the new app |
| Catalog.InsertAtMost | js/main.js:468-473 | insertion keeps a bound on the keys |
| Catalog.ConsSorted | js/main.js:468-473 | an app whose key is no smaller than the rest heads a non-increasing list |
| Catalog.InsertSorted | js/main.js:468-473 | insertion keeps a list non-increasing by key |
| Catalog.SortDescending | js/main.js:468-473 | the sort is a permutation and non-increasing by key |
| Catalog.InsertKeepsTies | js/main.js:468-473 | insertion keeps the relative order of apps with equal keys |
| Catalog.SortKeepsTies | js/main.js:468-473 | the sort is stable: apps with equal keys keep their order |
| Catalog.ApplySort | js/main.js:468-473 | `Most Downloaded` orders by downloads descending, `Newest` by release time descending with a missing date as 0, any other sort keeps the order; always a permutation |
| Catalog.Shown | js/main.js:455-466 | the reference selection: exactly the apps passing both the category step and the search step |
| Catalog.FilterStepsAreShown | js/main.js:455-466 | the category step followed by the search step is the reference selection |
| Catalog.CatalogApps | js/main.js:449-473 | the catalog lists exactly the selected apps, each as often as loaded, sorted as asked and stably, and unsorted for any other sort value |
| Catalog.CatalogOnlyShowsCategory | js/main.js:455-457 | a category filter other than the four pass-through values lists only apps of that category |
| Catalog.Upsert | js/main.js:483 | a `Map` write replaces the entry of its key, or adds one, keeping keys distinct |
| Catalog.CategoryMap | js/main.js:483 | the category map has one entry per id, named by the last app of that id |
| Catalog.CategoryOptions | js/main.js:483-484 | the options are exactly the map entries with a non-empty id and name and an id other than `N/A` |
| Catalog.KeepOptions | js/main.js:484 | the option filter drops exactly the entries with an empty id or name or the id `N/A` |
| Catalog.FindById | js/main.js:864 | the lookup finds an app with the id exactly when one is loaded |
| Catalog.FeaturedApp | js/main.js:352 | with a featured id, the featured app is the loaded app with that id or none; without one, it is the first app, if any |
| Catalog.FeaturedNoFallback | js/main.js:352 | a featured id matching no app shows no featured app, even when apps are loaded |
| Catalog.UpdatesStrip | js/main.js:356-361 | the updates strip is the first four apps, or all of them when fewer |
| Format.LinkDetailsFor | js/main.js:192-201 | a link keeps its URL and takes the icon and label of the first recognised host, or `link` and the URL itself |
| Format.LabelIsUrlIffUnrecognised | js/main.js:192-201 | the label is the URL exactly when no host is recognised |
| Format.HumanReadableDownloads | js/main.js:52-56 | counts from one million take `M`, from one thousand `K`, each divided by its divisor, so `K` values lie in [1, 1000) and `M` values are at least 1; smaller counts print as their own digits, which read back to the count |
| Router.Segments | js/main.js:909-910 | an empty fragment reads as `#home`; the segments are the parts between `/` of the fragment after `#`, and joining them with `/` gives that text back |
| Router.ParseRoute | js/main.js:908-937 | every fragment routes to a home, apps, updates or about page or an app detail, with no `/` in a filter or id |
| Router.SegmentsOne | js/main.js:910 | `#a` has the single segment `a` |
| Router.SegmentsTwo | js/main.js:910 | `#a/b` has the segments `a`, `b` |
| Router.SegmentsThree | js/main.js:910 | `#a/b/c` has the segments `a`, `b`, `c` |
| Router.FilterHashRoundTrip | js/main.js:916-919 | `#apps/filter/<id>` routes to the catalog filtered by that id |
| Router.DetailHashRoundTrip | js/main.js:926-933 | `#app/<id>` routes to the detail page of that id |
| Router.RouteHashRoundTrip | js/main.js:908-937 | every route is parsed back from the fragment written for it |
| Router.EmptyHashRoutesHome | js/main.js:909 | an empty fragment is the home page |
| Router.AppsRoutesAll | js/main.js:916-919 | `#apps` shows every category |
| Router.DetailWithoutIdRoutesApps | js/main.js:926-933 | `#app` and `#app/` go to the catalog, keeping the current filter |
| Router.UnknownSegmentRoutesHome | js/main.js:934-935 | an unknown first segment falls back to the home page, whatever follows |
| Navigation.TileHashAsWritten | js/main.js:417 | as written, a tile's fragment routes to the catalog filtered by its lower-cased label, whenever the label has no `/` |
| Navigation.TileIconAsWritten | js/main.js:299-302 | as written (the tile icon of js/main.js:421), a tile shows the `layout-grid` icon exactly when its lower-cased label is not a known id or is `misc` |
| Navigation.QuickTilesAsWritten | js/main.js:415-421 | the home page shows four tiles in label order, each routing to the catalog filtered by its lower-cased label, with that label's as-written icon |
| Navigation.FunTileMissesGames | js/main.js:415-421 | as written, the `Fun` tile routes to the filter `fun` and shows no app of the `games` category; its icon is the fallback instead of the games icon |
| Navigation.CategoryIdForLabel | js/main.js:36-44 | a label's category id, when found, is a known id displayed under that label |
| Navigation.TilesOpenTheirCategory | js/main.js:415-421 | with the intended fragments, each of the four tiles routes to the catalog filtered by a known id whose display name and icon are the tile's label and icon |
| Navigation.AllTilesOpenTheirCategory | js/main.js:415-421 | every intended tile opens its category, for all four labels at once |
| Navigation.QuickTiles | js/main.js:415-421 | the intended tiles: one per label, in order, each routing to the catalog of a known category whose display name is the label and whose icon it shows |
| Navigation.ChangelogOrEmpty | js/main.js:880-883 | the changelog shown is the fetched one, or empty when the fetch threw |
| Navigation.LinksOf | js/main.js:686 | one entry per profile link, in order, each keeping its URL; a link takes the icon and label of the first known host it contains, and otherwise the `link` icon; its label is the URL itself exactly when no known host occurs in it |
| Navigation.Render | js/main.js:794-818 | every renderer shows the loading page until data is ready, and once ready each page shows its own view: home (unless the store is empty), the catalog, about (given a profile) and updates; the home page shows the as-written quick tiles; the empty-store page appears exactly for home with no apps and no profile; the missing-profile page appears exactly for about without a profile; an unknown page is not found; the catalog shows the catalog selection and options |
| Navigation.NavState.constructor | js/main.js:22-31 | the state starts on home with filter `all`, sort `Newest`, no search, no selection and data not ready |
| Navigation.NavState.ShowPage | js/main.js:772-827 | a supplied filter (lower-cased) or sort replaces the current one and an omitted one is kept; the page becomes current; until data is ready the loading page shows; a detail page with a selected app re-opens that app; the filter stays lower-case |
| Navigation.NavState.ShowAppDetail | js/main.js:849-897 | the app is selected and shown with its changelog, or an empty one when the fetch failed; a missing app shows the catalog with the filter and sort kept |
| Navigation.NavState.FilterApps | js/main.js:900-905 | the catalog is shown with the given filter (lower-cased), sort and search |
| Navigation.NavState.HandleRouting | js/main.js:908-937 | the routed page is shown as `showPage` or `showAppDetail` shows it, with the route's filter and the current sort |
| Navigation.RoutedPageIsCurrent | js/main.js:908-937 | a routed page becomes the current page and renders as such once data is ready, and as loading before |
| Readiness.ReadyDecision | js/main.js:99-108 | the initial route fires exactly when data goes from not ready to ready, which happens once both flags hold; once ready every call re-renders |
| Readiness.Step | js/main.js:115-151 | a snapshot sets its own flag only; an error clears its flag and readiness and renders nothing |
| Readiness.StepSettled | js/main.js:96-151 | every delivery keeps readiness equal to "both flags hold" |
| Readiness.SnapshotWhileReadyRerenders | js/main.js:104-107 | a snapshot while ready re-renders the current page and keeps data ready |
| Readiness.MissingProfileStillLoads | js/main.js:135-145 | a missing profile document counts as a delivery of the profile, like a present one |
| Readiness.RunSettled | js/main.js:96-151 | readiness stays equal to "both flags hold" over any sequence of deliveries |
| Readiness.ReadyIffBothDelivered | js/main.js:96-151 | without errors, data is ready exactly when each source has delivered at least once |
| Readiness.RouteFiredAtMostOnce | js/main.js:99-103 | without errors the initial route fires at most once, never when already ready, and exactly when readiness rises; readiness is never lost |
| Readiness.Listeners.constructor | js/main.js:96-97 | both flags start cleared |
| Readiness.Listeners.CheckReady | js/main.js:99-108 | `checkReady` moves the gate as `ReadyDecision` says and shows the routed page, the re-rendered current page, or nothing |
| Readiness.Listeners.OnAppsSnapshot | js/main.js:115-126 | the apps callback stores the enriched apps, keeps the profile and the search term, moves the gate as `Step` says, keeps it settled and keeps the navigation state valid |
| Readiness.Listeners.OnProfileSnapshot | js/main.js:135-145 | the profile callback stores the profile or none, keeps the apps and the search term, moves the gate as `Step` says, keeps it settled and keeps the navigation state valid |
| Readiness.Listeners.OnAppsError | js/main.js:127-131 | the apps error callback clears its flag and readiness and changes nothing else |
| Readiness.Listeners.OnProfileError | js/main.js:146-150 | the profile error callback clears its flag and readiness and changes nothing else |
| Counters.AppDocPathAsWritten | js/main.js:947 | the path built at js/main.js:947 and 986: for the app named like the project id the path as written is its intended document; otherwise it is longer or shorter than the intended path by as much as the app id is longer or shorter than the project id |
| Counters.AppDocPathListed | js/main.js:111 | an app's intended document lies in the listed collection, and distinct apps have distinct documents |
| Counters.Apply | js/main.js:955-963 | a rating adds one to the count and the stars to the sum; a download adds one to the downloads; a missing counter counts as 0 and the other counters are kept |
| Counters.Transaction | js/main.js:950-964 | a transaction fails exactly when its document is missing or the commit fails; otherwise it changes that document alone |
| Counters.RatingKeepsWithinStars | js/main.js:956-957 | a rating of 1 to 5 stars keeps the sum between one and five times the count |
| Counters.AverageWithinStars | js/main.js:959 | the average rating lies between 1 and 5 while the ratings do |
| Counters.RatingsAccumulate | js/main.js:956-957 | successive ratings add their number to the count and their stars to the sum, and leave downloads alone |
| Counters.RatingMemory.constructor | js/main.js:942 | the memory starts as the stored map |
| Counters.RatingMemory.SubmitRating | js/main.js:941-977 | an app already rated gets an error notice and no write; otherwise the transaction runs on the path as written, and only on success is the app remembered, thanked for with its stars and re-shown; a failed transaction gives an error notice and remembers nothing; on a database of listed apps no app other than the one named like the project is ever thanked; filter, sort, search, apps and profile are kept |
| Counters.DownloadClickAt | js/main.js:979-1000 | the info notice comes first, whatever happens next; on success the committed database is the transaction's, with the document's downloads up by one; a failure is silent |
| Counters.DownloadClick | js/main.js:979-1000 | as written, the click commits exactly when the as-written path exists; on a database of listed apps, no app other than the one named like the project is ever counted |
| Counters.DownloadClickIntended | js/main.js:986 | on the intended path, a committed click on a listed app counts on its listed document and keeps the database listed |
| Counters.DownloadsAccumulate | js/main.js:993-994 | `n` committed clicks add `n` to the document's downloads and change no other document |
| Counters.ListedAppMissedAsWritten | js/main.js:947 | as written, the rating and download transactions of any app id without `/` other than the project id (the app `notes`, say) address an unlisted path, so both fail on a database of listed apps |
| Counters.ListedAppRated | js/main.js:947 | with the intended path, a listed app's rating reaches its listed document and adds one to its count |
| Detail.JsRem | js/main.js:531 | JavaScript's remainder keeps the dividend's sign, is smaller than the divisor and differs from the dividend by a multiple of the divisor; it is the dividend below the divisor and the dividend less the divisor up to twice it |
| Detail.NextIndex | js/main.js:530-533 | next moves a valid index forward, wrapping from the last screenshot to the first; with no screenshots the index becomes `NaN` |
| Detail.PrevIndex | js/main.js:534-537 | previous moves a valid index back, wrapping from the first screenshot to the last; with no screenshots the index becomes `NaN` |
| Detail.NextPrevInverse | js/main.js:530-537 | next and previous undo each other |
| Detail.NextTimesWraps | js/main.js:530-533 | `k` presses of next advance the index by `k` around the carousel, so a full round comes back |
| Detail.NoScreenshotsLosesIndex | js/main.js:530-533 | with no screenshots the index is `NaN` after any press |
| Detail.Carousel.constructor | js/main.js:509 | the carousel starts at the first screenshot |
| Detail.Carousel.Current | js/main.js:512-524 | a shown URL is always the non-empty screenshot at the index; the screenshot at a valid index is shown when it is non-empty, else the placeholder |
| Detail.Carousel.Next | js/main.js:530-533 | the index moves as `NextIndex` says and stays on a screenshot |
| Detail.Carousel.Prev | js/main.js:534-537 | the index moves as `PrevIndex` says and stays on a screenshot |
| Detail.JsFrac | js/main.js:261 | `rating % 1` carries the rating's sign, lies strictly within one of 0 and differs from the rating by a whole number |
| Detail.StarRating | js/main.js:259-268 | the counting loops emit exactly the full, half and empty stars of `StarsFor` |
| Detail.HalfSteps | js/main.js:260-262 | for a rating from 0 to 5, the full and half counts are the rating rounded down to a half |
| Detail.StarCounts | js/main.js:264-266 | the emitted row holds the full and half stars it was asked for |
| Detail.FiveStarsForRating | js/main.js:259-268 | a rating from 0 to 5 shows five stars whose full and half stars are the rating rounded down to a half |

## Left out

- Firebase initialisation, anonymous sign-in and the listener subscriptions themselves (js/main.js:154-190). The callbacks are modelled as methods that take what the subscription delivers.
- Markup, icon creation, fade timers, scrolling and `setActiveLink`. The model returns which view a renderer shows and with what data, not its HTML.
- `isReRender` and `shouldScroll`: they only decide the interim spinner and the scroll.
- The lightbox (js/main.js:204-231), the mobile menu and the scroll handler (js/main.js:233-257).
- `handleFilterChange` (js/main.js:832-843) reads the three controls from the page and passes them to `filterApps`. Reading the controls is not modelled.
- `shareApp` (js/main.js:1002-1022): it uses the browser's share sheet or clipboard.
- `formatDate`, and the release date itself. The date enters only as the optional milliseconds used by the sort.
- `createUserRating` markup (js/main.js:270-297). It only reads `ratedApps`, which `RatingMemory` models.
- The stored average `rating` written by the rating transaction (js/main.js:959) is floating point. The model keeps the count and the sum and proves the bounds of their quotient as a real.
- Format.HumanReadableDownloads: gives the scaled value as an exact real, not the one-decimal rounding of `toFixed(1)`.
- Text.Lower: lower-cases ASCII letters only. Unicode case mapping is not modelled.
- Counts and ratings are unbounded integers and exact reals. There is no floating-point overflow and no `NaN` rating. A missing `downloads` field on an app record, where the sort would compare `undefined`, is not modelled.
- Catalog.Enrich: the record puts `id: doc.id` before the spread of the document's fields (js/main.js:116-118), so a stored `id` field would override the document id. The model always keeps the document id.
- Counters.RatingMemory.SubmitRating: the model is one atomic step. The source awaits the transaction (js/main.js:950) between the rated check (js/main.js:943) and the update of the memory (js/main.js:968), so two clicks before the first commit can both write a rating.
- The localStorage JSON encoding of `ratedApps`. The map is held as a field of `RatingMemory`.
- Failures of a transaction other than a missing document are an input: the `commits` flag.
- The changelog query (js/main.js:870-883) is an input: its entries, or `None` when it threw. It builds its path the same way as the counters (see Findings), which the model does not repeat.
- The error callbacks only clear the flags. They do not render the loading page, so the page already shown stays until the next navigation. The model follows the code here, not the documented behaviour, which says an error forces the loading page.

## Findings

| source | as written | input that shows it | evidently intended | confidence | as-written member | corrected member |
|---|---|---|---|---|---|---|
| js/main.js:415-421 | the quick-category tiles link to `#apps/filter/` plus the lower-cased label, and take the icon of the lower-cased label | the `Fun` tile: it filters by `fun`, but the category displayed as `Fun` has the id `games` (js/main.js:39), so the tile lists no app and shows the fallback icon | each tile opens, and takes the icon of, the category displayed under its label | not executed | Navigation.FunTileMissesGames | Navigation.TilesOpenTheirCategory |
| js/main.js:947 | the rating and download transactions (and the changelog query at js/main.js:873) build the document path `artifacts/<app id>/public/data/apps/<app id>`, because the parameter `appId` shadows the project id of js/main.js:9 | the app `notes`: its listed document is `artifacts/codebykavin/public/data/apps/notes`, but the transaction reads `artifacts/notes/public/data/apps/notes`, which does not exist, so the rating fails and the download is not counted | the transactions address `artifacts/<project id>/public/data/apps/<app id>`, the document the apps listener reads (js/main.js:111) | not executed | Counters.ListedAppMissedAsWritten | Counters.ListedAppRated, Counters.DownloadClickIntended |
