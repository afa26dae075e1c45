/** The hash router: the location fragment decoded into a page and its parameters. */
module Router {
  import opened Common
  import opened Text

  /** The pages `showPage` knows; `AppDetail` is `app-detail`. */
  datatype Page = Home | Apps | Updates | About | AppDetail | Loading

  /**
   * What the router asks for: `showPage(page, { filter })`, where an absent filter
   * keeps the current one, or `showAppDetail(appId)`.
   */
  datatype Route = ToPage(page: Page, filter: Option<string>) | ToDetail(appId: string)

  /** The fragment (`#home` when empty) without its `#`, split on `/`. */
  function Segments(hash: string): (segs: seq<string>)
    ensures |segs| >= 1
    ensures forall k :: 0 <= k < |segs| ==> '/' !in segs[k]
    ensures Join(segs, '/') == (if hash == "" then "#home" else hash)[1..]
  {
    var h := if hash == "" then "#home" else hash;
    Split(h[1..], '/')
  }

  /** The routes the router can produce: one of the four plain pages, or a detail page with a non-empty id. */
  predicate CanonicalRoute(r: Route) {
    match r
    case ToPage(page, filter) =>
      page in {Home, Apps, Updates, About}
      && (page != Apps ==> filter == None)
      && (filter.Some? ==> '/' !in filter.value)
    case ToDetail(appId) => appId != "" && '/' !in appId
  }

  /**
   * `handleRouting`'s decision: the first segment picks the page; `apps/filter/<id>`
   * gives a category (none when the id segment is missing), plain `apps` gives `all`;
   * `app/<id>` opens a detail page, or the catalog when the id is missing or empty;
   * anything else is the home page.
   */
  function ParseRoute(hash: string): (r: Route)
    ensures CanonicalRoute(r)
  {
    var segs := Segments(hash);
    var path := segs[0];
    var params := segs[1..];
    if path == "home" then ToPage(Home, None)
    else if path == "apps" then
      var filter := if |params| > 0 && params[0] == "filter"
                    then (if |params| > 1 then Some(params[1]) else None)
                    else Some("all");
      ToPage(Apps, filter)
    else if path == "updates" then ToPage(Updates, None)
    else if path == "about" then ToPage(About, None)
    else if path == "app" then
      if |params| > 0 && params[0] != "" then ToDetail(params[0]) else ToPage(Apps, None)
    else ToPage(Home, None)
  }

  /** The fragment the site itself writes for a route (`#apps/filter/<id>`, `#app/<id>`, ...). */
  function RouteHash(r: Route): string {
    match r
    case ToPage(Home, _) => "#home"
    case ToPage(Apps, None) => "#apps/filter"
    case ToPage(Apps, Some(category)) => "#apps/filter/" + category
    case ToPage(Updates, _) => "#updates"
    case ToPage(About, _) => "#about"
    case ToPage(_, _) => "#home"
    case ToDetail(appId) => "#app/" + appId
  }

  lemma SegmentsOne(a: string)
    requires '/' !in a
    ensures Segments("#" + a) == [a]
  {
    assert ("#" + a)[1..] == a;
    SplitNoSep(a, '/');
  }

  lemma SegmentsTwo(a: string, b: string)
    requires '/' !in a && '/' !in b
    ensures Segments("#" + a + "/" + b) == [a, b]
  {
    assert ("#" + a + "/" + b)[1..] == a + ['/'] + b;
    SplitAfterFirst(a, '/', b);
    SplitNoSep(b, '/');
  }

  lemma SegmentsThree(a: string, b: string, c: string)
    requires '/' !in a && '/' !in b && '/' !in c
    ensures Segments("#" + a + "/" + b + "/" + c) == [a, b, c]
  {
    assert ("#" + a + "/" + b + "/" + c)[1..] == a + ['/'] + (b + ['/'] + c);
    SplitAfterFirst(a, '/', b + ['/'] + c);
    SplitAfterFirst(b, '/', c);
    SplitNoSep(c, '/');
  }

  lemma FilterHashRoundTrip(category: string)
    requires '/' !in category
    ensures ParseRoute("#apps/filter/" + category) == ToPage(Apps, Some(category))
  {
    SegmentsThree("apps", "filter", category);
    assert "#apps/filter/" + category == "#" + "apps" + "/" + "filter" + "/" + category;
  }

  lemma DetailHashRoundTrip(appId: string)
    requires appId != "" && '/' !in appId
    ensures ParseRoute("#app/" + appId) == ToDetail(appId)
  {
    SegmentsTwo("app", appId);
    assert "#app/" + appId == "#" + "app" + "/" + appId;
  }

  /** Every route the router produces is decoded back from the fragment written for it. */
  lemma RouteHashRoundTrip(r: Route)
    requires CanonicalRoute(r)
    ensures ParseRoute(RouteHash(r)) == r
  {
    match r
    case ToPage(Home, _) =>
      SegmentsOne("home");
    case ToPage(Apps, None) =>
      SegmentsTwo("apps", "filter");
      assert RouteHash(r) == "#" + "apps" + "/" + "filter";
    case ToPage(Apps, Some(category)) =>
      FilterHashRoundTrip(category);
    case ToPage(Updates, _) =>
      SegmentsOne("updates");
    case ToPage(About, _) =>
      SegmentsOne("about");
    case ToDetail(appId) =>
      DetailHashRoundTrip(appId);
  }

  /** An empty fragment is the home page. */
  lemma EmptyHashRoutesHome()
    ensures ParseRoute("") == ToPage(Home, None)
  {
    SegmentsOne("home");
  }

  /** `#apps` shows every category. */
  lemma AppsRoutesAll()
    ensures ParseRoute("#apps") == ToPage(Apps, Some("all"))
  {
    SegmentsOne("apps");
  }

  /** `#app` without an id goes to the catalog, keeping the current filter. */
  lemma DetailWithoutIdRoutesApps()
    ensures ParseRoute("#app") == ToPage(Apps, None)
    ensures ParseRoute("#app/") == ToPage(Apps, None)
  {
    SegmentsOne("app");
    SegmentsTwo("app", "");
    assert "#app/" == "#" + "app" + "/" + "";
  }

  /** An unknown first segment falls back to the home page, whatever follows it. */
  lemma UnknownSegmentRoutesHome(segment: string, rest: string)
    requires '/' !in segment && segment !in {"home", "apps", "updates", "about", "app"}
    ensures ParseRoute("#" + segment) == ToPage(Home, None)
    ensures ParseRoute("#" + segment + "/" + rest) == ToPage(Home, None)
  {
    SegmentsOne(segment);
    assert ("#" + segment + "/" + rest)[1..] == segment + ['/'] + rest;
    SplitAfterFirst(segment, '/', rest);
  }
}
