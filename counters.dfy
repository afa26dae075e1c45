/**
 * The counters kept in the app documents and the local memory of rated apps:
 * `submitRating` and `handleDownloadClick`. The database is a map from document path
 * to document; whether a transaction's commit goes through is an input.
 */
module Counters {
  import opened Common
  import opened Navigation

  /** The project id: the fallback `js/main.js` uses when `__app_id` is not defined. */
  const ProjectId: string := "codebykavin"

  /** The collection the apps listener reads, with its trailing separator. */
  const AppsCollection: string := "artifacts/" + ProjectId + "/public/data/apps/"

  /** The counter fields of an app document; each may be missing. */
  datatype StoreDoc = StoreDoc(ratingCount: Option<int>, ratingSum: Option<int>, downloads: Option<int>)

  type Database = map<string, StoreDoc>

  /** A document the listener lists: its path lies in the apps collection. */
  predicate Listed(path: string) {
    |path| >= |AppsCollection| && path[..|AppsCollection|] == AppsCollection
  }

  predicate ListedOnly(db: Database) {
    forall p :: p in db ==> Listed(p)
  }

  /**
   * The document path the rating and download transactions build, as written: the app id
   * takes the place of the project id too, so only the app named like the project is addressed
   * at its listed document.
   */
  function AppDocPathAsWritten(appId: string): (p: string)
    ensures appId == ProjectId ==> p == AppDocPath(appId)
    ensures |p| - |AppDocPath(appId)| == |appId| - |ProjectId|
  {
    "artifacts/" + appId + "/public/data/apps/" + appId
  }

  /** The listed document of an app, as evidently intended. */
  function AppDocPath(appId: string): string {
    AppsCollection + appId
  }

  /** Every app's intended document is listed, and distinct apps have distinct documents. */
  lemma AppDocPathListed(a: string, b: string)
    ensures Listed(AppDocPath(a))
    ensures AppDocPath(a) == AppDocPath(b) ==> a == b
  {
    assert AppDocPath(a)[..|AppsCollection|] == AppsCollection;
    if AppDocPath(a) == AppDocPath(b) {
      assert a == AppDocPath(a)[|AppsCollection|..] == AppDocPath(b)[|AppsCollection|..] == b;
    }
  }

  /** The read-modify-write a transaction performs. */
  datatype Update = AddRating(stars: int) | AddDownload

  /** The update of one document; a missing counter counts as 0. */
  function Apply(doc: StoreDoc, u: Update): (d: StoreDoc)
    ensures u.AddRating? ==>
              d.ratingCount == Some(doc.ratingCount.GetOr(0) + 1)
              && d.ratingSum == Some(doc.ratingSum.GetOr(0) + u.stars)
              && d.downloads == doc.downloads
    ensures u.AddDownload? ==>
              d.downloads == Some(doc.downloads.GetOr(0) + 1)
              && d.ratingCount == doc.ratingCount && d.ratingSum == doc.ratingSum
  {
    match u
    case AddRating(stars) =>
      doc.(ratingCount := Some(doc.ratingCount.GetOr(0) + 1), ratingSum := Some(doc.ratingSum.GetOr(0) + stars))
    case AddDownload =>
      doc.(downloads := Some(doc.downloads.GetOr(0) + 1))
  }

  /**
   * A transaction on one document: it fails (None) when the document does not exist
   * or the commit does not go through; otherwise only that document changes.
   */
  function Transaction(db: Database, path: string, u: Update, commits: bool): (r: Option<Database>)
    ensures r.Some? <==> commits && path in db
    ensures r.Some? ==> r.value.Keys == db.Keys && r.value[path] == Apply(db[path], u)
    ensures r.Some? ==> forall p :: p in db && p != path ==> r.value[p] == db[p]
  {
    if commits && path in db then Some(db[path := Apply(db[path], u)]) else None
  }

  // ---------------------------------------------------------------------------
  // Notices.

  datatype NoticeKind = Info | Success | Error

  datatype Notice = AlreadyRated | ThanksForRating(stars: int) | RatingFailed | DownloadStarted

  function KindOf(n: Notice): NoticeKind {
    match n
    case AlreadyRated => Error
    case ThanksForRating(_) => Success
    case RatingFailed => Error
    case DownloadStarted => Info
  }

  // ---------------------------------------------------------------------------
  // Ratings.

  /** The ratings a document holds are each between 1 and 5 stars. */
  predicate WithinStars(doc: StoreDoc) {
    var c := doc.ratingCount.GetOr(0);
    var s := doc.ratingSum.GetOr(0);
    0 <= c && c <= s <= 5 * c
  }

  /** A rating of 1 to 5 stars keeps the document's ratings within stars. */
  lemma RatingKeepsWithinStars(doc: StoreDoc, stars: int)
    requires WithinStars(doc) && 1 <= stars <= 5
    ensures WithinStars(Apply(doc, AddRating(stars)))
  {
  }

  lemma RealDivBounds(s: real, c: real, lo: real, hi: real)
    requires c > 0.0 && lo * c <= s <= hi * c
    ensures lo <= s / c <= hi
  {
    assert s / c * c == s;
  }

  /** While ratings are within stars, the average rating lies between 1 and 5. */
  lemma AverageWithinStars(doc: StoreDoc)
    requires WithinStars(doc) && doc.ratingCount.GetOr(0) > 0
    ensures var c := doc.ratingCount.GetOr(0) as real;
            var s := doc.ratingSum.GetOr(0) as real;
            1.0 <= s / c <= 5.0
  {
    var c := doc.ratingCount.GetOr(0) as real;
    var s := doc.ratingSum.GetOr(0) as real;
    RealDivBounds(s, c, 1.0, 5.0);
  }

  function SumOf(xs: seq<int>): int {
    if xs == [] then 0 else xs[0] + SumOf(xs[1..])
  }

  /** A document after successive ratings. */
  function RateAll(doc: StoreDoc, stars: seq<int>): StoreDoc
    decreases |stars|
  {
    if stars == [] then doc else RateAll(Apply(doc, AddRating(stars[0])), stars[1..])
  }

  /** Successive ratings add their count and their stars to the counters, and leave downloads alone. */
  lemma {:induction false} RatingsAccumulate(doc: StoreDoc, stars: seq<int>)
    requires stars != []
    ensures RateAll(doc, stars).ratingCount == Some(doc.ratingCount.GetOr(0) + |stars|)
    ensures RateAll(doc, stars).ratingSum == Some(doc.ratingSum.GetOr(0) + SumOf(stars))
    ensures RateAll(doc, stars).downloads == doc.downloads
    decreases |stars|
  {
    var d1 := Apply(doc, AddRating(stars[0]));
    if |stars| > 1 {
      RatingsAccumulate(d1, stars[1..]);
    }
  }

  /** The rated-apps memory and the rating action. */
  class RatingMemory {
    var ratedApps: map<string, bool>
    const nav: NavState

    /** The memory as stored locally; an absent entry reads as `{}`. */
    constructor (stored: map<string, bool>, nav: NavState)
      ensures ratedApps == stored && this.nav == nav
    {
      ratedApps := stored;
      this.nav := nav;
    }

    predicate HasRated(appId: string)
      reads this
    {
      appId in ratedApps && ratedApps[appId]
    }

    /**
     * `submitRating`: an app already rated gets an error notice and no write; otherwise
     * the rating transaction runs on the path as written, and only when it succeeds is the
     * app remembered as rated, thanked for and its detail page re-rendered.
     */
    method SubmitRating(appId: string, stars: int, db: Database, commits: bool,
                        fetched: Option<seq<ChangelogEntry>>)
      returns (notice: Notice, after: Database, v: Option<View>)
      modifies this, nav
      ensures old(HasRated(appId)) ==>
                notice == AlreadyRated && after == db && ratedApps == old(ratedApps) && v == None
      ensures !old(HasRated(appId)) ==>
                match Transaction(db, AppDocPathAsWritten(appId), AddRating(stars), commits)
                case None => notice == RatingFailed && after == db && ratedApps == old(ratedApps) && v == None
                case Some(written) =>
                  notice == ThanksForRating(stars) && after == written
                  && ratedApps == old(ratedApps)[appId := true]
                  && v.Some? && nav.ShowsDetail(appId, fetched, v.value)
      ensures HasRated(appId) <==> old(HasRated(appId)) || notice.ThanksForRating?
      ensures KindOf(notice) == Error <==> !notice.ThanksForRating?
      ensures ListedOnly(db) && '/' !in appId && appId != ProjectId ==> !notice.ThanksForRating? && after == db
      ensures v == None ==> nav.currentPage == old(nav.currentPage) && nav.selectedAppId == old(nav.selectedAppId)
      ensures nav.appsData == old(nav.appsData) && nav.isDataReady == old(nav.isDataReady)
      ensures nav.developer == old(nav.developer) && nav.currentFilter == old(nav.currentFilter)
      ensures nav.currentSort == old(nav.currentSort) && nav.currentSearch == old(nav.currentSearch)
    {
      if HasRated(appId) {
        notice, after, v := AlreadyRated, db, None;
        return;
      }
      if ListedOnly(db) && '/' !in appId && appId != ProjectId {
        ListedAppMissedAsWritten(db, appId, stars, commits);
      }
      var result := Transaction(db, AppDocPathAsWritten(appId), AddRating(stars), commits);
      if result.None? {
        notice, after, v := RatingFailed, db, None;
        return;
      }
      ratedApps := ratedApps[appId := true];
      notice, after := ThanksForRating(stars), result.value;
      var w := nav.ShowAppDetail(appId, fetched);
      v := Some(w);
    }
  }

  // ---------------------------------------------------------------------------
  // Downloads.

  /** What the download click does, in order: a notice, then the committed database when the write succeeds. */
  datatype Effect = Notify(notice: Notice) | Commit(db: Database)

  /**
   * `handleDownloadClick` on the document at `path`: the info notice comes first, whatever
   * then happens; the download counter is incremented when the transaction succeeds; a
   * failure is silent.
   */
  function DownloadClickAt(path: string, db: Database, commits: bool): (effects: seq<Effect>)
    ensures 1 <= |effects| <= 2 && effects[0] == Notify(DownloadStarted) && KindOf(DownloadStarted) == Info
    ensures |effects| == 2 <==> commits && path in db
    ensures |effects| == 2 ==>
              effects[1] == Commit(Transaction(db, path, AddDownload, commits).value)
              && effects[1].db.Keys == db.Keys
              && effects[1].db[path].downloads == Some(db[path].downloads.GetOr(0) + 1)
  {
    match Transaction(db, path, AddDownload, commits)
    case None => [Notify(DownloadStarted)]
    case Some(written) => [Notify(DownloadStarted), Commit(written)]
  }

  /** `handleDownloadClick` as written: on a database of listed apps only, no app but the one named like the project is ever counted. */
  function DownloadClick(appId: string, db: Database, commits: bool): (effects: seq<Effect>)
    ensures |effects| == 2 <==> commits && AppDocPathAsWritten(appId) in db
    ensures ListedOnly(db) && '/' !in appId && appId != ProjectId ==> effects == [Notify(DownloadStarted)]
  {
    if ListedOnly(db) && '/' !in appId && appId != ProjectId then
      ListedAppMissedAsWritten(db, appId, 0, commits);
      DownloadClickAt(AppDocPathAsWritten(appId), db, commits)
    else
      DownloadClickAt(AppDocPathAsWritten(appId), db, commits)
  }

  /** The download click on the intended path: a listed app's committed click counts on its listed document. */
  function DownloadClickIntended(appId: string, db: Database, commits: bool): (effects: seq<Effect>)
    ensures |effects| == 2 <==> commits && AppDocPath(appId) in db
    ensures ListedOnly(db) && commits && AppDocPath(appId) in db ==>
              |effects| == 2 && effects[1].Commit? && effects[1].db.Keys == db.Keys && ListedOnly(effects[1].db)
              && effects[1].db[AppDocPath(appId)].downloads == Some(db[AppDocPath(appId)].downloads.GetOr(0) + 1)
  {
    DownloadClickAt(AppDocPath(appId), db, commits)
  }

  /** The database after `n` clicks on the document at `path` that each commit. */
  function ClickTimes(path: string, db: Database, n: nat): (r: Database)
    requires path in db
    ensures r.Keys == db.Keys
  {
    if n == 0 then db
    else
      var effects := DownloadClickAt(path, db, true);
      ClickTimes(path, effects[1].db, n - 1)
  }

  /** `n` committed clicks add `n` to the document's downloads and touch no other document. */
  lemma {:induction false} DownloadsAccumulate(path: string, db: Database, n: nat)
    requires path in db && n > 0
    ensures ClickTimes(path, db, n)[path].downloads == Some(db[path].downloads.GetOr(0) + n)
    ensures forall p :: p in db && p != path ==> ClickTimes(path, db, n)[p] == db[p]
  {
    var next := DownloadClickAt(path, db, true)[1].db;
    if n > 1 {
      DownloadsAccumulate(path, next, n - 1);
    }
  }

  // ---------------------------------------------------------------------------
  // The document path as written.

  /**
   * As written, the transactions address `artifacts/<app id>/public/data/apps/<app id>`.
   * For any app id without a `/` other than the project id (the app `notes`, say) that is
   * not a listed document, so on a database holding only the listed apps its rating fails
   * and its downloads are never counted.
   */
  lemma ListedAppMissedAsWritten(db: Database, appId: string, stars: int, commits: bool)
    requires ListedOnly(db) && '/' !in appId && appId != ProjectId
    ensures !Listed(AppDocPathAsWritten(appId))
    ensures Transaction(db, AppDocPathAsWritten(appId), AddRating(stars), commits) == None
    ensures Transaction(db, AppDocPathAsWritten(appId), AddDownload, commits) == None
  {
    var p := AppDocPathAsWritten(appId);
    var c := AppsCollection;
    assert |c| == 39 && c[10..21] == ProjectId && c[21] == '/';
    if |p| >= |c| {
      // An index at which the path leaves the apps collection.
      var k: int;
      if |appId| < 11 {
        k := 10 + |appId|;
        assert p[k] == '/';
        assert c[k] == ProjectId[|appId|];
      } else if |appId| > 11 {
        k := 21;
        assert p[k] == appId[11];
      } else {
        assert !(forall i :: 0 <= i < 11 ==> appId[i] == ProjectId[i]);
        var i :| 0 <= i < 11 && appId[i] != ProjectId[i];
        k := 10 + i;
        assert p[k] == appId[i];
      }
      assert p[k] != c[k];
      assert p[..|c|][k] != c[k];
    }
  }

  /** With the intended path, a listed app's rating reaches its listed document and keeps the database listed. */
  lemma ListedAppRated(db: Database, appId: string, stars: int)
    requires ListedOnly(db) && AppDocPath(appId) in db
    ensures Transaction(db, AppDocPath(appId), AddRating(stars), true).Some?
    ensures var written := Transaction(db, AppDocPath(appId), AddRating(stars), true).value;
            ListedOnly(written)
            && written[AppDocPath(appId)].ratingCount == Some(db[AppDocPath(appId)].ratingCount.GetOr(0) + 1)
  {
    AppDocPathListed(appId, appId);
  }
}
