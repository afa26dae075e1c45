/**
 * The readiness gate set up by `setupFirestoreListeners`: two local flags, one per
 * subscription, and the shared `isDataReady`. `ReadyDecision` and `Step` are the gate
 * as a state machine; `Listeners` is the same gate on the live state, driving `NavState`.
 */
module Readiness {
  import opened Common
  import opened Catalog
  import opened Router
  import opened Navigation

  datatype Gate = Gate(appsLoaded: bool, developerLoaded: bool, ready: bool)

  /** What a subscription delivers: a snapshot, or an error from its error callback. */
  datatype Signal = AppsSnapshot | ProfileSnapshot(present: bool) | AppsError | ProfileError

  /** What `checkReady` does: route for the first time, re-render the current page, or nothing. */
  datatype Event = FireRoute | Rerender | Quiet

  const Initial: Gate := Gate(false, false, false)

  /** Data is ready exactly when both subscriptions have a good last delivery. */
  predicate Settled(g: Gate) {
    g.ready <==> g.appsLoaded && g.developerLoaded
  }

  /** `checkReady`: becomes ready and routes once both flags hold; re-renders once ready. */
  function ReadyDecision(g: Gate): (r: (Gate, Event))
    ensures r.1 == FireRoute <==> !g.ready && r.0.ready
    ensures r.1 == Rerender <==> g.ready
    ensures r.0.appsLoaded == g.appsLoaded && r.0.developerLoaded == g.developerLoaded
    ensures r.0.ready <==> g.ready || (g.appsLoaded && g.developerLoaded)
  {
    if g.appsLoaded && g.developerLoaded && !g.ready then (g.(ready := true), FireRoute)
    else if g.ready then (g, Rerender)
    else (g, Quiet)
  }

  /** One delivery: a snapshot sets its flag and runs `checkReady`; an error clears its flag and readiness. */
  function Step(g: Gate, s: Signal): (r: (Gate, Event))
    ensures s.AppsError? || s.ProfileError? ==> !r.0.ready && r.1 == Quiet
    ensures s.AppsError? ==> !r.0.appsLoaded && r.0.developerLoaded == g.developerLoaded
    ensures s.ProfileError? ==> !r.0.developerLoaded && r.0.appsLoaded == g.appsLoaded
    ensures s.AppsSnapshot? ==> r.0.appsLoaded && r.0.developerLoaded == g.developerLoaded
    ensures s.ProfileSnapshot? ==> r.0.developerLoaded && r.0.appsLoaded == g.appsLoaded
  {
    match s
    case AppsSnapshot => ReadyDecision(g.(appsLoaded := true))
    case ProfileSnapshot(_) => ReadyDecision(g.(developerLoaded := true))
    case AppsError => (g.(appsLoaded := false, ready := false), Quiet)
    case ProfileError => (g.(developerLoaded := false, ready := false), Quiet)
  }

  /** Every delivery keeps readiness equal to "both flags hold". */
  lemma StepSettled(g: Gate, s: Signal)
    requires Settled(g)
    ensures Settled(Step(g, s).0)
  {
  }

  /** A snapshot delivered while ready re-renders and stays ready; the initial route is fired only on the rise. */
  lemma SnapshotWhileReadyRerenders(g: Gate, s: Signal)
    requires g.ready && (s.AppsSnapshot? || s.ProfileSnapshot?)
    ensures Step(g, s).1 == Rerender && Step(g, s).0.ready
  {
  }

  /** A missing profile document still counts as a delivery of the profile. */
  lemma MissingProfileStillLoads(g: Gate)
    ensures Step(g, ProfileSnapshot(false)) == Step(g, ProfileSnapshot(true))
  {
  }

  /** The gate after a sequence of deliveries, and the events along the way. */
  function Run(g: Gate, signals: seq<Signal>): (r: (Gate, seq<Event>))
    ensures |r.1| == |signals|
    decreases |signals|
  {
    if signals == [] then (g, [])
    else
      var (g1, e) := Step(g, signals[0]);
      var (gn, es) := Run(g1, signals[1..]);
      (gn, [e] + es)
  }

  predicate NoErrors(signals: seq<Signal>) {
    forall i :: 0 <= i < |signals| ==> !signals[i].AppsError? && !signals[i].ProfileError?
  }

  predicate HasAppsSnapshot(signals: seq<Signal>) {
    exists i :: 0 <= i < |signals| && signals[i].AppsSnapshot?
  }

  predicate HasProfileSnapshot(signals: seq<Signal>) {
    exists i :: 0 <= i < |signals| && signals[i].ProfileSnapshot?
  }

  function CountRoutes(events: seq<Event>): (n: nat)
    ensures n <= |events|
  {
    if events == [] then 0
    else (if events[0] == FireRoute then 1 else 0) + CountRoutes(events[1..])
  }

  /** Readiness is kept equal to "both flags hold" over any sequence of deliveries. */
  lemma {:induction false} RunSettled(g: Gate, signals: seq<Signal>)
    requires Settled(g)
    ensures Settled(Run(g, signals).0)
    decreases |signals|
  {
    if signals != [] {
      StepSettled(g, signals[0]);
      RunSettled(Step(g, signals[0]).0, signals[1..]);
    }
  }

  /**
   * Without errors, data becomes ready exactly when each subscription has delivered
   * at least once (counting what was already loaded).
   */
  lemma {:induction false} ReadyIffBothDelivered(g: Gate, signals: seq<Signal>)
    requires Settled(g) && NoErrors(signals)
    ensures Run(g, signals).0.ready <==>
              (g.appsLoaded || HasAppsSnapshot(signals)) && (g.developerLoaded || HasProfileSnapshot(signals))
    decreases |signals|
  {
    if signals == [] {
    } else {
      var g1 := Step(g, signals[0]).0;
      var rest := signals[1..];
      assert NoErrors(rest) by {
        forall i | 0 <= i < |rest| ensures !rest[i].AppsError? && !rest[i].ProfileError? {
          assert rest[i] == signals[i + 1];
        }
      }
      StepSettled(g, signals[0]);
      ReadyIffBothDelivered(g1, rest);
      assert HasAppsSnapshot(signals) <==> signals[0].AppsSnapshot? || HasAppsSnapshot(rest) by {
        if HasAppsSnapshot(rest) {
          var i :| 0 <= i < |rest| && rest[i].AppsSnapshot?;
          assert signals[i + 1] == rest[i];
        }
        if HasAppsSnapshot(signals) && !signals[0].AppsSnapshot? {
          var i :| 0 <= i < |signals| && signals[i].AppsSnapshot?;
          assert rest[i - 1] == signals[i];
        }
      }
      assert HasProfileSnapshot(signals) <==> signals[0].ProfileSnapshot? || HasProfileSnapshot(rest) by {
        if HasProfileSnapshot(rest) {
          var i :| 0 <= i < |rest| && rest[i].ProfileSnapshot?;
          assert signals[i + 1] == rest[i];
        }
        if HasProfileSnapshot(signals) && !signals[0].ProfileSnapshot? {
          var i :| 0 <= i < |signals| && signals[i].ProfileSnapshot?;
          assert rest[i - 1] == signals[i];
        }
      }
    }
  }

  /**
   * Without errors the initial route is fired at most once, never once data is ready,
   * and exactly when the deliveries take the gate from not ready to ready.
   */
  lemma {:induction false} RouteFiredAtMostOnce(g: Gate, signals: seq<Signal>)
    requires NoErrors(signals)
    ensures CountRoutes(Run(g, signals).1) <= (if g.ready then 0 else 1)
    ensures CountRoutes(Run(g, signals).1) == 1 <==> !g.ready && Run(g, signals).0.ready
    ensures g.ready ==> Run(g, signals).0.ready
    decreases |signals|
  {
    if signals != [] {
      var (g1, e) := Step(g, signals[0]);
      var rest := signals[1..];
      assert NoErrors(rest) by {
        forall i | 0 <= i < |rest| ensures !rest[i].AppsError? && !rest[i].ProfileError? {
          assert rest[i] == signals[i + 1];
        }
      }
      RouteFiredAtMostOnce(g1, rest);
      var es := Run(g1, rest).1;
      assert Run(g, signals).1 == [e] + es;
      assert ([e] + es)[1..] == es;
    }
  }

  // ---------------------------------------------------------------------------
  // The live listeners.

  class Listeners {
    var appsLoaded: bool
    var developerLoaded: bool
    const nav: NavState

    constructor (nav: NavState)
      ensures this.nav == nav && !appsLoaded && !developerLoaded
    {
      this.nav := nav;
      appsLoaded := false;
      developerLoaded := false;
    }

    function GateOf(): Gate
      reads this, nav
    {
      Gate(appsLoaded, developerLoaded, nav.isDataReady)
    }

    /**
     * What `checkReady` shows for event `e`, from the page, filter, sort and selection
     * current before it: the routed page on the rise, the current page re-rendered once
     * ready, nothing otherwise.
     */
    ghost predicate Reaction(e: Event, v: Option<View>, hash: string, fetched: Option<seq<ChangelogEntry>>,
                             page0: Page, filter0: string, sort0: string, selected0: Option<string>)
      reads this, nav
    {
      match e
      case Quiet =>
        v == None && nav.currentPage == page0 && nav.currentFilter == filter0
        && nav.currentSort == sort0 && nav.selectedAppId == selected0
      case FireRoute => v.Some? && nav.RouteShown(hash, fetched, v.value, filter0, sort0, selected0)
      case Rerender =>
        v.Some? && nav.PageShown(page0, Some(filter0), Some(sort0), fetched, v.value, filter0, sort0, selected0)
    }

    /** `checkReady`, with the fragment and the changelog fetch outcome as inputs. */
    method CheckReady(hash: string, fetched: Option<seq<ChangelogEntry>>) returns (e: Event, v: Option<View>)
      modifies nav
      ensures (GateOf(), e) == ReadyDecision(old(GateOf()))
      ensures Reaction(e, v, hash, fetched, old(nav.currentPage), old(nav.currentFilter),
                       old(nav.currentSort), old(nav.selectedAppId))
      ensures nav.appsData == old(nav.appsData) && nav.developer == old(nav.developer)
      ensures nav.currentSearch == old(nav.currentSearch)
      ensures old(nav.Valid()) ==> nav.Valid()
    {
      if appsLoaded && developerLoaded && !nav.isDataReady {
        nav.isDataReady := true;
        var w := nav.HandleRouting(hash, fetched);
        e, v := FireRoute, Some(w);
      } else if nav.isDataReady {
        var w := nav.ShowPage(nav.currentPage, Some(nav.currentFilter), Some(nav.currentSort), fetched);
        e, v := Rerender, Some(w);
      } else {
        e, v := Quiet, None;
      }
    }

    /** The apps listener's snapshot callback: stores the enriched apps, sets its flag, runs `checkReady`. */
    method OnAppsSnapshot(docs: seq<AppDoc>, hash: string, fetched: Option<seq<ChangelogEntry>>)
      returns (e: Event, v: Option<View>)
      modifies this, nav
      ensures (GateOf(), e) == Step(old(GateOf()), AppsSnapshot)
      ensures nav.appsData == EnrichAll(docs) && nav.developer == old(nav.developer)
      ensures Reaction(e, v, hash, fetched, old(nav.currentPage), old(nav.currentFilter),
                       old(nav.currentSort), old(nav.selectedAppId))
      ensures old(Settled(GateOf())) ==> Settled(GateOf())
      ensures nav.currentSearch == old(nav.currentSearch) && (old(nav.Valid()) ==> nav.Valid())
    {
      nav.appsData := EnrichAll(docs);
      appsLoaded := true;
      e, v := CheckReady(hash, fetched);
      if old(Settled(GateOf())) {
        StepSettled(old(GateOf()), AppsSnapshot);
      }
    }

    /** The profile listener's snapshot callback: a missing document stores no profile but still counts as loaded. */
    method OnProfileSnapshot(profile: Option<Profile>, hash: string, fetched: Option<seq<ChangelogEntry>>)
      returns (e: Event, v: Option<View>)
      modifies this, nav
      ensures (GateOf(), e) == Step(old(GateOf()), ProfileSnapshot(profile.Some?))
      ensures nav.developer == profile && nav.appsData == old(nav.appsData)
      ensures Reaction(e, v, hash, fetched, old(nav.currentPage), old(nav.currentFilter),
                       old(nav.currentSort), old(nav.selectedAppId))
      ensures old(Settled(GateOf())) ==> Settled(GateOf())
      ensures nav.currentSearch == old(nav.currentSearch) && (old(nav.Valid()) ==> nav.Valid())
    {
      nav.developer := profile;
      developerLoaded := true;
      e, v := CheckReady(hash, fetched);
      if old(Settled(GateOf())) {
        StepSettled(old(GateOf()), ProfileSnapshot(profile.Some?));
      }
    }

    /** The apps listener's error callback: clears its flag and readiness, renders nothing. */
    method OnAppsError()
      modifies this, nav`isDataReady
      ensures (GateOf(), Quiet) == Step(old(GateOf()), AppsError)
      ensures old(Settled(GateOf())) ==> Settled(GateOf())
    {
      appsLoaded := false;
      nav.isDataReady := false;
    }

    /** The profile listener's error callback: clears its flag and readiness, renders nothing. */
    method OnProfileError()
      modifies this, nav`isDataReady
      ensures (GateOf(), Quiet) == Step(old(GateOf()), ProfileError)
      ensures old(Settled(GateOf())) ==> Settled(GateOf())
    {
      developerLoaded := false;
      nav.isDataReady := false;
    }
  }
}
