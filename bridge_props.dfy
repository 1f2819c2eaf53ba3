/**
 * What the bridge guarantees, stated over the step functions of BridgeModel.
 */
module BridgeProps {
  import opened BridgeModel

  // ---------------------------------------------------------------------------
  // Angular -> store

  /**
   * `$routeUpdate` dispatches exactly when the store's URL differs from the
   * unstripped Angular URL; the one action carries path, query and route
   * parameters and no `routeInfo`. Otherwise nothing at all changes.
   */
  lemma RouteUpdateDispatchesIffUrlDiffers(env: Env, b: Bridge)
    ensures var r := OnRouteUpdate(env, b);
            var u := LocationUpdate(env.pathOf(b.angularUrl), env.searchOf(b.angularUrl), b.currentRoute.params, None);
            && (r.log != b.log <==> b.store.url != b.angularUrl)
            && (b.store.url != b.angularUrl ==>
                  && r.log == b.log + [Dispatched(u)]
                  && r.store == env.updateLocation(b.store, u)
                  && r.pending == b.pending + ListenerWrites(env, r.store, b.angularUrl)
                  && r.(log := b.log, store := b.store, pending := b.pending) == b)
            && (b.store.url == b.angularUrl ==> r == b)
  {
  }

  /**
   * `$routeChangeSuccess` always dispatches exactly one action, carrying
   * `routeInfo` of `$route.current`. navMonitor is called, once and before
   * the dispatch, exactly when there is a previous route. The store
   * listener's reaction to the dispatch queues at most one write, and none
   * when the reduced store URL, stripped, is already Angular's.
   */
  lemma RouteChangeSuccessDispatchesOnce(env: Env, b: Bridge, current: Route, previous: Option<Route>)
    ensures var r := OnRouteChangeSuccess(env, b, current, previous);
            var u := LocationUpdate(env.pathOf(b.angularUrl), env.searchOf(b.angularUrl), b.currentRoute.params,
                                    Some(b.currentRoute.routeInfo));
            var monitor := if previous.Some? then [MonitorStarted(b.windowHref, previous.value.routeInfo, current.routeInfo)] else [];
            && r.log == b.log + monitor + [Dispatched(u)]
            && r.store == env.updateLocation(b.store, u)
            && |b.pending| <= |r.pending| <= |b.pending| + 1
            && (r.pending == b.pending <==> env.stripBaseFromUrl(r.store.url) == b.angularUrl)
            && r.(log := b.log, store := b.store, pending := b.pending) == b
  {
  }

  /** With `previous` undefined navMonitor is not called; the dispatch still happens. */
  lemma FirstRouteChangeSkipsMonitor(env: Env, b: Bridge, current: Route)
    ensures var r := OnRouteChangeSuccess(env, b, current, None);
            && |r.log| == |b.log| + 1
            && r.log[|b.log|].Dispatched?
            && r.log[|b.log|].update.routeInfo == Some(b.currentRoute.routeInfo)
            && r.log[..|b.log|] == b.log
  {
  }

  // ---------------------------------------------------------------------------
  // Store -> Angular

  /**
   * A store notification queues a write exactly when the stripped store URL
   * differs from Angular's; the write captures that URL and the `replace`
   * flag. Nothing else changes.
   */
  lemma StoreListenerSchedulesIffUrlDiffers(env: Env, b: Bridge)
    ensures var r := StoreListener(env, b);
            var url := env.stripBaseFromUrl(b.store.url);
            && (r.pending != b.pending <==> b.angularUrl != url)
            && (b.angularUrl != url ==> r == b.(pending := b.pending + [StoreWrite(url, b.store.replace)]))
            && (b.angularUrl == url ==> r == b)
  {
  }

  /** `n` store notifications in a row, with nothing else happening in between. */
  function Notify(env: Env, b: Bridge, n: nat): Bridge
  {
    if n == 0 then b else StoreListener(env, Notify(env, b, n - 1))
  }

  /**
   * Repeated notifications with an unchanged store: none schedules anything
   * when the URLs agree, and each schedules the same write again when they
   * differ (the listener does not look at the queue).
   */
  lemma {:induction false} RepeatedNotifications(env: Env, b: Bridge, n: nat)
    ensures var url := env.stripBaseFromUrl(b.store.url);
            Notify(env, b, n) ==
              if b.angularUrl == url then b
              else b.(pending := b.pending + seq(n, _ => StoreWrite(url, b.store.replace)))
  {
    if n > 0 {
      RepeatedNotifications(env, b, n - 1);
      var url := env.stripBaseFromUrl(b.store.url);
      var w := StoreWrite(url, b.store.replace);
      assert seq(n - 1, _ => w) + [w] == seq(n, _ => w);
    }
  }

  /**
   * Running a store-originated write sets Angular's URL to the captured URL
   * and calls `replace()` exactly when the captured flag was set; nothing
   * else changes.
   */
  lemma StoreWriteRunsCapturedValues(b: Bridge, url: string, replace: bool)
    requires b.pending != [] && b.pending[0] == StoreWrite(url, replace)
    ensures var r := RunNextDeferred(b);
            && r == b.(angularUrl := url, pending := b.pending[1..],
                       log := b.log + [UrlSet(url)] + (if replace then [Replaced] else []))
            && (Replaced in r.log[|b.log|..] <==> replace)
  {
    var r := RunNextDeferred(b);
    assert r.log[|b.log|..] == [UrlSet(url)] + (if replace then [Replaced] else []);
  }

  /**
   * The write does not re-read the store: whatever the store holds by the
   * time `$timeout` fires, the write applies the URL and flag of the
   * notification that queued it.
   */
  lemma DeferredWriteUsesValuesAtScheduling(env: Env, b: Bridge, next: LocationState)
    requires b.pending == []
    requires env.stripBaseFromUrl(b.store.url) != b.angularUrl
    ensures var r := RunNextDeferred(StoreCommitted(env, StoreListener(env, b), next));
            && r.angularUrl == env.stripBaseFromUrl(b.store.url)
            && r.store == next
            && r.log == b.log + [UrlSet(env.stripBaseFromUrl(b.store.url))] + (if b.store.replace then [Replaced] else [])
  {
  }

  /**
   * Store-to-Angular settles: after one notification and the `$timeout`
   * tick, the stripped store URL is Angular's URL, the queue is empty, and a
   * further notification does nothing.
   */
  lemma StoreToAngularSettles(env: Env, b: Bridge)
    requires b.pending == []
    ensures var r := RunNextDeferred(StoreListener(env, b));
            && env.stripBaseFromUrl(r.store.url) == r.angularUrl
            && r.store == b.store
            && r.pending == []
            && StoreListener(env, r) == r
  {
  }

  /**
   * A write can be stale by the time it runs. Angular is away from the store,
   * so the listener queues a write of the store's URL. The store then moves
   * back to Angular's URL, and that notification queues nothing. The tick
   * still applies the old URL. The queue ends empty with Angular away from
   * the store; only a later store notification queues the repair.
   */
  lemma StaleWriteAfterStoreReverts(env: Env, b: Bridge, next: LocationState)
    requires b.pending == []
    requires env.stripBaseFromUrl(b.store.url) != b.angularUrl
    requires env.stripBaseFromUrl(next.url) == b.angularUrl
    ensures var r := RunNextDeferred(StoreCommitted(env, StoreListener(env, b), next));
            && r.pending == []
            && r.store == next
            && r.angularUrl == env.stripBaseFromUrl(b.store.url)
            && r.angularUrl != env.stripBaseFromUrl(r.store.url)
            && StoreListener(env, r).pending == [StoreWrite(env.stripBaseFromUrl(next.url), next.replace)]
  {
  }

  /** `k` `$timeout` ticks with nothing else happening in between. */
  function Drain(b: Bridge, k: nat): Bridge
    decreases k
  {
    if k == 0 then b else Drain(RunNextDeferred(b), k - 1)
  }

  /**
   * Running the whole queue leaves it empty and Angular at the URL of the
   * last queued write; the store and the browser's href are untouched.
   */
  lemma {:induction false} DrainAppliesLastWrite(b: Bridge)
    requires b.pending != []
    ensures var r := Drain(b, |b.pending|);
            && r.pending == []
            && r.angularUrl == b.pending[|b.pending| - 1].url
            && r.store == b.store
            && r.windowHref == b.windowHref
            && r.fullPageReloadRoutes == b.fullPageReloadRoutes
    decreases |b.pending|
  {
    var b1 := RunNextDeferred(b);
    assert b1.pending == b.pending[1..];
    if |b.pending| > 1 {
      DrainAppliesLastWrite(b1);
      assert b1.pending[|b1.pending| - 1] == b.pending[|b.pending| - 1];
    }
  }

  /**
   * Settling from any queue: when a notification queues a write, draining
   * the queue (the earlier writes, then that one) leaves Angular at the
   * stripped store URL, the queue empty, and a further notification quiet.
   */
  lemma StoreToAngularSettlesFromAnyQueue(env: Env, b: Bridge)
    requires env.stripBaseFromUrl(b.store.url) != b.angularUrl
    ensures var r := Drain(StoreListener(env, b), |b.pending| + 1);
            && env.stripBaseFromUrl(r.store.url) == r.angularUrl
            && r.store == b.store
            && r.pending == []
            && StoreListener(env, r) == r
  {
    var s := StoreListener(env, b);
    assert s.pending == b.pending + [StoreWrite(env.stripBaseFromUrl(b.store.url), b.store.replace)];
    DrainAppliesLastWrite(s);
  }

  /**
   * The two directions compare differently: with a base path the store URL
   * can agree with Angular's once stripped, so the store listener stays
   * quiet, while `$routeUpdate`, comparing unstripped, still dispatches.
   */
  lemma ComparisonsAreAsymmetric(env: Env, b: Bridge)
    requires env.stripBaseFromUrl(b.store.url) == b.angularUrl
    requires b.store.url != b.angularUrl
    ensures StoreListener(env, b) == b
    ensures OnRouteUpdate(env, b).log == b.log + [Dispatched(AngularUpdate(env, b, None))]
  {
  }

  // ---------------------------------------------------------------------------
  // External locationChange requests

  /**
   * A stripped href that is an element of the reload list causes a hard
   * navigation to the full href and nothing else; any other queues exactly
   * one write of the stripped href and nothing else.
   */
  lemma LocationChangeReloadsExactMembers(env: Env, b: Bridge, href: string)
    ensures var r := OnLocationChange(env, b, href);
            var url := env.stripBaseFromUrl(href);
            && (url in b.fullPageReloadRoutes ==> r == b.(windowHref := href, log := b.log + [HardNavigation(href)]))
            && (url !in b.fullPageReloadRoutes ==> r == b.(pending := b.pending + [RequestWrite(url)]))
  {
  }

  /**
   * A request write, once `$timeout` runs it, sets Angular's URL to the
   * stripped href and does nothing else: no `replace()`, no dispatch, no
   * change to the browser's href.
   */
  lemma RequestedWriteIsPlainUrlSet(env: Env, b: Bridge, href: string)
    requires b.pending == []
    requires env.stripBaseFromUrl(href) !in b.fullPageReloadRoutes
    ensures var r := RunNextDeferred(OnLocationChange(env, b, href));
            r == b.(angularUrl := env.stripBaseFromUrl(href), log := b.log + [UrlSet(env.stripBaseFromUrl(href))])
  {
  }

  /**
   * A request write at the head of the queue, whatever was queued before or
   * after it, sets Angular's URL to the stripped href it captured and does
   * nothing else: no `replace()`, no dispatch, no change to the browser's href.
   */
  lemma RequestWriteRunsCapturedUrl(b: Bridge, url: string)
    requires b.pending != [] && b.pending[0] == RequestWrite(url)
    ensures RunNextDeferred(b) == b.(angularUrl := url, pending := b.pending[1..], log := b.log + [UrlSet(url)])
  {
  }

  /**
   * With the constructor's list, reloading is a literal comparison with
   * "/logout": "/logout/" or "/logout?x" navigate inside Angular.
   */
  lemma ReloadIsLiteralLogoutMatch(env: Env, b: Bridge, href: string)
    requires b.fullPageReloadRoutes == ReloadRoutes
    ensures var r := OnLocationChange(env, b, href);
            && (r.log == b.log + [HardNavigation(href)] <==> env.stripBaseFromUrl(href) == "/logout")
            && (r.pending == b.pending <==> env.stripBaseFromUrl(href) == "/logout")
  {
  }

  // ---------------------------------------------------------------------------
  // Invariants of every reachable state

  /**
   * (1) the reload list is the constructor's; (2) `replace()` is only ever
   * called straight after a `url()` write; (3) every hard navigation went to
   * an href whose stripped form is on the reload list; (4) no queued request
   * write targets a reload route.
   */
  ghost predicate Inv(env: Env, b: Bridge)
  {
    && b.fullPageReloadRoutes == ReloadRoutes
    && (forall i :: 0 <= i < |b.log| && b.log[i].Replaced? ==> 0 < i && b.log[i - 1].UrlSet?)
    && (forall i :: 0 <= i < |b.log| && b.log[i].HardNavigation? ==>
          env.stripBaseFromUrl(b.log[i].href) in b.fullPageReloadRoutes)
    && (forall i :: 0 <= i < |b.pending| && b.pending[i].RequestWrite? ==>
          b.pending[i].url !in b.fullPageReloadRoutes)
  }

  lemma InitialSatisfiesInv(env: Env, angularUrl: string, route: Route, store: LocationState, href: string)
    ensures Inv(env, Initial(angularUrl, route, store, href))
  {
  }

  lemma StoreListenerPreservesInv(env: Env, b: Bridge)
    requires Inv(env, b)
    ensures Inv(env, StoreListener(env, b))
  {
  }

  lemma DispatchPreservesInv(env: Env, b: Bridge, u: LocationUpdate)
    requires Inv(env, b)
    ensures Inv(env, Dispatch(env, b, u))
  {
    StoreListenerPreservesInv(env, b.(store := env.updateLocation(b.store, u), log := b.log + [Dispatched(u)]));
  }

  lemma RouteChangeSuccessPreservesInv(env: Env, b: Bridge, current: Route, previous: Option<Route>)
    requires Inv(env, b)
    ensures Inv(env, OnRouteChangeSuccess(env, b, current, previous))
  {
    var monitored :=
      if previous.Some? then
        b.(log := b.log + [MonitorStarted(b.windowHref, previous.value.routeInfo, current.routeInfo)])
      else
        b;
    DispatchPreservesInv(env, monitored, AngularUpdate(env, b, Some(b.currentRoute.routeInfo)));
  }

  lemma LocationChangePreservesInv(env: Env, b: Bridge, href: string)
    requires Inv(env, b)
    ensures Inv(env, OnLocationChange(env, b, href))
  {
  }

  lemma RunNextDeferredPreservesInv(env: Env, b: Bridge)
    requires Inv(env, b)
    ensures Inv(env, RunNextDeferred(b))
  {
  }

  /** Every listener, and every change of the surroundings, keeps the invariant. */
  lemma StepPreservesInv(env: Env, b: Bridge, e: Event)
    requires Inv(env, b)
    ensures Inv(env, Step(env, b, e))
  {
    match e
    case RouteUpdated =>
      if b.store.url != b.angularUrl {
        DispatchPreservesInv(env, b, AngularUpdate(env, b, None));
      }
    case RouteChangeSucceeded(current, previous) =>
      RouteChangeSuccessPreservesInv(env, b, current, previous);
    case StoreChanged(next) =>
      StoreListenerPreservesInv(env, b.(store := next));
    case LocationChangeRequested(href) =>
      LocationChangePreservesInv(env, b, href);
    case TimeoutFired =>
      RunNextDeferredPreservesInv(env, b);
    case Navigated(url, href, route) =>
  }

  /** Every state reachable by any sequence of events keeps the invariant. */
  lemma {:induction false} RunPreservesInv(env: Env, b: Bridge, es: seq<Event>)
    requires Inv(env, b)
    ensures Inv(env, Run(env, b, es))
    decreases |es|
  {
    if es != [] {
      StepPreservesInv(env, b, es[0]);
      RunPreservesInv(env, Step(env, b, es[0]), es[1..]);
    }
  }

  /**
   * `fullPageReloadRoutes` is `["/logout"]` after construction and no
   * handler ever changes it.
   */
  lemma ReloadRoutesNeverChange(env: Env, angularUrl: string, route: Route, store: LocationState,
                                href: string, es: seq<Event>)
    ensures Run(env, Initial(angularUrl, route, store, href), es).fullPageReloadRoutes == ["/logout"]
  {
    InitialSatisfiesInv(env, angularUrl, route, store, href);
    RunPreservesInv(env, Initial(angularUrl, route, store, href), es);
  }
}
