/**
 * Value-level model of Grafana's BridgeSrv, the service that keeps Angular's
 * `$location` and the Redux store's `location` slice in step.
 *
 * A `Bridge` value is one snapshot of everything the service reads or writes:
 * its reload list, the Angular URL and current route, the store's location,
 * the browser's href, the `$timeout` queue, and an ordered log of the effects
 * it has had on its collaborators. Each handler registered by `init()` is a
 * function from one snapshot to the next.
 */
module BridgeModel {

  datatype Option<+T> = None | Some(value: T)

  /** A query string or a set of route parameters, as key/value pairs. */
  type Params = map<string, string>

  /**
   * The descriptor a route definition carries as `$$route.routeInfo`. The
   * bridge only forwards it, so its content is opaque here; JavaScript's
   * `undefined` is one of its values.
   */
  datatype RouteInfo = RouteInfo(descriptor: string)

  /** An Angular route object: its `params` and its `$$route.routeInfo`. */
  datatype Route = Route(params: Params, routeInfo: RouteInfo)

  /** The store's `location` slice. */
  datatype LocationState = LocationState(
    url: string,
    path: string,
    query: Params,
    routeParams: Params,
    replace: bool,
    routeInfo: Option<RouteInfo>)

  /**
   * The payload of an `updateLocation` action. `routeInfo == None` means the
   * payload has no `routeInfo` key at all.
   */
  datatype LocationUpdate = LocationUpdate(
    path: string,
    query: Params,
    routeParams: Params,
    routeInfo: Option<RouteInfo>)

  /** A closure waiting on `$timeout`, with the values it captured when it was queued. */
  datatype Deferred =
    | StoreWrite(url: string, replace: bool)  // queued by the store listener
    | RequestWrite(url: string)               // queued by a locationChange request

  /** One effect of the bridge on a collaborator, in the order it happened. */
  datatype Effect =
    | Dispatched(update: LocationUpdate)                               // store.dispatch(updateLocation(..))
    | MonitorStarted(href: string, previous: RouteInfo, current: RouteInfo) // navMonitor.startMonitoringLocation
    | UrlSet(url: string)                                              // $location.url(url)
    | Replaced                                                         // $location.replace()
    | HardNavigation(href: string)                                     // $window.location.href = href

  /**
   * Collaborators whose code is not part of this model: the base-path
   * stripping of `locationUtil.stripBaseFromUrl`, the store's reducer for
   * `updateLocation`, and Angular's reading of `$location.path()` and
   * `$location.search()` off its current URL.
   */
  datatype Env = Env(
    stripBaseFromUrl: string -> string,
    updateLocation: (LocationState, LocationUpdate) -> LocationState,
    pathOf: string -> string,
    searchOf: string -> Params)

  datatype Bridge = Bridge(
    fullPageReloadRoutes: seq<string>,
    angularUrl: string,       // $location.url()
    currentRoute: Route,      // $route.current
    store: LocationState,     // store.getState().location
    windowHref: string,       // window.location.href
    pending: seq<Deferred>,   // the $timeout queue, oldest first
    log: seq<Effect>)

  /** The reload list the constructor installs. */
  const ReloadRoutes: seq<string> := ["/logout"]

  /** The service right after construction, in the given surroundings. */
  function Initial(angularUrl: string, currentRoute: Route, store: LocationState, windowHref: string): Bridge
  {
    Bridge(ReloadRoutes, angularUrl, currentRoute, store, windowHref, [], [])
  }

  /** JavaScript's `Array.prototype.indexOf` on strings: the first index of `x`, or -1. */
  function IndexOf(xs: seq<string>, x: string): (i: int)
    ensures -1 <= i < |xs|
    ensures i == -1 <==> x !in xs
    ensures 0 <= i ==> xs[i] == x && x !in xs[..i]
  {
    if xs == [] then -1
    else if xs[0] == x then 0
    else
      var j := IndexOf(xs[1..], x);
      if j == -1 then -1
      else
        assert xs[..j + 1] == [xs[0]] + xs[1..][..j];
        j + 1
  }

  /** The payload both Angular handlers build from `$location` and `$route.current`. */
  function AngularUpdate(env: Env, b: Bridge, routeInfo: Option<RouteInfo>): LocationUpdate
  {
    LocationUpdate(env.pathOf(b.angularUrl), env.searchOf(b.angularUrl), b.currentRoute.params, routeInfo)
  }

  /**
   * What the `store.subscribe` listener queues for store location `loc` while
   * Angular shows `angularUrl`: one write of the stripped URL, with `replace`,
   * when the two differ, and nothing otherwise.
   */
  function ListenerWrites(env: Env, loc: LocationState, angularUrl: string): seq<Deferred>
  {
    var url := env.stripBaseFromUrl(loc.url);
    if angularUrl != url then [StoreWrite(url, loc.replace)] else []
  }

  /** The `store.subscribe` listener. */
  function StoreListener(env: Env, b: Bridge): Bridge
  {
    b.(pending := b.pending + ListenerWrites(env, b.store, b.angularUrl))
  }

  /** `store.dispatch(updateLocation(u))`: the reducer runs, then the store notifies its listener. */
  function Dispatch(env: Env, b: Bridge, u: LocationUpdate): Bridge
  {
    StoreListener(env, b.(store := env.updateLocation(b.store, u), log := b.log + [Dispatched(u)]))
  }

  /** The `$routeUpdate` handler. */
  function OnRouteUpdate(env: Env, b: Bridge): Bridge
  {
    if b.store.url != b.angularUrl then Dispatch(env, b, AngularUpdate(env, b, None)) else b
  }

  /** The `$routeChangeSuccess` handler; `previous == None` is JavaScript's `undefined`. */
  function OnRouteChangeSuccess(env: Env, b: Bridge, current: Route, previous: Option<Route>): Bridge
  {
    var monitored :=
      if previous.Some? then
        b.(log := b.log + [MonitorStarted(b.windowHref, previous.value.routeInfo, current.routeInfo)])
      else
        b;
    Dispatch(env, monitored, AngularUpdate(env, b, Some(b.currentRoute.routeInfo)))
  }

  /** The `CoreEvents.locationChange` handler. */
  function OnLocationChange(env: Env, b: Bridge, href: string): Bridge
  {
    var urlWithoutBase := env.stripBaseFromUrl(href);
    if IndexOf(b.fullPageReloadRoutes, urlWithoutBase) > -1 then
      b.(windowHref := href, log := b.log + [HardNavigation(href)])
    else
      b.(pending := b.pending + [RequestWrite(urlWithoutBase)])
  }

  /** `$timeout` runs the oldest queued closure, if there is one. */
  function RunNextDeferred(b: Bridge): Bridge
  {
    if b.pending == [] then b
    else
      match b.pending[0]
      case StoreWrite(url, replace) =>
        b.(angularUrl := url, pending := b.pending[1..],
           log := b.log + [UrlSet(url)] + (if replace then [Replaced] else []))
      case RequestWrite(url) =>
        b.(angularUrl := url, pending := b.pending[1..], log := b.log + [UrlSet(url)])
  }

  /** Surroundings: some other code changed the store, which then notifies the listener. */
  function StoreCommitted(env: Env, b: Bridge, next: LocationState): Bridge
  {
    StoreListener(env, b.(store := next))
  }

  /** Surroundings: Angular moved to a new URL and route by itself (a link, the back button). */
  function AngularNavigated(b: Bridge, url: string, href: string, route: Route): Bridge
  {
    b.(angularUrl := url, windowHref := href, currentRoute := route)
  }

  /** Everything that can happen to the service after `init()`. */
  datatype Event =
    | RouteUpdated
    | RouteChangeSucceeded(current: Route, previous: Option<Route>)
    | StoreChanged(next: LocationState)
    | LocationChangeRequested(href: string)
    | TimeoutFired
    | Navigated(url: string, href: string, route: Route)

  function Step(env: Env, b: Bridge, e: Event): Bridge
  {
    match e
    case RouteUpdated => OnRouteUpdate(env, b)
    case RouteChangeSucceeded(current, previous) => OnRouteChangeSuccess(env, b, current, previous)
    case StoreChanged(next) => StoreCommitted(env, b, next)
    case LocationChangeRequested(href) => OnLocationChange(env, b, href)
    case TimeoutFired => RunNextDeferred(b)
    case Navigated(url, href, route) => AngularNavigated(b, url, href, route)
  }

  function Run(env: Env, b: Bridge, es: seq<Event>): Bridge
    decreases |es|
  {
    if es == [] then b else Run(env, Step(env, b, es[0]), es[1..])
  }
}
