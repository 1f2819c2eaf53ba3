/**
 * The BridgeSrv service as an object: its reload list and the state of its
 * collaborators are fields, and each listener that `init()` registers is a
 * method that updates them in place. Every method is proved to move the
 * object exactly as the matching step function of BridgeModel moves a
 * snapshot, so the lemmas of BridgeProps hold of the object too.
 */
module BridgeService {
  import opened BridgeModel

  class BridgeSrv {
    const env: Env
    const fullPageReloadRoutes: seq<string>
    var angularUrl: string            // $location.url()
    var currentRoute: Route           // $route.current
    var storeLocation: LocationState  // store.getState().location
    var windowHref: string            // window.location.href
    var pending: seq<Deferred>        // closures queued on $timeout, oldest first
    var log: seq<Effect>              // effects on the collaborators, in order

    /** The object's state as a BridgeModel snapshot. */
    function Model(): Bridge
      reads this
    {
      Bridge(fullPageReloadRoutes, angularUrl, currentRoute, storeLocation, windowHref, pending, log)
    }

    /** `new BridgeSrv(...)` in the given surroundings: the reload list is `['/logout']`. */
    constructor (env: Env, angularUrl: string, currentRoute: Route, storeLocation: LocationState, windowHref: string)
      ensures this.env == env
      ensures fullPageReloadRoutes == ["/logout"]
      ensures Model() == Initial(angularUrl, currentRoute, storeLocation, windowHref)
    {
      this.env := env;
      this.fullPageReloadRoutes := ["/logout"];
      this.angularUrl := angularUrl;
      this.currentRoute := currentRoute;
      this.storeLocation := storeLocation;
      this.windowHref := windowHref;
      this.pending := [];
      this.log := [];
    }

    /** The `store.subscribe` listener. */
    method StoreListener()
      modifies this`pending
      ensures pending == old(pending) + ListenerWrites(env, storeLocation, angularUrl)
      ensures Model() == BridgeModel.StoreListener(env, old(Model()))
    {
      var url := env.stripBaseFromUrl(storeLocation.url);
      if angularUrl != url {
        pending := pending + [StoreWrite(url, storeLocation.replace)];
      }
    }

    /** `store.dispatch(updateLocation(u))`: reduce, record, then notify the listener. */
    method Dispatch(u: LocationUpdate)
      modifies this`storeLocation, this`log, this`pending
      ensures storeLocation == env.updateLocation(old(storeLocation), u)
      ensures log == old(log) + [Dispatched(u)]
      ensures Model() == BridgeModel.Dispatch(env, old(Model()), u)
    {
      storeLocation := env.updateLocation(storeLocation, u);
      log := log + [Dispatched(u)];
      StoreListener();
    }

    /** The `$routeUpdate` listener. */
    method OnRouteUpdate()
      modifies this`storeLocation, this`log, this`pending
      ensures Model() == BridgeModel.OnRouteUpdate(env, old(Model()))
    {
      var url := angularUrl;
      if storeLocation.url != url {
        Dispatch(LocationUpdate(env.pathOf(angularUrl), env.searchOf(angularUrl), currentRoute.params, None));
      }
    }

    /** The `$routeChangeSuccess` listener; `previous == None` is JavaScript's `undefined`. */
    method OnRouteChangeSuccess(current: Route, previous: Option<Route>)
      modifies this`storeLocation, this`log, this`pending
      ensures Model() == BridgeModel.OnRouteChangeSuccess(env, old(Model()), current, previous)
    {
      if previous.Some? {
        log := log + [MonitorStarted(windowHref, previous.value.routeInfo, current.routeInfo)];
      }
      Dispatch(LocationUpdate(env.pathOf(angularUrl), env.searchOf(angularUrl), currentRoute.params,
                              Some(currentRoute.routeInfo)));
    }

    /** The `CoreEvents.locationChange` listener. */
    method OnLocationChange(href: string)
      modifies this`windowHref, this`log, this`pending
      ensures Model() == BridgeModel.OnLocationChange(env, old(Model()), href)
    {
      var urlWithoutBase := env.stripBaseFromUrl(href);
      if IndexOf(fullPageReloadRoutes, urlWithoutBase) > -1 {
        windowHref := href;
        log := log + [HardNavigation(href)];
        return;
      }
      pending := pending + [RequestWrite(urlWithoutBase)];
    }

    /** `$timeout` runs the oldest queued closure; `ran` says whether there was one. */
    method RunNextDeferred() returns (ran: bool)
      modifies this`angularUrl, this`pending, this`log
      ensures ran == (old(pending) != [])
      ensures Model() == BridgeModel.RunNextDeferred(old(Model()))
    {
      ran := pending != [];
      if !ran {
        return;
      }
      var next := pending[0];
      pending := pending[1..];
      match next
      case StoreWrite(url, replace) =>
        angularUrl := url;
        log := log + [UrlSet(url)];
        if replace {
          log := log + [Replaced];
        }
      case RequestWrite(url) =>
        angularUrl := url;
        log := log + [UrlSet(url)];
    }

    /** Surroundings: other code changed the store, which then notifies the listener. */
    method StoreCommitted(next: LocationState)
      modifies this`storeLocation, this`pending
      ensures storeLocation == next
      ensures Model() == BridgeModel.StoreCommitted(env, old(Model()), next)
    {
      storeLocation := next;
      StoreListener();
    }

    /** Surroundings: Angular moved to a new URL and route by itself. */
    method AngularNavigated(url: string, href: string, route: Route)
      modifies this`angularUrl, this`windowHref, this`currentRoute
      ensures Model() == BridgeModel.AngularNavigated(old(Model()), url, href, route)
    {
      angularUrl := url;
      windowHref := href;
      currentRoute := route;
    }
  }

  /** A reducer that records the dispatched path as the store's URL. */
  function PathReducer(s: LocationState, u: LocationUpdate): LocationState
  {
    s.(url := u.path, path := u.path, query := u.query, routeParams := u.routeParams,
       replace := false, routeInfo := u.routeInfo)
  }

  /**
   * Angular and the store both start at "/a" with no base path; the store
   * then moves to "/b". The listener queues one write, the tick applies it
   * (with `replace()` exactly when the store asked for it), and the
   * `$routeUpdate` that follows finds the URLs equal and dispatches nothing.
   */
  method StoreDrivenNavigation(replace: bool) returns (effects: seq<Effect>, url: string, queued: nat)
    ensures effects == [UrlSet("/b")] + (if replace then [Replaced] else [])
    ensures url == "/b"
    ensures queued == 0
  {
    var env := Env(s => s, PathReducer, s => s, s => map[]);
    var route := Route(map[], RouteInfo("dashboard"));
    var start := LocationState("/a", "/a", map[], map[], false, None);
    var bridge := new BridgeSrv(env, "/a", route, start, "http://localhost/a");
    bridge.StoreListener();
    assert bridge.pending == [];
    bridge.StoreCommitted(start.(url := "/b", path := "/b", replace := replace));
    assert bridge.pending == [StoreWrite("/b", replace)];
    var ran := bridge.RunNextDeferred();
    bridge.OnRouteUpdate();
    effects, url, queued := bridge.log, bridge.angularUrl, |bridge.pending|;
  }

  /**
   * Under a base path "/grafana" (the store holding full URLs), a request
   * for "/grafana/logout" reloads the page at the full href, while
   * "/grafana/logout/" is queued as an in-app write of "/logout/".
   */
  method LogoutRequests() returns (afterLogout: seq<Effect>, href: string, queued: seq<Deferred>)
    ensures afterLogout == [HardNavigation("/grafana/logout")]
    ensures href == "/grafana/logout"
    ensures queued == [RequestWrite("/logout/")]
  {
    var strip := (s: string) => if |s| >= 8 && s[..8] == "/grafana" then s[8..] else s;
    var env := Env(strip, PathReducer, s => s, s => map[]);
    var route := Route(map[], RouteInfo("home"));
    var start := LocationState("/grafana/", "/", map[], map[], false, None);
    var bridge := new BridgeSrv(env, "/", route, start, "http://localhost/grafana/");
    assert strip("/grafana/logout") == "/logout";
    bridge.OnLocationChange("/grafana/logout");
    afterLogout, href := bridge.log, bridge.windowHref;
    assert strip("/grafana/logout/") == "/logout/";
    bridge.OnLocationChange("/grafana/logout/");
    queued := bridge.pending;
  }
}
