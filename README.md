# BridgeSrv location synchronisation, modelled in Dafny

Grafana's `BridgeSrv` (`public/app/core/services/bridge_srv.ts`) keeps two holders
of "the current URL" in step: AngularJS's `$location` service and the `location`
slice of the Redux store. Its `init()` registers four listeners:

- `$routeUpdate`: if the store's URL differs from the unstripped `$location.url()`,
  dispatch `updateLocation` with path, query and route parameters (no `routeInfo`);
- `$routeChangeSuccess`: when there is a previous route, tell `navMonitor` about
  the transition, then always dispatch `updateLocation`, now with the current
  route's `routeInfo`;
- `store.subscribe`: if the store's URL, with the base path stripped, differs
  from `$location.url()`, queue on `$timeout` a write of that stripped URL,
  followed by `$location.replace()` when the store state asked for `replace`;
- `CoreEvents.locationChange`: strip the base path from the requested href; if the
  result is an element of `fullPageReloadRoutes` (`['/logout']`), assign the full
  href to `window.location.href`; otherwise queue a `$timeout` write of the
  stripped href.

The project has three modules.

- `BridgeModel` (`bridge_model.dfy`) holds the data model. A `Bridge` value is a
  snapshot of the reload list, the Angular URL and current route, the store's
  location, the browser's href, and the `$timeout` queue. A `Deferred` is a queued
  closure with the values it captured. The snapshot also keeps one ordered log of
  effects: dispatches, `navMonitor` calls, `url()` writes, `replace()` calls and
  hard navigations. Each listener is a step function on snapshots. `Step` and `Run`
  drive the service with any sequence of events.
- `BridgeProps` (`bridge_props.dfy`) holds the lemmas about those step functions.
  One of them is an invariant that every reachable state keeps.
- `BridgeService` (`bridge_srv.dfy`) holds the class `BridgeSrv`, whose fields
  are the same state. Its methods update those fields in place. Each method's
  `modifies` clause names the fields it touches, and its `ensures` clause says
  that `Model()` moves exactly as the matching step function says. So every
  lemma in `BridgeProps` holds of the object too. Two client methods at the end
  are verified concrete scenarios.

Collaborators whose code is outside this model are parameters. They are bundled
in `Env` and passed to the constructor:

- `locationUtil.stripBaseFromUrl`;
- the store's reducer for `updateLocation`;
- AngularJS's reading of `path()` and `search()` from its current URL.

`store.dispatch` is synchronous in Redux. So a dispatch here runs the reducer,
records the action and then runs the bridge's store listener. Two methods stand
for the surroundings:

- `StoreCommitted`: other code changed the store, which then runs the bridge's
  listener (lines 61-65). It has a row below.
- `AngularNavigated`: AngularJS moved to a new URL and route by itself. It
  models no source lines and has no row.

The code has no `dispose()` and no cancellation of queued writes. The store
closure captures `url` and `state` when it is queued and writes the captured URL
without checking again.

## Model

| member | source | states |
|---|---|---|
| `BridgeService.BridgeSrv.constructor` | public/app/core/services/bridge_srv.ts:14-22 | the reload list is exactly `["/logout"]`; the queue and the effect log start empty |
| `BridgeModel.IndexOf` | public/app/core/services/bridge_srv.ts:79 | `indexOf` returns -1 exactly when the element is absent; otherwise it returns an index holding the element, with no earlier occurrence |
| `BridgeService.BridgeSrv.StoreListener` | public/app/core/services/bridge_srv.ts:61-75 | queues `StoreWrite(stripped store URL, replace flag)` exactly when the stripped URL differs from Angular's; it changes nothing else |
| `BridgeService.BridgeSrv.Dispatch` | public/app/core/services/bridge_srv.ts:29-57 | the `store.dispatch(updateLocation(..))` calls at lines 29-35 and 50-57: the store holds the reducer's result; the action is appended to the log; the store listener reacts |
| `BridgeService.BridgeSrv.OnRouteUpdate` | public/app/core/services/bridge_srv.ts:25-37 | the object moves as `BridgeModel.OnRouteUpdate`; only store, log and queue can change |
| `BridgeService.BridgeSrv.OnRouteChangeSuccess` | public/app/core/services/bridge_srv.ts:39-58 | the object moves as `BridgeModel.OnRouteChangeSuccess`; only store, log and queue can change |
| `BridgeService.BridgeSrv.OnLocationChange` | public/app/core/services/bridge_srv.ts:77-88 | the object moves as `BridgeModel.OnLocationChange`; only the browser href, log and queue can change |
| `BridgeService.BridgeSrv.RunNextDeferred` | public/app/core/services/bridge_srv.ts:66-87 | runs the oldest queued closure, if any, and says whether there was one; the object moves as `BridgeModel.RunNextDeferred` |
| `BridgeService.BridgeSrv.StoreCommitted` | public/app/core/services/bridge_srv.ts:61-65 | a store change is followed by the listener's reaction to the new location |
| `BridgeProps.RouteUpdateDispatchesIffUrlDiffers` | public/app/core/services/bridge_srv.ts:26-35 | an `updateLocation` is dispatched iff the store URL differs from the unstripped Angular URL; it is exactly one action with path, query, params and no `routeInfo`; otherwise nothing changes |
| `BridgeProps.RouteChangeSuccessDispatchesOnce` | public/app/core/services/bridge_srv.ts:41-57 | exactly one dispatch, carrying the current route's `routeInfo`; `navMonitor` is called once before it, with (href, previous, current `routeInfo`), iff there is a previous route; the round trip through the store queues at most one write, and none when the reduced URL is already Angular's |
| `BridgeProps.FirstRouteChangeSkipsMonitor` | public/app/core/services/bridge_srv.ts:40-57 | with `previous` undefined, the earlier log is kept as it was and the only new effect is the dispatch, which carries `routeInfo`; `navMonitor` is not called |
| `BridgeProps.StoreListenerSchedulesIffUrlDiffers` | public/app/core/services/bridge_srv.ts:62-65 | the queue changes iff the stripped store URL differs from Angular's; the queued write is that URL with the store's `replace`; nothing else changes |
| `BridgeProps.RepeatedNotifications` | public/app/core/services/bridge_srv.ts:61-74 | `n` notifications with an unchanged store schedule nothing when the URLs agree; when they differ, each one queues the same write again |
| `BridgeProps.StoreWriteRunsCapturedValues` | public/app/core/services/bridge_srv.ts:66-72 | running a store write sets Angular's URL to the captured URL and calls `replace()` iff the captured flag is set; nothing else changes |
| `BridgeProps.DeferredWriteUsesValuesAtScheduling` | public/app/core/services/bridge_srv.ts:62-72 | whatever the store changes to before the tick, the write applies the URL and `replace` captured when it was queued |
| `BridgeProps.StoreToAngularSettles` | public/app/core/services/bridge_srv.ts:61-72 | from an empty queue, one notification plus one tick leave Angular at the stripped store URL with an empty queue, and a further notification does nothing |
| `BridgeProps.StaleWriteAfterStoreReverts` | public/app/core/services/bridge_srv.ts:61-72 | a write queued while the store differed is still applied after the store has moved back to Angular's URL, which queued nothing: the queue ends empty with Angular away from the store, and only the next notification queues the repair |
| `BridgeProps.DrainAppliesLastWrite` | public/app/core/services/bridge_srv.ts:66-87 | running every queued closure in turn leaves the queue empty and Angular at the URL of the last one; the store, the browser href and the reload list are untouched |
| `BridgeProps.StoreToAngularSettlesFromAnyQueue` | public/app/core/services/bridge_srv.ts:61-72 | whatever is already queued, a notification that queues a write is followed, once the queue drains, by Angular at the stripped store URL, an empty queue and a quiet further notification |
| `BridgeProps.ComparisonsAreAsymmetric` | public/app/core/services/bridge_srv.ts:26-28 | when the store URL agrees with Angular's only after stripping, the store listener (line 65) stays quiet but `$routeUpdate` still dispatches |
| `BridgeProps.LocationChangeReloadsExactMembers` | public/app/core/services/bridge_srv.ts:78-87 | a stripped href on the reload list sets the browser href to the full href and logs only that; any other stripped href queues exactly one `RequestWrite` of it and nothing else |
| `BridgeProps.RequestedWriteIsPlainUrlSet` | public/app/core/services/bridge_srv.ts:84-87 | the request write, when run, sets Angular's URL to the stripped href; it calls no `replace()`, dispatches nothing and leaves the browser href alone |
| `BridgeProps.RequestWriteRunsCapturedUrl` | public/app/core/services/bridge_srv.ts:84-87 | a request write at the head of any queue sets Angular's URL to the stripped href it captured and does nothing else: no `replace()`, no dispatch, the browser href unchanged |
| `BridgeProps.ReloadIsLiteralLogoutMatch` | public/app/core/services/bridge_srv.ts:79-82 | with the constructor's list, a request reloads iff its stripped href is literally `"/logout"`; otherwise the queue grows |
| `BridgeProps.RunPreservesInv` | public/app/core/services/bridge_srv.ts:21-88 | over any event sequence: the reload list stays `["/logout"]`; `replace()` only follows a `url()` write; hard navigations only go to reload routes; no queued request targets one |
| `BridgeProps.ReloadRoutesNeverChange` | public/app/core/services/bridge_srv.ts:21 | from construction, after any sequence of events, `fullPageReloadRoutes` is `["/logout"]` |
| `BridgeService.StoreDrivenNavigation` | public/app/core/services/bridge_srv.ts:61-72 | Angular and store at "/a", then the store moves to "/b". The only effects are `url("/b")`, plus `replace()` exactly when asked; the following `$routeUpdate` dispatches nothing |
| `BridgeService.LogoutRequests` | public/app/core/services/bridge_srv.ts:77-88 | under base path "/grafana", "/grafana/logout" hard-navigates to the full href; "/grafana/logout/" queues an in-app write of "/logout/" |

## Left out

- Registration by `init()` (lines 24-89) is not a method here. The model is the service after one `init()`. Calling `init()` twice would register every listener twice; that is not modelled.
- AngularJS module registration and dependency injection (lines 1-8, 13-20, 92) are not modelled. The injected services are the fields of the object.
- `$timeout` timing and the AngularJS digest cycle are reduced to a FIFO queue that runs one closure per tick. The events AngularJS fires after a `url()` write come from the surroundings as separate calls.
- `locationUtil.stripBaseFromUrl`, the `updateLocation` reducer, and AngularJS's parsing of a URL into `path()` and `search()` are defined outside `bridge_srv.ts`. They are parameters.
- `navMonitor` internals are not modelled. Its calls are recorded in the effect log.
- `$location.url()` is taken to read back exactly the string last written by `$location.url(u)`. AngularJS's setter normalises what it is given: it adds a leading "/", re-encodes the path and drops an empty "?". So in AngularJS the getter can differ from the string written, and the comparison at line 65 could then queue another write. The model does not capture that. It is what `StoreToAngularSettles` ("a further notification does nothing") and `StoreDrivenNavigation` ("the following `$routeUpdate` dispatches nothing") rely on.
- StoreToAngularSettles: settling is proved only when the last queued write carries the store's current URL, which holds right after a notification that queues. A write queued before the store moved back to Angular's URL runs stale, because that later notification queues nothing. `StaleWriteAfterStoreReverts` shows this. Between notifications there is no settling promise.
- The browser's href changes here only through the hard navigation in `locationChange`. It does not follow AngularJS's `url()` writes. The page reload that a hard navigation causes is not modelled either: the model goes on accepting events.
- A route object without `$$route` would throw a `TypeError` at lines 45-46 and 55. The model assumes every route has one.
- Query values are string-to-string maps. AngularJS also allows arrays and booleans there; the bridge only forwards them.
- Only the bridge's own listener on the store is modelled. Other code's dispatches appear as `StoreCommitted`.
- `packages/grafana-e2e/src/flows/addDashboard.ts` is not part of this model. It is UI test automation with no state of its own that the bridge uses.
