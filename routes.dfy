/** The application's route table (cmd/api/handlers/routes.go). */
module Routes {
  import opened Wrappers
  import opened Web
  import opened Pipeline

  /** The app-wide middleware, outermost first. */
  const AppMiddleware: seq<Middleware> := [RequestLogger, Metrics, ErrorHandler]

  /** The five user CRUD routes are the ones behind authentication. */
  function RouteMiddleware(h: Endpoint): seq<Middleware>
  {
    if h in {UsersList, UsersCreate, UsersRetrieve, UsersUpdate, UsersDelete} then [Authenticate] else []
  }

  /** No (verb, path) pair is registered twice. */
  predicate DistinctPairs(routes: seq<Route<Middleware, Endpoint>>)
  {
    forall i, j | 0 <= i < j < |routes| :: routes[i].verb != routes[j].verb || routes[i].path != routes[j].path
  }

  /** Every route passes the app-wide middleware, then its own, then reaches its handler. */
  predicate Guarded(routes: seq<Route<Middleware, Endpoint>>)
  {
    forall i | 0 <= i < |routes| :: Layers(routes[i].target) == AppMiddleware + RouteMiddleware(Innermost(routes[i].target))
  }

  /** The handlers registered, in registration order. */
  function Endpoints(routes: seq<Route<Middleware, Endpoint>>): seq<Endpoint>
  {
    seq(|routes|, i requires 0 <= i < |routes| => Innermost(routes[i].target))
  }

  /** The route table API builds, in registration order. */
  function Table(): seq<Route<Middleware, Endpoint>>
  {
    [
      Route("GET", "/v1/health", Compose(AppMiddleware, [], HealthCheck)),

      Route("GET", "/v1/users", Compose(AppMiddleware, [Authenticate], UsersList)),
      Route("POST", "/v1/users", Compose(AppMiddleware, [Authenticate], UsersCreate)),
      Route("GET", "/v1/users/:id", Compose(AppMiddleware, [Authenticate], UsersRetrieve)),
      Route("PUT", "/v1/users/:id", Compose(AppMiddleware, [Authenticate], UsersUpdate)),
      Route("DELETE", "/v1/users/:id", Compose(AppMiddleware, [Authenticate], UsersDelete)),

      Route("GET", "/v1/users/token", Compose(AppMiddleware, [], UsersToken)),

      Route("GET", "/v1/validate", Compose(AppMiddleware, [], RequestsValidate)),
      Route("POST", "/v1/optimisation-requests", Compose(AppMiddleware, [], RequestsCreate)),

      Route("GET", "/v1/optimisation-requests", Compose(AppMiddleware, [], RequestsList)),
      Route("GET", "/v1/optimisation-requests/:id", Compose(AppMiddleware, [], RequestsRetrieve))
    ]
  }

  /** API: the app-wide middleware in its fixed order, then eleven registrations. */
  method Api() returns (app: App<Middleware, Endpoint>)
    ensures fresh(app)
    ensures app.mw == AppMiddleware
    ensures app.routes == Table()
  {
    app := new App(AppMiddleware);
    app.Handle("GET", "/v1/health", HealthCheck, []);

    app.Handle("GET", "/v1/users", UsersList, [Authenticate]);
    app.Handle("POST", "/v1/users", UsersCreate, [Authenticate]);
    app.Handle("GET", "/v1/users/:id", UsersRetrieve, [Authenticate]);
    app.Handle("PUT", "/v1/users/:id", UsersUpdate, [Authenticate]);
    app.Handle("DELETE", "/v1/users/:id", UsersDelete, [Authenticate]);

    app.Handle("GET", "/v1/users/token", UsersToken, []);

    app.Handle("GET", "/v1/validate", RequestsValidate, []);
    app.Handle("POST", "/v1/optimisation-requests", RequestsCreate, []);

    app.Handle("GET", "/v1/optimisation-requests", RequestsList, []);
    app.Handle("GET", "/v1/optimisation-requests/:id", RequestsRetrieve, []);
  }

  /** No (verb, path) pair of the table is registered twice. */
  lemma TablePairsDistinct()
    ensures DistinctPairs(Table())
  {
    // Paths of different lengths differ, and verbs of different first letters differ.
    var t := Table();
    var lengths := [10, 9, 9, 13, 13, 13, 15, 12, 25, 25, 29];
    var initials := ['G', 'G', 'P', 'G', 'P', 'D', 'G', 'G', 'P', 'G', 'G'];
    assert forall i | 0 <= i < |t| :: |t[i].path| == lengths[i] && t[i].verb[0] == initials[i];
    forall i, j | 0 <= i < j < |t|
      ensures t[i].verb != t[j].verb || t[i].path != t[j].path
    {
      assert lengths[i] != lengths[j] || initials[i] != initials[j];
    }
  }

  /** Every route of the table is the app-wide middleware, then its own, then its handler. */
  lemma TableGuarded()
    ensures Guarded(Table())
  {
  }

  /** The eleven handlers, in registration order. */
  lemma TableEndpoints()
    ensures Endpoints(Table()) == [
      HealthCheck,
      UsersList, UsersCreate, UsersRetrieve, UsersUpdate, UsersDelete,
      UsersToken,
      RequestsValidate, RequestsCreate,
      RequestsList, RequestsRetrieve]
  {
  }

  /** With no duplicate pair, every registered pair dispatches to the target it was registered with. */
  lemma {:induction false} LookupFindsEveryRoute(routes: seq<Route<Middleware, Endpoint>>, i: nat)
    requires DistinctPairs(routes) && i < |routes|
    ensures Lookup(routes, routes[i].verb, routes[i].path) == Some(routes[i].target)
    decreases i
  {
    if i > 0 {
      assert routes[0].verb != routes[i].verb || routes[0].path != routes[i].path;
      assert routes[1..][i - 1] == routes[i];
      LookupFindsEveryRoute(routes[1..], i - 1);
    }
  }
}
