# inventory-optimisation-server: the request pipeline in Dafny

This project models the request-handling core of the inventory-optimisation
server, a small Go HTTP API. The core is the mini web framework: per-request
`Values`, `App.Handle` with its middleware composition, and the per-request
closure with its fallback `web.Error`. It also covers the two middlewares
`ErrorHandler` and `RequestLogger`, the `translate` sentinel mapping, the
route table built by `API`, and the optimisation-request logic. That logic is
the file-type rule, record construction, the database error mapping, and the
four HTTP handlers.

Layout, one module per file:

- `wrappers.dfy` (`Wrappers`): `Option` and `Result`.
- `errors.dfy` (`Errors`): sentinel errors, wrapping and `errors.Cause`.
- `models.dfy` (`Models`): the record types.
- `web.dfy` (`Web`): the request and response values, and the classes
  `Values`, `ResponseWriter` and `Logger`. It also holds the abstract
  `State` view of one request, the Responder, middleware chains with
  `Wrap`/`Compose`, and the `App` class with `Handle`.
- `mid.dfy` (`Mid`): `ErrorHandler` and `RequestLogger`. Each is a
  function (`Recovered`, `Logged`) plus a method over the request's objects
  that is proved equal to it.
- `optimisation_request.dfy` (`OptimisationRequest`): the domain package.
- `handlers.dfy` (`Handlers`): `translate` and the four optimisation-request
  handlers. Each handler is a method proved equal to an `…Outcome` function.
  The health and user handlers are an abstract `Behaviour`.
- `pipeline.dfy` (`Pipeline`): `Exec` is what a composed chain does to a
  request. `Run` runs a chain over the objects and is proved equal to `Exec`.
  `Serve` and `Dispatch` are the per-request closure.
- `routes.dfy` (`Routes`): `API` as the method `Api`, specified by the route
  table `Table`.
- `properties.dfy` (`Properties`): end-to-end guarantees and deviations.

A handler exits in one of three ways: it returns nil, it returns an error, or
it panics (`Web.Exit`). The state a request can change is summarised by
`Web.State`. That is `Now`, `StatusCode` and `Error` from `Values`, the
responses written so far, and the log. Every stage only grows this state
(`Web.Grows`): `Now` is kept, responses and log lines are only appended,
`Error` is never cleared, and `StatusCode` stays equal to the status of the
last response written (`Web.StatusRecorded`).

Where the framework's conventions and the code part ways, the model follows
the code:

- The framework relies on a handler contract of one response per request,
  with `StatusCode` set once. In the code, the `Validate` handler, given a
  parsed form, calls `web.Respond` twice for a factory-data file: 422, then
  204. The client gets 422; `StatusCode` and the request line record 204.
  The `Create` handler calls `web.Respond` with a 422 for each factory-data
  file and then with its final answer, so a successful create with a
  factory-data file goes out as 422 and is logged as 201
  (`Properties.CreateSendsFirstRejection`). `Properties.ApiAnswersOnce`
  proves the one-response rule for the other nine routes, given the
  abstract `Behaviour` of the health and user handlers.
- `translate` knows only the user package's sentinels. The
  optimisation-request package's `ErrNotFound` and `ErrInvalidID` reach
  `ErrorHandler` unchanged. They are logged as errors and answered with
  whatever status `web.Error` gives them, not as `web.ErrNotFound`
  (`Properties.RetrieveMissing`).
- The `Validate` handler reads `r.MultipartForm` without parsing the body,
  and nothing on its route (net/http, httptreemux, `RequestLogger`,
  `Metrics`, `ErrorHandler`) parses it either. So as net/http delivers the
  request the form is nil, and every request to `GET /v1/validate` takes the
  panic path and is answered 500 (`Properties.ValidateAsDelivered`). The
  form is still an input of the model: the other `Properties.Validate…`
  lemmas state what the handler would do given a parsed form.

## Model

| member | source | states |
|---|---|---|
| Errors.Cause | internal/mid/errors.go:47 | the root cause is always an unwrapped error, and an unwrapped error is its own cause |
| Errors.CauseSeesThroughWrapping | cmd/api/handlers/errors.go:14 | wrapping an error in any number of messages leaves its root cause unchanged |
| Web.Values.constructor | internal/platform/web/web.go:60-62 | a request's Values has Now set, StatusCode 0 and Error false |
| Web.Fresh | internal/platform/web/web.go:60-65 | a request starts with nothing written, Error false and StatusCode consistent with the responses |
| Web.Logger.Printf | internal/mid/errors.go:52 | a log call appends exactly one entry and keeps the earlier ones |
| Web.Respond | cmd/api/handlers/optimisationRequest.go:69 | a response is appended to what was written and its status is recorded in Values; Now, Error and the log are unchanged |
| Web.RespondError | internal/mid/errors.go:34 | an error body is written once with the given status |
| Web.SendError | internal/platform/web/web.go:69 | web.Error writes one response carrying the error, with the status its table gives |
| Web.Responded | cmd/api/handlers/optimisationRequest.go:48 | writing grows the state and leaves StatusCode equal to the last status written |
| Web.Wrap | internal/platform/web/web.go:53 | wrapping puts the given middleware, in list order, outside the chain's own layers, and keeps its handler |
| Web.Compose | internal/platform/web/web.go:53 | the composed chain has the app-wide layers, then the route layers, then the handler |
| Web.ChainDetermined | internal/platform/web/web.go:53 | a chain is determined by its layers and its handler |
| Web.ComposeIsOneWrap | internal/platform/web/web.go:53 | wrapping in route middleware and then in app middleware is one wrap in their concatenation |
| Web.LookupFindsNewRoute | internal/platform/web/web.go:74 | a newly registered (verb, path) dispatches to the target it was registered with |
| Web.LookupIgnoresOtherRoutes | internal/platform/web/web.go:74 | registering a route does not change the dispatch of any other (verb, path) |
| Web.App.constructor | internal/platform/web/web.go:39-45 | New keeps the app-wide middleware exactly as given and starts with no routes |
| Web.App.Handle | internal/platform/web/web.go:49-75 | Handle appends exactly one route under the given (verb, path), whose target is the handler composed once with the route and app-wide middleware |
| Mid.Recovered | internal/mid/errors.go:15-66 | nil is always returned. On nil from next nothing changes. On an error, Error is set, one response with the root cause and its status is written, and the log gains exactly one error line when the cause is not web.ErrNotFound and nothing otherwise. On a panic, Error is set, one 500 is written, and the panic and the stack are logged |
| Mid.ErrorHandler | internal/mid/errors.go:15-66 | the method leaves Values, the writer and the log exactly as Recovered says |
| Mid.Logged | internal/mid/logger.go:14-34 | the exit of next is passed on unchanged. On a normal return, ok or not, exactly one line is logged with StatusCode as read after next, the request's verb, path and address, and the elapsed time. Nothing but the log changes |
| Mid.RequestLogger | internal/mid/logger.go:14-34 | the method changes only the log, exactly as Logged says |
| Handlers.Translate | cmd/api/handlers/errors.go:13-25 | nil maps to nil. A root cause that is a user sentinel becomes the matching bare web sentinel. Any other error is returned unchanged. No result has a user sentinel as its cause |
| Handlers.TranslateIdempotent | cmd/api/handlers/errors.go:14-24 | translating twice equals translating once |
| Handlers.TranslateSeesThroughWrapping | cmd/api/handlers/errors.go:14 | a wrapped user sentinel translates like the bare one; any other wrapped error keeps its wrapping |
| Handlers.TranslateKeepsRequestSentinels | cmd/api/handlers/errors.go:15-22 | the optimisation-request sentinels pass through translate unchanged |
| Handlers.AbstractOutcome | cmd/api/handlers/routes.go:27-42 | a health or user handler grows the state: it responds once, returns an error, or panics |
| Handlers.Abstract | cmd/api/handlers/routes.go:27-42 | the method does what AbstractOutcome says |
| Handlers.VisitFile | cmd/api/handlers/optimisationRequest.go:46-55 | one file grows the state |
| Handlers.VisitFiles | cmd/api/handlers/optimisationRequest.go:45-56 | the files of one type grow the state and only extend the collected inputs |
| Handlers.VisitTypes | cmd/api/handlers/optimisationRequest.go:44-57 | the types in order grow the state and only extend the collected inputs |
| Handlers.Uploaded | cmd/api/handlers/optimisationRequest.go:51-54 | one input per file, each with the file type and location "s3-path" |
| Handlers.Rejections | cmd/api/handlers/optimisationRequest.go:48 | one 422 per file carrying that file, in order |
| Handlers.VisitProductFiles | cmd/api/handlers/optimisationRequest.go:46-55 | every product file adds one input and nothing is written |
| Handlers.VisitFactoryFiles | cmd/api/handlers/optimisationRequest.go:46-49 | every factory file writes its own 422 in order and adds no input; the log and Error are untouched |
| Handlers.CollectUpload | cmd/api/handlers/optimisationRequest.go:41-57 | the collected inputs are exactly one per product file, in order, and the responses written are exactly one 422 per factory file, in order |
| Handlers.CreateOutcome | cmd/api/handlers/optimisationRequest.go:25-70 | the Create handler only grows the state |
| Handlers.CollectFiles | cmd/api/handlers/optimisationRequest.go:45-56 | the inner loop leaves the inputs and the state as VisitFiles says |
| Handlers.CollectTypes | cmd/api/handlers/optimisationRequest.go:41-57 | the outer loop leaves the inputs and the state as VisitTypes says |
| Handlers.Create | cmd/api/handlers/optimisationRequest.go:25-70 | the handler's exit and new state are those of CreateOutcome |
| Handlers.ValidateOutcome | cmd/api/handlers/optimisationRequest.go:74-85 | the Validate handler only grows the state |
| Handlers.Validate | cmd/api/handlers/optimisationRequest.go:74-85 | the handler's exit and new state are those of ValidateOutcome |
| Handlers.ListOutcome | cmd/api/handlers/optimisationRequest.go:88-100 | the List handler only grows the state |
| Handlers.List | cmd/api/handlers/optimisationRequest.go:88-100 | the handler's exit and new state are those of ListOutcome |
| Handlers.RetrieveOutcome | cmd/api/handlers/optimisationRequest.go:103-115 | the Retrieve handler only grows the state |
| Handlers.Retrieve | cmd/api/handlers/optimisationRequest.go:103-115 | the handler's exit and new state are those of RetrieveOutcome |
| OptimisationRequest.Validate | internal/optimisationRequest/optimisationRequest.go:81-86 | a file is rejected and handed back exactly when its type is the factory-data type; otherwise it is accepted with nil |
| OptimisationRequest.Truncate | internal/optimisationRequest/optimisationRequest.go:38 | the result is a whole millisecond, at most the input, and less than one millisecond below it |
| OptimisationRequest.ToRequestInputs | internal/optimisationRequest/optimisationRequest.go:40-46 | same count and order, and each input keeps its type and location |
| OptimisationRequest.CreateResult | internal/optimisationRequest/optimisationRequest.go:37-63 | success exactly when the insert succeeds. The record has the new id, the name, the mapped inputs and the truncated time. A failure keeps the insert error's root cause under a new wrapping |
| OptimisationRequest.Create | internal/optimisationRequest/optimisationRequest.go:37-63 | the loop builds CreateResult; on success every input i is the stored form of submitted input i |
| OptimisationRequest.List | internal/optimisationRequest/optimisationRequest.go:89-101 | every stored request on success; on failure the database error with its cause kept, newly wrapped |
| OptimisationRequest.Retrieve | internal/optimisationRequest/optimisationRequest.go:104-124 | a bad id gives ErrInvalidID before the database is used. The driver's not-found becomes ErrNotFound. Any other error keeps its cause and is wrapped. Otherwise the record found is returned |
| Pipeline.Handled | cmd/api/handlers/routes.go:27-51 | each registered handler only grows the state |
| Pipeline.Exec | internal/platform/web/web.go:53 | every chain only grows the state: Now is kept, writes and log lines only append, Error is never cleared |
| Pipeline.Run | internal/platform/web/web.go:68 | running a chain over the request's objects gives the exit and state that Exec gives |
| Pipeline.Serve | internal/platform/web/web.go:56-71 | the closure never lets a returned error out. When the chain returns an error, exactly one more response is written, web.Error's answer to that error with its table status, and nothing is logged; otherwise the outcome is the chain's own. It panics exactly when the chain panics, and it grows the fresh request state |
| Pipeline.Dispatch | internal/platform/web/web.go:56-71 | each request gets new Values and a new writer, and the outcome is Serve's |
| Routes.Api | cmd/api/handlers/routes.go:14-54 | API builds an app with [RequestLogger, Metrics, ErrorHandler] as app-wide middleware and exactly the route table Table |
| Routes.TablePairsDistinct | cmd/api/handlers/routes.go:27-51 | no (verb, path) is registered twice across the eleven registrations |
| Routes.TableGuarded | cmd/api/handlers/routes.go:21-51 | every route is [RequestLogger, Metrics, ErrorHandler], then its own middleware, then its handler; Authenticate is the route middleware of exactly the five user CRUD routes |
| Routes.TableEndpoints | cmd/api/handlers/routes.go:27-51 | the eleven handlers, in registration order |
| Routes.LookupFindsEveryRoute | cmd/api/handlers/routes.go:27-51 | with distinct pairs, every registered (verb, path) dispatches to its own target |
| Properties.AppWrapShape | cmd/api/handlers/routes.go:21 | RequestLogger is outermost and ErrorHandler innermost of the app-wide layers |
| Properties.TableTarget | cmd/api/handlers/routes.go:27-51 | each route is its route chain behind the app-wide middleware |
| Properties.BehindApp | internal/platform/web/web.go:68-70 | behind the app-wide middleware, the closure's outcome is RequestLogger applied to ErrorHandler applied to the inner chain's exit and state; the fallback adds nothing |
| Properties.AnsweredAndLogged | internal/mid/errors.go:41-59 | when next returns an error, ErrorHandler then RequestLogger write one response with the root cause and its status, log an error line unless the cause is web.ErrNotFound, then log the request line with that status |
| Properties.AnswerBehindApp | internal/mid/errors.go:24-59 | behind the app-wide middleware, the responses are the inner chain's when it returns nil, and the inner chain's plus ErrorHandler's answer with the root cause when it returns an error |
| Properties.FailsBehindApp | internal/mid/errors.go:41-59 | an inner chain that returns an error and writes nothing gets exactly ErrorHandler's answer, with the error line logged unless the cause is web.ErrNotFound, then the request line |
| Properties.Shielded | internal/platform/web/web.go:68-70 | behind the app-wide middleware the closure gets nil, so its fallback never runs. ErrorHandler adds one response exactly when the inner chain did not return nil. The log ends with one request line whose status is that of the last response written, and whose latency is the clock minus Now |
| Properties.RouteChainExec | cmd/api/handlers/routes.go:35-39 | Authenticate either rejects without running the handler or hands over to it; routes without it run the handler directly |
| Properties.RouteAnswersOnce | cmd/api/handlers/optimisationRequest.go:93-114 | handlers other than Validate and Create write one response on nil and none on an error or panic |
| Properties.ApiAnswersOnce | cmd/api/handlers/routes.go:27-51 | given the abstract behaviour of the health and user handlers, every route except validate and create writes exactly one response per request, and the request's log line carries its status |
| Properties.ChainAnswersOnce | cmd/api/handlers/routes.go:27-51 | behind the app-wide middleware, the route chain of every handler other than Validate and Create writes exactly one response, and the request line carries its status |
| Properties.ApiLogsEveryRequest | internal/mid/logger.go:19-30 | on every route, nil reaches the closure and the last log line is the request line with the last written status |
| Properties.RoutesFound | cmd/api/handlers/routes.go:47-51 | the validate, create and retrieve pairs dispatch to their handlers behind the app-wide middleware |
| Properties.ValidateWithoutForm | cmd/api/handlers/optimisationRequest.go:76 | with no parsed form, the validate route answers one 500 and sets Error. It logs the panic, the stack and a request line with 500 |
| Properties.ValidateAsDelivered | cmd/api/handlers/optimisationRequest.go:74-78 | GET /v1/validate dispatches to the validate route, and a request with no parsed form, as net/http delivers it there, gets status 500 on the wire and is logged with 500 |
| Properties.ValidateRejectsFactoryFile | cmd/api/handlers/optimisationRequest.go:79-83 | given a parsed form, a factory-data file makes the handler call web.Respond twice, 422 with the file and then 204; the client gets 422 and the request is logged with 204 |
| Properties.ValidateAcceptsOtherFile | cmd/api/handlers/optimisationRequest.go:79-83 | given a parsed form, any other type with a file is answered with a single 204 |
| Properties.ValidateWithoutFile | cmd/api/handlers/optimisationRequest.go:76-78 | given a parsed form, no file of the type gives ErrValidation, which is logged and answered once with its status |
| Properties.CreateParseError | cmd/api/handlers/optimisationRequest.go:31-34 | a body that does not parse is returned as an error with the same cause, and nothing is written |
| Properties.ListHandler | cmd/api/handlers/optimisationRequest.go:93-99 | success writes one 200 with every request. Failure writes nothing and returns the translated cause |
| Properties.RetrieveHandler | cmd/api/handlers/optimisationRequest.go:108-114 | success writes one 200 with the record. Failure writes nothing and returns the translated cause |
| Properties.CreateHandler | cmd/api/handlers/optimisationRequest.go:41-70 | a 422 is written per factory file. Then a 201 follows with the record of the product files, timed to the millisecond, or the translated insert error comes back with nothing more written. The log is untouched |
| Properties.CreateAnswersEachFactoryFile | cmd/api/handlers/optimisationRequest.go:44-70 | through the router, a create with k factory files makes k web.Respond calls with 422, then one with the 201 or ErrorHandler's answer to the insert error |
| Properties.CreateTarget | cmd/api/handlers/routes.go:48 | the create route's target runs the Create handler |
| Properties.CreateRouteSucceeds | cmd/api/handlers/optimisationRequest.go:44-70 | when the insert succeeds, the create route's web.Respond calls are one 422 per factory file and then the 201 with the record |
| Properties.CreateRouteFails | cmd/api/handlers/optimisationRequest.go:44-67 | when the insert fails with a cause translate does not map, the create route's responses are one 422 per factory file and then ErrorHandler's answer with that cause |
| Properties.CreateSendsFirstRejection | cmd/api/handlers/optimisationRequest.go:48-69 | a successful create with a factory-data file goes out with status 422, while the request line records 201 |
| Properties.CreateWithoutName | cmd/api/handlers/optimisationRequest.go:43 | a form without a name takes the panic path: one 500, with the panic and the stack logged |
| Properties.RetrieveMissing | internal/optimisationRequest/optimisationRequest.go:116-119 | an absent record is answered with the untranslated ErrNotFound and its status, and is logged as an error |
| Properties.RetrieveInvalidId | internal/optimisationRequest/optimisationRequest.go:106-108 | a malformed id is answered with the untranslated ErrInvalidID and is logged as an error |
| Properties.OnlyNotFoundIsQuiet | internal/mid/errors.go:49-53 | on the health-check and token routes, a handler error with root cause web.ErrNotFound is answered without an error line; any other cause is logged once |
| Properties.QuietChain | internal/mid/errors.go:45-58 | behind the app-wide middleware, a health-check or token handler error with root cause web.ErrNotFound is answered without an error line; any other cause is logged once |
| Properties.RejectedBeforeHandler | cmd/api/handlers/routes.go:35-39 | on the user routes, a request Authenticate rejects gets the rejection as its single response, whatever the handler would do |
| Properties.RejectedChain | cmd/api/handlers/routes.go:35-39 | behind the app-wide middleware, a request Authenticate rejects gets the rejection as its one response |

## Left out

- `cmd/api/main.go` is not part of this model. It holds configuration, key files, the debug and API servers, signals and shutdown, which are process lifecycle and I/O.
- `cmd/api/handlers/user.go` and `cmd/api/handlers/health.go` are not part of this model. Their handlers are an abstract `Behaviour`: respond once with a status, return an error, or panic. The user handlers' own calls to `translate` are part of that behaviour.
- `web.Respond`, `web.RespondError` and `web.Error` are not part of this model beyond writing one response and recording its status. The JSON encoding is left out. `web.Error`'s status for each error is a parameter (`StatusTable`).
- `ResponseWriter.written` records every `web.Respond` call, not the bytes sent. An `http.ResponseWriter` sends one status line: the first `WriteHeader` wins and later ones are ignored. `Properties.WireStatus` gives the status the client receives; `Properties.LastStatus` is what `StatusCode` and the request line record.
- The `web.Err*` sentinels, `errors.New` and `errors.Wrap` are modelled as a datatype of sentinel kinds plus wrapping. Wrap messages are fixed strings: the `%+v` and `db.Query` formatting is left out.
- `wrapMiddleware` is not part of this model. `Web.Wrap` puts the first middleware of a list outermost, so `RequestLogger` sees the request first.
- `mid.Metrics` is not part of this model. It is modelled as calling next and passing its exit through.
- `mid.Auth` is not part of this model. `Authenticate` either rejects with a given error without calling next, or calls next.
- mgo and bson are not part of this model. The outcomes of `Insert`, `Find(nil).All`, `Find(q).One` and `NewObjectId` are given in a `Db` value. `IsObjectIdHex` is an uninterpreted predicate. `dbConn.Copy` and `Close` are left out.
- `UploadToS3` and the S3 SDK are left out. The handler's upload code is commented out, and the model records the location "s3-path" as the handler does.
- The multipart parsing of net/http is left out. The parsed form, or the parse error, is an input. So is `r.MultipartForm` as the `Validate` handler finds it.
- httptreemux pattern matching is left out. `Web.Lookup` matches (verb, path) exactly, so `:id` paths are compared as registered.
- `internal/constants` is not part of this model. The two file types are placeholder strings; only the fact that they differ matters.
- Log text, stack-trace contents and `time.Since` formatting are left out. Log lines are abstract entries, and time is a natural number of nanoseconds read from a given clock.
- The context, `ctx.Value` and the type assertion on it are left out. The handlers receive the request's `Values` object directly. The closure at `internal/platform/web/web.go:64-65` derives its context from a nil `context.Context`; `context.WithValue` panics on a nil parent from Go 1.15 on, and that panic happens outside `ErrorHandler`'s recover, so no response would be written. The model assumes a toolchain before Go 1.15, where the call succeeds; the source pins no Go version.
- Concurrency between requests is left out. Each request's chain runs sequentially on its own objects.
- A panic with a nil value is left out. `recover` returns nil for it, so the deferred block in `ErrorHandler` would write nothing. Every panic in the model carries a value.
- Pipeline.Exec: states only that the state grows. The exact effect of each layer is given by its definition together with `Mid.Recovered` and `Mid.Logged`, and is stated end to end in the `Properties` lemmas.
