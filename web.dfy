/**
 * The mini web framework: per-request Values, what a handler writes and logs,
 * the Responder, and the App that composes middleware around handlers and
 * registers the result under a (verb, path) pair.
 *
 * Handlers and middleware are data here: a Chain names its middleware layers
 * from the outside in and ends in a target handler. What a chain does to a
 * request is given by Pipeline.Exec.
 */
module Web {
  import opened Wrappers
  import opened Errors
  import opened Models

  // ---------------------------------------------------------------------------
  // The inbound request (net/http is not part of this model beyond these fields)
  // ---------------------------------------------------------------------------

  /** A file part of a multipart form; only its identity matters here. */
  datatype FileHeader = FileHeader(filename: string, size: nat)

  /** A parsed form: r.Form's values and r.MultipartForm's files, by field name. */
  datatype Form = Form(value: map<string, seq<string>>, file: map<string, seq<FileHeader>>)

  /** Indexing a Go map of slices: a missing key reads as an empty (nil) slice. */
  function FilesOf(form: Form, field: string): seq<FileHeader>
  {
    if field in form.file then form.file[field] else []
  }

  /**
   * An inbound request. `multipartForm` is r.MultipartForm as a handler finds
   * it (nil unless something parsed the body); `body` is what
   * ParseMultipartForm makes of the body: a form, or the parse error.
   */
  datatype HttpRequest = HttpRequest(
    verb: string,
    path: string,
    remoteAddr: string,
    query: map<string, seq<string>>,
    multipartForm: Option<Form>,
    body: Result<Form, Error>)

  /** url.Values.Get: the first value for the key, or "" when there is none. */
  function QueryValue(r: HttpRequest, key: string): string
  {
    if key in r.query && |r.query[key]| > 0 then r.query[key][0] else ""
  }

  /** Indexing the path-parameter map: a missing key reads as "". */
  function Param(params: map<string, string>, key: string): string
  {
    if key in params then params[key] else ""
  }

  // ---------------------------------------------------------------------------
  // What a request produces
  // ---------------------------------------------------------------------------

  /** The value a response serialises; Opaque stands for the payloads of handlers not modelled here. */
  datatype Body =
    | NoBody
    | FileBody(file: FileHeader)
    | RecordBody(request: Request)
    | RecordsBody(requests: seq<Request>)
    | ErrorBody(err: Error)
    | Opaque

  datatype Response = Response(status: int, body: Body)

  /** The log lines of the core, without their text formatting. */
  datatype LogEntry =
    | ErrorLine(cause: Error)
    | PanicCaught(value: string)
    | Stacktrace
    | Completed(status: int, verb: string, path: string, remoteAddr: string, elapsed: int)

  /** How a handler exits: returns nil, returns an error, or panics with a value. */
  datatype Exit = Returned(err: Option<Error>) | Panicked(value: string) {
    predicate Ok() { this == Returned(None) }
  }

  /** The runtime panics the core can raise. */
  const NilDereference := "runtime error: invalid memory address"
  const IndexOutOfRange := "runtime error: index out of range"

  /** web.Error's choice of HTTP status for an error. web.Error is not part of this model, so its table is a parameter. */
  type StatusTable = Error -> int

  // ---------------------------------------------------------------------------
  // Per-request state
  // ---------------------------------------------------------------------------

  /** State for each request: when it arrived, the status written, whether it failed. */
  class Values {
    var now: nat
    var statusCode: int
    var error: bool

    /** The record web.go allocates for every request: only Now is set. */
    constructor (now: nat)
      ensures this.now == now && statusCode == 0 && !error
    {
      this.now := now;
      statusCode := 0;
      error := false;
    }
  }

  /** The http.ResponseWriter of one request: every response written to it, in order. */
  class ResponseWriter {
    var written: seq<Response>

    constructor ()
      ensures written == []
    {
      written := [];
    }
  }

  /** The application's *log.Logger: every line printed, in order. */
  class Logger {
    var lines: seq<LogEntry>

    method Printf(entry: LogEntry)
      modifies this
      ensures lines == old(lines) + [entry]
    {
      lines := lines + [entry];
    }
  }

  /** The abstract view of one request's Values, its response writer and the log. */
  datatype State = State(now: nat, statusCode: int, error: bool, written: seq<Response>, log: seq<LogEntry>)

  function Snapshot(v: Values, log: Logger, w: ResponseWriter): State
    reads v, log, w
  {
    State(v.now, v.statusCode, v.error, w.written, log.lines)
  }

  /** The state a request starts in: fresh Values, nothing written yet, the log as it stands. */
  function Fresh(now: nat, log: seq<LogEntry>): (st: State)
    ensures StatusRecorded(st) && !st.error && st.written == []
  {
    State(now, 0, false, [], log)
  }

  /** Values.StatusCode is the status of the last response written, or 0 before any. */
  predicate StatusRecorded(st: State)
  {
    if st.written == [] then st.statusCode == 0
    else st.statusCode == st.written[|st.written| - 1].status
  }

  /**
   * What any stage may do to the state: keep Now, only append responses and
   * log lines, never clear Error, and keep StatusRecorded.
   */
  predicate Grows(before: State, after: State)
  {
    && after.now == before.now
    && before.written <= after.written
    && before.log <= after.log
    && (before.error ==> after.error)
    && (StatusRecorded(before) ==> StatusRecorded(after))
  }

  // ---------------------------------------------------------------------------
  // The Responder (web.Respond, web.RespondError and web.Error are not part of
  // this model: each writes one response and records its status in Values)
  // ---------------------------------------------------------------------------

  /** The state after web.Respond writes one response. */
  function Responded(st: State, body: Body, status: int): (r: State)
    ensures Grows(st, r) && StatusRecorded(r)
    ensures r.written == st.written + [Response(status, body)] && r.log == st.log
  {
    st.(statusCode := status, written := st.written + [Response(status, body)])
  }

  /** The state after web.Error responds to an error with the status its table gives. */
  function ErrorSent(st: State, err: Error, table: StatusTable): (r: State)
    ensures Grows(st, r)
    ensures r.written == st.written + [Response(table(err), ErrorBody(err))] && r.log == st.log
  {
    Responded(st, ErrorBody(err), table(err))
  }

  method Respond(v: Values, log: Logger, w: ResponseWriter, body: Body, status: int)
    modifies v, w
    ensures Snapshot(v, log, w) == Responded(old(Snapshot(v, log, w)), body, status)
  {
    v.statusCode := status;
    w.written := w.written + [Response(status, body)];
  }

  method RespondError(v: Values, log: Logger, w: ResponseWriter, err: Error, status: int)
    modifies v, w
    ensures Snapshot(v, log, w) == Responded(old(Snapshot(v, log, w)), ErrorBody(err), status)
  {
    Respond(v, log, w, ErrorBody(err), status);
  }

  /** web.Error. */
  method SendError(v: Values, log: Logger, w: ResponseWriter, err: Error, table: StatusTable)
    modifies v, w
    ensures Snapshot(v, log, w) == ErrorSent(old(Snapshot(v, log, w)), err, table)
  {
    RespondError(v, log, w, err, table(err));
  }

  // ---------------------------------------------------------------------------
  // Middleware composition
  // ---------------------------------------------------------------------------

  /** A handler: a target wrapped in middleware layers, outermost first. */
  datatype Chain<M, H> = Target(handler: H) | Layer(middleware: M, next: Chain<M, H>)

  /** The middleware a request passes through, from the outside in. */
  function Layers<M, H>(c: Chain<M, H>): seq<M>
  {
    match c
    case Target(_) => []
    case Layer(m, next) => [m] + Layers(next)
  }

  /** The handler a request finally reaches. */
  function Innermost<M, H>(c: Chain<M, H>): H
  {
    match c
    case Target(h) => h
    case Layer(_, next) => Innermost(next)
  }

  /**
   * Wraps a chain in a list of middleware. wrapMiddleware is not part of this
   * model; this nests the list's first element outermost.
   */
  function Wrap<M, H>(c: Chain<M, H>, mw: seq<M>): (r: Chain<M, H>)
    ensures Layers(r) == mw + Layers(c)
    ensures Innermost(r) == Innermost(c)
    decreases |mw|
  {
    if mw == [] then c
    else
      var inner := Wrap(c, mw[1..]);
      assert mw + Layers(c) == [mw[0]] + (mw[1..] + Layers(c));
      Layer(mw[0], inner)
  }

  /** The dispatch target Handle builds: route middleware around the handler, app-wide middleware around that. */
  function Compose<M, H>(app: seq<M>, route: seq<M>, handler: H): (r: Chain<M, H>)
    ensures Layers(r) == app + route
    ensures Innermost(r) == handler
  {
    Wrap(Wrap(Target(handler), route), app)
  }

  /** A chain is determined by its layers and its target. */
  lemma {:induction false} ChainDetermined<M, H>(c: Chain<M, H>, d: Chain<M, H>)
    requires Layers(c) == Layers(d) && Innermost(c) == Innermost(d)
    ensures c == d
  {
    match c
    case Target(_) =>
      assert Layers(d) == [];
    case Layer(m, next) =>
      assert Layers(d) != [];
      assert Layers(d)[1..] == Layers(next);
      ChainDetermined(next, d.next);
  }

  /** Wrapping in route middleware and then app-wide middleware is wrapping once in their concatenation. */
  lemma ComposeIsOneWrap<M, H>(app: seq<M>, route: seq<M>, handler: H)
    ensures Compose(app, route, handler) == Wrap(Target(handler), app + route)
  {
    ChainDetermined(Compose(app, route, handler), Wrap(Target(handler), app + route));
  }

  // ---------------------------------------------------------------------------
  // The App and its router
  // ---------------------------------------------------------------------------

  /** A registered route: the (verb, path) pair and its composed dispatch target. */
  datatype Route<M, H> = Route(verb: string, path: string, target: Chain<M, H>)

  /** The first route registered under (verb, path); httptreemux's pattern matching is not part of this model. */
  function Lookup<M, H>(routes: seq<Route<M, H>>, verb: string, path: string): Option<Chain<M, H>>
  {
    if routes == [] then None
    else if routes[0].verb == verb && routes[0].path == path then Some(routes[0].target)
    else Lookup(routes[1..], verb, path)
  }

  /** A pair registered for the first time is found, with the target it was registered with. */
  lemma {:induction false} LookupFindsNewRoute<M, H>(routes: seq<Route<M, H>>, route: Route<M, H>)
    requires Lookup(routes, route.verb, route.path) == None
    ensures Lookup(routes + [route], route.verb, route.path) == Some(route.target)
  {
    if routes != [] {
      assert (routes + [route])[1..] == routes[1..] + [route];
      LookupFindsNewRoute(routes[1..], route);
    }
  }

  /** Registering a route leaves every other pair's lookup as it was. */
  lemma {:induction false} LookupIgnoresOtherRoutes<M, H>(routes: seq<Route<M, H>>, route: Route<M, H>, verb: string, path: string)
    requires route.verb != verb || route.path != path
    ensures Lookup(routes + [route], verb, path) == Lookup(routes, verb, path)
  {
    if routes != [] {
      assert (routes + [route])[1..] == routes[1..] + [route];
      LookupIgnoresOtherRoutes(routes[1..], route, verb, path);
    }
  }

  class App<M, H> {
    /** The app-wide middleware, as given to New. */
    const mw: seq<M>
    /** The router's table, in registration order. */
    var routes: seq<Route<M, H>>

    /** web.New. */
    constructor (mw: seq<M>)
      ensures this.mw == mw && routes == []
    {
      this.mw := mw;
      routes := [];
    }

    /** Composes once, at registration, and registers the result under exactly (verb, path). */
    method Handle(verb: string, path: string, handler: H, routeMw: seq<M>)
      modifies this
      ensures routes == old(routes) + [Route(verb, path, Compose(mw, routeMw, handler))]
    {
      var target := Compose(mw, routeMw, handler);
      routes := routes + [Route(verb, path, target)];
    }
  }
}
