/**
 * What a composed handler does to one request. Exec is the specification:
 * the exit and the new state a chain produces from a state. Run is the
 * interpreter that runs a chain over the request's objects, proved equal to
 * Exec. Serve and Dispatch are the per-request closure that Handle registers.
 */
module Pipeline {
  import opened Wrappers
  import opened Errors
  import opened Web
  import OR = OptimisationRequest
  import Mid
  import H = Handlers

  /** The middleware the application uses. */
  datatype Middleware = RequestLogger | Metrics | ErrorHandler | Authenticate

  /** The handlers the application registers. */
  datatype Endpoint =
    | HealthCheck
    | UsersList | UsersCreate | UsersRetrieve | UsersUpdate | UsersDelete | UsersToken
    | RequestsValidate | RequestsCreate | RequestsList | RequestsRetrieve

  type Handler = Chain<Middleware, Endpoint>

  /**
   * Everything about one request that lies outside the code modelled here:
   * the clock when the request arrives and when RequestLogger reads it,
   * web.Error's status table, whether mid.Auth rejects the request (and with
   * what error), how a health or user handler behaves, the database outcomes,
   * and the path parameters the router extracted.
   */
  datatype Env = Env(
    start: nat,
    clock: nat,
    table: StatusTable,
    auth: Option<Error>,
    behaviour: H.Behaviour,
    db: OR.Db,
    params: map<string, string>)

  /** What the target handler does. */
  function Handled(h: Endpoint, env: Env, r: HttpRequest, st: State): (res: (Exit, State))
    ensures Grows(st, res.1)
  {
    match h
    case RequestsValidate => H.ValidateOutcome(r, st)
    case RequestsCreate => H.CreateOutcome(env.db, r, st)
    case RequestsList => H.ListOutcome(env.db, st)
    case RequestsRetrieve => H.RetrieveOutcome(env.db, env.params, st)
    case _ => H.AbstractOutcome(env.behaviour, st)
  }

  /**
   * What a chain does, from the outside in. mid.Auth and mid.Metrics are not
   * part of this model: Authenticate either rejects with the error env.auth
   * holds, without calling next, or calls next; Metrics calls next and
   * passes its exit through.
   */
  function Exec(c: Handler, env: Env, r: HttpRequest, st: State): (res: (Exit, State))
    ensures Grows(st, res.1)
    decreases c
  {
    match c
    case Target(h) => Handled(h, env, r, st)
    case Layer(m, next) =>
      match m
      case Authenticate =>
        if env.auth.Some? then (Returned(env.auth), st) else Exec(next, env, r, st)
      case Metrics =>
        Exec(next, env, r, st)
      case ErrorHandler =>
        var inner := Exec(next, env, r, st);
        Mid.Recovered(inner.0, inner.1, env.table)
      case RequestLogger =>
        var inner := Exec(next, env, r, st);
        Mid.Logged(inner.0, inner.1, r, env.clock)
  }

  method Run(c: Handler, env: Env, r: HttpRequest, v: Values, log: Logger, w: ResponseWriter) returns (x: Exit)
    modifies v, log, w
    ensures (x, Snapshot(v, log, w)) == Exec(c, env, r, old(Snapshot(v, log, w)))
    decreases c
  {
    match c {
      case Target(h) =>
        match h {
          case RequestsValidate => x := H.Validate(r, v, log, w);
          case RequestsCreate => x := H.Create(env.db, r, v, log, w);
          case RequestsList => x := H.List(env.db, v, log, w);
          case RequestsRetrieve => x := H.Retrieve(env.db, env.params, v, log, w);
          case _ => x := H.Abstract(env.behaviour, v, log, w);
        }
      case Layer(m, next) =>
        match m {
          case Authenticate =>
            if env.auth.Some? {
              x := Returned(env.auth);
            } else {
              x := Run(next, env, r, v, log, w);
            }
          case Metrics =>
            x := Run(next, env, r, v, log, w);
          case ErrorHandler =>
            var inner := Run(next, env, r, v, log, w);
            x := Mid.ErrorHandler(inner, v, log, w, env.table);
          case RequestLogger =>
            var inner := Run(next, env, r, v, log, w);
            x := Mid.RequestLogger(inner, r, env.clock, v, log, w);
        }
    }
  }

  /**
   * The per-request closure: fresh Values with Now set, the chain called
   * once, and web.Error as a fallback when the chain still returns an error.
   * The closure itself returns nothing; a panic the chain lets out escapes it.
   * When the chain returns an error, the fallback writes exactly one more
   * response, web.Error's answer to that error, and logs nothing; otherwise
   * the closure's outcome is the chain's own.
   */
  function Serve(c: Handler, env: Env, r: HttpRequest, log: seq<LogEntry>): (res: (Exit, State))
    ensures !(res.0.Returned? && res.0.err.Some?)
    ensures res.0.Panicked? <==> Exec(c, env, r, Fresh(env.start, log)).0.Panicked?
    ensures Grows(Fresh(env.start, log), res.1)
    ensures var s := Exec(c, env, r, Fresh(env.start, log));
      s.0.Returned? && s.0.err.Some? ==>
        && |res.1.written| == |s.1.written| + 1
        && res.1.written[|s.1.written|] == Response(env.table(s.0.err.value), ErrorBody(s.0.err.value))
        && res.1.log == s.1.log
        && Grows(s.1, res.1)
        && res.1.error == s.1.error
        && res.0 == Returned(None)
    ensures var s := Exec(c, env, r, Fresh(env.start, log));
      !(s.0.Returned? && s.0.err.Some?) ==> res == s
  {
    var served := Exec(c, env, r, Fresh(env.start, log));
    match served.0
    case Returned(Some(e)) => (Returned(None), ErrorSent(served.1, e, env.table))
    case _ => served
  }

  method Dispatch(c: Handler, env: Env, r: HttpRequest, log: Logger) returns (x: Exit, v: Values, w: ResponseWriter)
    modifies log
    ensures fresh(v) && fresh(w)
    ensures (x, Snapshot(v, log, w)) == Serve(c, env, r, old(log.lines))
  {
    v := new Values(env.start);
    w := new ResponseWriter();
    x := Run(c, env, r, v, log, w);
    if x.Returned? && x.err.Some? {
      SendError(v, log, w, x.err.value, env.table);
      x := Returned(None);
    }
  }
}
