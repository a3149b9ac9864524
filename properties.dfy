/**
 * What a request to the API does end to end: the guarantees the app-wide
 * middleware gives every route, and the behaviour of the individual
 * optimisation-request routes as seen by the client and in the log.
 */
module Properties {
  import opened Wrappers
  import opened Errors
  import opened Models
  import opened Web
  import opened Pipeline
  import opened Routes
  import OR = OptimisationRequest
  import Mid
  import H = Handlers

  /** Values.StatusCode as RequestLogger should see it: the status of the last response written, 0 before any. */
  function LastStatus(written: seq<Response>): int
  {
    if written == [] then 0 else written[|written| - 1].status
  }

  /**
   * The status line the client receives. net/http sends the status of the
   * first WriteHeader and ignores later ones, while each web.Respond call is
   * recorded in `written` and in Values.StatusCode; 0 when nothing was written.
   */
  function WireStatus(written: seq<Response>): int
  {
    if written == [] then 0 else written[0].status
  }

  /** The chain a route of the table runs: its own middleware around its handler. */
  function RouteChain(h: Endpoint): Handler
  {
    Wrap(Target(h), RouteMiddleware(h))
  }

  /** Wrapping in the app-wide middleware puts RequestLogger outermost and ErrorHandler innermost of the three. */
  lemma AppWrapShape(inner: Handler)
    ensures Wrap(inner, AppMiddleware) == Layer(RequestLogger, Layer(Metrics, Layer(ErrorHandler, inner)))
  {
    assert AppMiddleware[1..] == [Metrics, ErrorHandler];
    assert AppMiddleware[1..][1..] == [ErrorHandler];
    assert AppMiddleware[1..][1..][1..] == [];
  }

  /** Every route of the table is its route chain behind the app-wide middleware. */
  lemma TableTarget(i: nat)
    requires i < |Table()|
    ensures Table()[i].target == Wrap(RouteChain(Innermost(Table()[i].target)), AppMiddleware)
  {
  }

  /**
   * Behind the app-wide middleware, whatever the inner chain does: the closure
   * gets nil back, so web.Error's fallback never runs; ErrorHandler writes one
   * response exactly when the inner chain did not return nil, and sets Error
   * then and only then; the log keeps its old lines and ends with the
   * RequestLogger line, whose status is that of the last web.Respond call (0
   * if none) and whose latency is the clock at logging minus Now.
   */
  lemma Shielded(inner: Handler, env: Env, r: HttpRequest, log: seq<LogEntry>)
    ensures var inside := Exec(inner, env, r, Fresh(env.start, log));
      var res := Serve(Wrap(inner, AppMiddleware), env, r, log);
      && res.0 == Returned(None)
      && |res.1.written| == |inside.1.written| + (if inside.0.Ok() then 0 else 1)
      && inside.1.written <= res.1.written
      && res.1.error == (inside.1.error || !inside.0.Ok())
      && log < res.1.log
      && res.1.log[|res.1.log| - 1] == Completed(LastStatus(res.1.written), r.verb, r.path, r.remoteAddr, env.clock - env.start)
  {
    var start := Fresh(env.start, log);
    var inside := Exec(inner, env, r, start);
    var guarded := Mid.Recovered(inside.0, inside.1, env.table);
    BehindApp(inner, env, r, log);
    assert Grows(start, guarded.1);
  }

  /** Behind the app-wide middleware, the closure's outcome is RequestLogger's over ErrorHandler's over the inner chain's. */
  lemma BehindApp(inner: Handler, env: Env, r: HttpRequest, log: seq<LogEntry>)
    ensures var inside := Exec(inner, env, r, Fresh(env.start, log));
      var guarded := Mid.Recovered(inside.0, inside.1, env.table);
      Serve(Wrap(inner, AppMiddleware), env, r, log) == Mid.Logged(guarded.0, guarded.1, r, env.clock)
  {
    var start := Fresh(env.start, log);
    var inside := Exec(inner, env, r, start);
    AppWrapShape(inner);
    var guarded := Exec(Layer(ErrorHandler, inner), env, r, start);
    assert guarded == Mid.Recovered(inside.0, inside.1, env.table);
    assert Exec(Layer(Metrics, Layer(ErrorHandler, inner)), env, r, start) == guarded;
    var logged := Exec(Wrap(inner, AppMiddleware), env, r, start);
    assert logged == Mid.Logged(guarded.0, guarded.1, r, env.clock);
    assert logged.0 == Returned(None);
  }

  /**
   * Behind the app-wide middleware, an inner chain that returns an error
   * without touching the state gets one response with the error's root
   * cause; the error is logged unless that cause is web.ErrNotFound, and the
   * request line carries the response's status.
   */
  lemma FailsBehindApp(inner: Handler, env: Env, r: HttpRequest, log: seq<LogEntry>, e: Error)
    requires Exec(inner, env, r, Fresh(env.start, log)) == (Returned(Some(e)), Fresh(env.start, log))
    ensures var res := Serve(Wrap(inner, AppMiddleware), env, r, log);
      && res.1.written == [Response(env.table(Cause(e)), ErrorBody(Cause(e)))]
      && (Cause(e) == Fundamental(WebNotFound) ==> res.1.log == log + [Completed(env.table(Cause(e)), r.verb, r.path, r.remoteAddr, env.clock - env.start)])
      && (Cause(e) != Fundamental(WebNotFound) ==> res.1.log == log + [ErrorLine(Cause(e)), Completed(env.table(Cause(e)), r.verb, r.path, r.remoteAddr, env.clock - env.start)])
  {
    BehindApp(inner, env, r, log);
    AnsweredAndLogged(e, Fresh(env.start, log), env, r);
  }

  /**
   * Behind the app-wide middleware, what the client is sent: the inner
   * chain's responses, plus ErrorHandler's answer with the root cause when
   * the inner chain returned an error.
   */
  lemma AnswerBehindApp(inner: Handler, env: Env, r: HttpRequest, log: seq<LogEntry>)
    ensures var inside := Exec(inner, env, r, Fresh(env.start, log));
      var res := Serve(Wrap(inner, AppMiddleware), env, r, log);
      && (inside.0.Ok() ==> res.1.written == inside.1.written)
      && (inside.0.Returned? && inside.0.err.Some? ==>
            var cause := Cause(inside.0.err.value);
            res.1.written == inside.1.written + [Response(env.table(cause), ErrorBody(cause))])
  {
    var inside := Exec(inner, env, r, Fresh(env.start, log));
    BehindApp(inner, env, r, log);
    if inside.0.Returned? && inside.0.err.Some? {
      AnsweredAndLogged(inside.0.err.value, inside.1, env, r);
    }
  }

  /** ErrorHandler then RequestLogger, when next returned an error: one answer, the error line unless not-found, the request line. */
  lemma AnsweredAndLogged(e: Error, st: State, env: Env, r: HttpRequest)
    ensures var guarded := Mid.Recovered(Returned(Some(e)), st, env.table);
      var res := Mid.Logged(guarded.0, guarded.1, r, env.clock);
      var cause := Cause(e);
      && res.1.written == st.written + [Response(env.table(cause), ErrorBody(cause))]
      && res.1.log == st.log + (if cause != Fundamental(WebNotFound) then [ErrorLine(cause)] else [])
                             + [Completed(env.table(cause), r.verb, r.path, r.remoteAddr, env.clock - st.now)]
  {
  }

  /** The route middleware either rejects before the handler runs or hands over to it. */
  lemma RouteChainExec(h: Endpoint, env: Env, r: HttpRequest, st: State)
    ensures Exec(RouteChain(h), env, r, st) ==
      if RouteMiddleware(h) == [] || env.auth.None? then Handled(h, env, r, st)
      else (Returned(env.auth), st)
  {
    if RouteMiddleware(h) != [] {
      assert RouteMiddleware(h)[1..] == [];
    }
  }

  /**
   * Every handler other than Validate and Create writes exactly one response
   * when it returns nil and none otherwise, and so does its route chain.
   */
  lemma RouteAnswersOnce(h: Endpoint, env: Env, r: HttpRequest, st: State)
    requires h != RequestsValidate && h != RequestsCreate
    ensures var res := Exec(RouteChain(h), env, r, st);
      |res.1.written| == |st.written| + (if res.0.Ok() then 1 else 0)
  {
    RouteChainExec(h, env, r, st);
  }

  /**
   * Behind the app-wide middleware, the route chain of every handler other
   * than Validate and Create answers each request with exactly one response,
   * and the request's log line carries that response's status.
   */
  lemma ChainAnswersOnce(h: Endpoint, env: Env, r: HttpRequest, log: seq<LogEntry>)
    requires h != RequestsValidate && h != RequestsCreate
    ensures var res := Serve(Wrap(RouteChain(h), AppMiddleware), env, r, log);
      && log < res.1.log
      && |res.1.written| == 1
      && res.1.log[|res.1.log| - 1] == Completed(res.1.written[0].status, r.verb, r.path, r.remoteAddr, env.clock - env.start)
  {
    var start := Fresh(env.start, log);
    RouteAnswersOnce(h, env, r, start);
    Shielded(RouteChain(h), env, r, log);
    RouteChainExec(h, env, r, start);
  }

  /**
   * Through the router, every route other than validate and create answers
   * each request with exactly one response, and the request's log line
   * carries that response's status.
   */
  lemma ApiAnswersOnce(i: nat, env: Env, r: HttpRequest, log: seq<LogEntry>)
    requires i < |Table()|
    requires Innermost(Table()[i].target) != RequestsValidate && Innermost(Table()[i].target) != RequestsCreate
    ensures var res := Serve(Table()[i].target, env, r, log);
      && log < res.1.log
      && |res.1.written| == 1
      && res.1.log[|res.1.log| - 1] == Completed(res.1.written[0].status, r.verb, r.path, r.remoteAddr, env.clock - env.start)
  {
    TableTarget(i);
    ChainAnswersOnce(Innermost(Table()[i].target), env, r, log);
  }

  /** Every route of the table is shielded: nil reaches the closure and the request is logged last. */
  lemma ApiLogsEveryRequest(i: nat, env: Env, r: HttpRequest, log: seq<LogEntry>)
    requires i < |Table()|
    ensures var res := Serve(Table()[i].target, env, r, log);
      && res.0 == Returned(None)
      && log < res.1.log
      && res.1.log[|res.1.log| - 1] == Completed(LastStatus(res.1.written), r.verb, r.path, r.remoteAddr, env.clock - env.start)
  {
    TableTarget(i);
    Shielded(RouteChain(Innermost(Table()[i].target)), env, r, log);
  }

  // ---------------------------------------------------------------------------
  // The optimisation-request routes
  // ---------------------------------------------------------------------------

  /** What the validate route runs. */
  const ValidateRoute: Handler := Wrap(Target(RequestsValidate), AppMiddleware)
  /** What the create route runs. */
  const CreateRoute: Handler := Wrap(Target(RequestsCreate), AppMiddleware)
  /** What the retrieve route runs. */
  const RetrieveRoute: Handler := Wrap(Target(RequestsRetrieve), AppMiddleware)

  lemma RoutesFound()
    ensures Lookup(Table(), "GET", "/v1/validate") == Some(ValidateRoute)
    ensures Lookup(Table(), "POST", "/v1/optimisation-requests") == Some(CreateRoute)
    ensures Lookup(Table(), "GET", "/v1/optimisation-requests/:id") == Some(RetrieveRoute)
  {
    TablePairsDistinct();
    LookupFindsEveryRoute(Table(), 7);
    LookupFindsEveryRoute(Table(), 8);
    LookupFindsEveryRoute(Table(), 10);
  }

  /**
   * Validate does not parse the body, so without a parsed multipart form it
   * panics; ErrorHandler recovers and answers 500 once, and the log holds the
   * panic, the stack and the request line with status 500.
   */
  lemma ValidateWithoutForm(env: Env, r: HttpRequest, log: seq<LogEntry>)
    requires r.multipartForm.None?
    ensures var res := Serve(ValidateRoute, env, r, log);
      && res.1.written == [Response(500, ErrorBody(Mid.Unhandled))]
      && res.1.error
      && res.1.log == log + [PanicCaught(NilDereference), Stacktrace, Completed(500, r.verb, r.path, r.remoteAddr, env.clock - env.start)]
  {
    Shielded(Target(RequestsValidate), env, r, log);
  }

  /**
   * Nothing on the validate route parses the body, so r.MultipartForm is
   * always nil there as net/http delivers the request: every request the
   * router hands to this route takes the panic path, and the client gets 500.
   */
  lemma ValidateAsDelivered(env: Env, r: HttpRequest, log: seq<LogEntry>)
    requires r.multipartForm.None?
    ensures Lookup(Table(), "GET", "/v1/validate") == Some(ValidateRoute)
    ensures var res := Serve(ValidateRoute, env, r, log);
      && res.0 == Returned(None)
      && WireStatus(res.1.written) == 500
      && res.1.log[|res.1.log| - 1] == Completed(500, r.verb, r.path, r.remoteAddr, env.clock - env.start)
  {
    RoutesFound();
    ValidateWithoutForm(env, r, log);
    Shielded(Target(RequestsValidate), env, r, log);
  }

  /**
   * Given a parsed form, a factory-data file makes the handler call
   * web.Respond twice: 422 with the file, then 204. The client receives the
   * 422, while Values.StatusCode and the request line say 204.
   */
  lemma ValidateRejectsFactoryFile(env: Env, r: HttpRequest, log: seq<LogEntry>, form: Form)
    requires r.multipartForm == Some(form)
    requires QueryValue(r, "type") == OR.FactoryDataFile && FilesOf(form, OR.FactoryDataFile) != []
    ensures var res := Serve(ValidateRoute, env, r, log);
      && res.1.written == [Response(422, FileBody(FilesOf(form, OR.FactoryDataFile)[0])), Response(204, NoBody)]
      && !res.1.error
      && res.1.log == log + [Completed(204, r.verb, r.path, r.remoteAddr, env.clock - env.start)]
      && WireStatus(res.1.written) == 422
  {
    Shielded(Target(RequestsValidate), env, r, log);
  }

  /** Given a parsed form, any other file type with at least one file is answered with 204 alone. */
  lemma ValidateAcceptsOtherFile(env: Env, r: HttpRequest, log: seq<LogEntry>, form: Form)
    requires r.multipartForm == Some(form)
    requires QueryValue(r, "type") != OR.FactoryDataFile && FilesOf(form, QueryValue(r, "type")) != []
    ensures var res := Serve(ValidateRoute, env, r, log);
      && res.1.written == [Response(204, NoBody)]
      && res.1.log == log + [Completed(204, r.verb, r.path, r.remoteAddr, env.clock - env.start)]
  {
    Shielded(Target(RequestsValidate), env, r, log);
  }

  /** Given a parsed form, no file of the requested type is ErrValidation: logged, and answered with its status. */
  lemma ValidateWithoutFile(env: Env, r: HttpRequest, log: seq<LogEntry>, form: Form)
    requires r.multipartForm == Some(form) && FilesOf(form, QueryValue(r, "type")) == []
    ensures var res := Serve(ValidateRoute, env, r, log);
      var err := Fundamental(WebValidation);
      && res.1.written == [Response(env.table(err), ErrorBody(err))]
      && res.1.log == log + [ErrorLine(err), Completed(env.table(err), r.verb, r.path, r.remoteAddr, env.clock - env.start)]
  {
    Shielded(Target(RequestsValidate), env, r, log);
  }

  /**
   * The Create handler with a parsed form that has a name: every factory-data
   * file is answered with its own 422, in form order; then, if the insert
   * succeeds, a 201 with the record, whose inputs are one stored product file
   * each and whose creation time is Now to the millisecond; if it fails, the
   * insert error comes back wrapped, with nothing more written.
   */
  lemma CreateHandler(db: OR.Db, r: HttpRequest, st: State, form: Form)
    requires r.body == Success(form) && H.HasName(form)
    ensures var res := H.CreateOutcome(db, r, st);
      var rejected := H.Rejections(FilesOf(form, OR.FactoryDataFile));
      var inputs := H.Uploaded(OR.ProductDataFile, FilesOf(form, OR.ProductDataFile));
      var record := Request(db.newObjectId, form.value["name"][0], OR.ToRequestInputs(inputs), OR.Truncate(st.now));
      && res.1.log == st.log
      && (db.insert.None? ==> res.0.Ok() && res.1.written == st.written + rejected + [Response(201, RecordBody(record))])
      && (db.insert.Some? ==>
            && res.0.Returned? && res.0.err.Some?
            && Cause(res.0.err.value) == Cause(H.Translate(Some(db.insert.value)).value)
            && res.1.written == st.written + rejected)
  {
    H.CollectUpload(form, st);
    if db.insert.Some? {
      var e := db.insert.value;
      H.TranslateSeesThroughWrapping(e, ["db.requests.insert"]);
      assert WrapAll(e, ["db.requests.insert"]) == Wrapped(e, "db.requests.insert") by {
        assert ["db.requests.insert"][..0] == [];
      }
    }
  }

  /** A body that does not parse is returned as the error, wrapped, before anything is written. */
  lemma CreateParseError(db: OR.Db, r: HttpRequest, st: State, e: Error)
    requires r.body == Failure(e)
    ensures var res := H.CreateOutcome(db, r, st);
      && res.1 == st
      && res.0.Returned? && res.0.err.Some? && Cause(res.0.err.value) == Cause(e)
  {
  }

  /**
   * The List handler: on success one 200 with every stored request; on a
   * database failure the translated error, wrapped, with nothing written.
   */
  lemma ListHandler(db: OR.Db, st: State)
    ensures var res := H.ListOutcome(db, st);
      && (db.findAll.Success? ==> res.0.Ok() && res.1.written == st.written + [Response(200, RecordsBody(db.findAll.value))])
      && (db.findAll.Failure? ==>
            && res.1 == st && res.0.Returned? && res.0.err.Some?
            && Cause(res.0.err.value) == Cause(H.Translate(Some(db.findAll.error)).value))
  {
    if db.findAll.Failure? {
      var e := db.findAll.error;
      H.TranslateSeesThroughWrapping(e, ["db.requests.find()"]);
      assert WrapAll(e, ["db.requests.find()"]) == Wrapped(e, "db.requests.find()") by {
        assert ["db.requests.find()"][..0] == [];
      }
    }
  }

  /**
   * The Retrieve handler: on success one 200 with the record found; otherwise
   * the translated error, wrapped with the id, with nothing written.
   */
  lemma RetrieveHandler(db: OR.Db, params: map<string, string>, st: State)
    ensures var found := OR.Retrieve(db, Param(params, "id"));
      var res := H.RetrieveOutcome(db, params, st);
      && (found.Success? ==> res.0.Ok() && res.1.written == st.written + [Response(200, RecordBody(found.value))])
      && (found.Failure? ==>
            && res.1 == st && res.0.Returned? && res.0.err.Some?
            && Cause(res.0.err.value) == Cause(H.Translate(Some(found.error)).value))
  {
  }

  /**
   * The create route: the handler's web.Respond calls, and on an insert
   * failure whose cause translate does not map, ErrorHandler's answer with
   * that cause.
   */
  lemma CreateAnswersEachFactoryFile(env: Env, r: HttpRequest, log: seq<LogEntry>, form: Form)
    requires r.body == Success(form) && H.HasName(form)
    ensures var res := Serve(CreateRoute, env, r, log);
      var rejected := H.Rejections(FilesOf(form, OR.FactoryDataFile));
      var inputs := H.Uploaded(OR.ProductDataFile, FilesOf(form, OR.ProductDataFile));
      var record := Request(env.db.newObjectId, form.value["name"][0], OR.ToRequestInputs(inputs), OR.Truncate(env.start));
      && (env.db.insert.None? ==> res.1.written == rejected + [Response(201, RecordBody(record))])
      && (env.db.insert.Some? && !H.IsUserSentinel(Cause(env.db.insert.value).kind) ==>
            var cause := Cause(env.db.insert.value);
            res.1.written == rejected + [Response(env.table(cause), ErrorBody(cause))])
  {
    if env.db.insert.None? {
      CreateRouteSucceeds(env, r, log, form);
    } else if !H.IsUserSentinel(Cause(env.db.insert.value).kind) {
      CreateRouteFails(env, r, log, form);
    }
  }

  /** The create route when the insert succeeds: the 422s, then the 201 with the record. */
  lemma CreateRouteSucceeds(env: Env, r: HttpRequest, log: seq<LogEntry>, form: Form)
    requires r.body == Success(form) && H.HasName(form) && env.db.insert.None?
    ensures var res := Serve(CreateRoute, env, r, log);
      var inputs := H.Uploaded(OR.ProductDataFile, FilesOf(form, OR.ProductDataFile));
      var record := Request(env.db.newObjectId, form.value["name"][0], OR.ToRequestInputs(inputs), OR.Truncate(env.start));
      res.1.written == H.Rejections(FilesOf(form, OR.FactoryDataFile)) + [Response(201, RecordBody(record))]
  {
    var start := Fresh(env.start, log);
    CreateHandler(env.db, r, start, form);
    CreateTarget(env, r, start);
    AnswerBehindApp(Target(RequestsCreate), env, r, log);
  }

  /** The create route when the insert fails with a cause translate does not map: the 422s, then ErrorHandler's answer. */
  lemma CreateRouteFails(env: Env, r: HttpRequest, log: seq<LogEntry>, form: Form)
    requires r.body == Success(form) && H.HasName(form)
    requires env.db.insert.Some? && !H.IsUserSentinel(Cause(env.db.insert.value).kind)
    ensures var res := Serve(CreateRoute, env, r, log);
      var cause := Cause(env.db.insert.value);
      res.1.written == H.Rejections(FilesOf(form, OR.FactoryDataFile)) + [Response(env.table(cause), ErrorBody(cause))]
  {
    var start := Fresh(env.start, log);
    CreateHandler(env.db, r, start, form);
    CreateTarget(env, r, start);
    AnswerBehindApp(Target(RequestsCreate), env, r, log);
  }

  /** The create route's target is the Create handler. */
  lemma CreateTarget(env: Env, r: HttpRequest, st: State)
    ensures Exec(Target(RequestsCreate), env, r, st) == H.CreateOutcome(env.db, r, st)
  {
  }

  /**
   * A create with at least one factory-data file and a successful insert:
   * the first web.Respond is a 422, so that is the status the client
   * receives, while the request line records the 201.
   */
  lemma CreateSendsFirstRejection(env: Env, r: HttpRequest, log: seq<LogEntry>, form: Form)
    requires r.body == Success(form) && H.HasName(form)
    requires env.db.insert.None? && FilesOf(form, OR.FactoryDataFile) != []
    ensures var res := Serve(CreateRoute, env, r, log);
      && WireStatus(res.1.written) == 422
      && res.1.log[|res.1.log| - 1] == Completed(201, r.verb, r.path, r.remoteAddr, env.clock - env.start)
  {
    var files := FilesOf(form, OR.FactoryDataFile);
    CreateAnswersEachFactoryFile(env, r, log, form);
    Shielded(Target(RequestsCreate), env, r, log);
    assert H.Rejections(files)[0] == Response(422, FileBody(files[0]));
  }

  /** A form without a name panics on indexing; ErrorHandler answers 500 once. */
  lemma CreateWithoutName(env: Env, r: HttpRequest, log: seq<LogEntry>, form: Form)
    requires r.body == Success(form) && !H.HasName(form)
    ensures var res := Serve(CreateRoute, env, r, log);
      && res.1.written == [Response(500, ErrorBody(Mid.Unhandled))]
      && res.1.log == log + [PanicCaught(IndexOutOfRange), Stacktrace, Completed(500, r.verb, r.path, r.remoteAddr, env.clock - env.start)]
  {
    Shielded(Target(RequestsCreate), env, r, log);
  }

  /**
   * Retrieve of a well-formed id the database does not hold: ErrNotFound of
   * the optimisation-request package is not one translate maps, so it reaches
   * ErrorHandler as itself, is logged as an error, and is answered with the
   * status web.Error gives it.
   */
  lemma RetrieveMissing(env: Env, r: HttpRequest, log: seq<LogEntry>)
    requires env.db.isObjectIdHex(Param(env.params, "id"))
    requires env.db.findOne == Failure(Fundamental(MgoNotFound))
    ensures var res := Serve(RetrieveRoute, env, r, log);
      var err := Fundamental(RequestNotFound);
      && res.1.written == [Response(env.table(err), ErrorBody(err))]
      && res.1.log == log + [ErrorLine(err), Completed(env.table(err), r.verb, r.path, r.remoteAddr, env.clock - env.start)]
  {
    Shielded(Target(RequestsRetrieve), env, r, log);
    var id := Param(env.params, "id");
    assert Cause(Wrapped(Fundamental(RequestNotFound), "Id: " + id)) == Fundamental(RequestNotFound);
  }

  /** Retrieve of an id that is not an ObjectId: ErrInvalidID, without asking the database. */
  lemma RetrieveInvalidId(env: Env, r: HttpRequest, log: seq<LogEntry>)
    requires !env.db.isObjectIdHex(Param(env.params, "id"))
    ensures var res := Serve(RetrieveRoute, env, r, log);
      var err := Fundamental(RequestInvalidID);
      && res.1.written == [Response(env.table(err), ErrorBody(err))]
      && res.1.log == log + [ErrorLine(err), Completed(env.table(err), r.verb, r.path, r.remoteAddr, env.clock - env.start)]
  {
    Shielded(Target(RequestsRetrieve), env, r, log);
    var id := Param(env.params, "id");
    assert Cause(Wrapped(Fundamental(RequestInvalidID), "Id: " + id)) == Fundamental(RequestInvalidID);
  }

  // ---------------------------------------------------------------------------
  // ErrorHandler's logging rule, through the router
  // ---------------------------------------------------------------------------

  /**
   * Behind the app-wide middleware and no authentication, a handler error
   * whose root cause is web.ErrNotFound is answered but not logged as an
   * error; any other root cause is logged once.
   */
  lemma QuietChain(h: Endpoint, env: Env, r: HttpRequest, log: seq<LogEntry>, e: Error)
    requires h == HealthCheck || h == UsersToken
    requires env.behaviour == H.Fails(e)
    ensures var res := Serve(Wrap(RouteChain(h), AppMiddleware), env, r, log);
      && res.1.written == [Response(env.table(Cause(e)), ErrorBody(Cause(e)))]
      && (Cause(e) == Fundamental(WebNotFound) ==> res.1.log == log + [Completed(env.table(Cause(e)), r.verb, r.path, r.remoteAddr, env.clock - env.start)])
      && (Cause(e) != Fundamental(WebNotFound) ==> res.1.log == log + [ErrorLine(Cause(e)), Completed(env.table(Cause(e)), r.verb, r.path, r.remoteAddr, env.clock - env.start)])
  {
    var start := Fresh(env.start, log);
    RouteChainExec(h, env, r, start);
    FailsBehindApp(RouteChain(h), env, r, log, e);
  }

  /** The same rule through the router, on the two routes without authentication whose handlers are not modelled here. */
  lemma OnlyNotFoundIsQuiet(i: nat, env: Env, r: HttpRequest, log: seq<LogEntry>, e: Error)
    requires i < |Table()|
    requires Innermost(Table()[i].target) in {HealthCheck, UsersToken}
    requires env.behaviour == H.Fails(e)
    ensures var res := Serve(Table()[i].target, env, r, log);
      && res.1.written == [Response(env.table(Cause(e)), ErrorBody(Cause(e)))]
      && (Cause(e) == Fundamental(WebNotFound) ==> res.1.log == log + [Completed(env.table(Cause(e)), r.verb, r.path, r.remoteAddr, env.clock - env.start)])
      && (Cause(e) != Fundamental(WebNotFound) ==> res.1.log == log + [ErrorLine(Cause(e)), Completed(env.table(Cause(e)), r.verb, r.path, r.remoteAddr, env.clock - env.start)])
  {
    TableTarget(i);
    QuietChain(Innermost(Table()[i].target), env, r, log, e);
  }

  /**
   * On the user routes, a request Authenticate rejects never reaches the
   * handler: whatever the handler would have done, the one response is the
   * rejection's.
   */
  lemma RejectedBeforeHandler(i: nat, env: Env, r: HttpRequest, log: seq<LogEntry>, e: Error)
    requires i < |Table()|
    requires RouteMiddleware(Innermost(Table()[i].target)) != []
    requires env.auth == Some(e)
    ensures var res := Serve(Table()[i].target, env, r, log);
      res.1.written == [Response(env.table(Cause(e)), ErrorBody(Cause(e)))]
  {
    TableTarget(i);
    RejectedChain(Innermost(Table()[i].target), env, r, log, e);
  }

  /** Behind the app-wide middleware, a request Authenticate rejects gets the rejection as its one response. */
  lemma RejectedChain(h: Endpoint, env: Env, r: HttpRequest, log: seq<LogEntry>, e: Error)
    requires RouteMiddleware(h) != []
    requires env.auth == Some(e)
    ensures var res := Serve(Wrap(RouteChain(h), AppMiddleware), env, r, log);
      res.1.written == [Response(env.table(Cause(e)), ErrorBody(Cause(e)))]
  {
    var start := Fresh(env.start, log);
    RouteChainExec(h, env, r, start);
    FailsBehindApp(RouteChain(h), env, r, log, e);
  }
}
