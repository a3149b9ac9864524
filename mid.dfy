/**
 * The two middlewares of the core. Each is what the middleware does once the
 * chain it wraps (`next`) has exited; calling `next` is left to
 * Pipeline.Run, which hands the exit to these methods.
 */
module Mid {
  import opened Wrappers
  import opened Errors
  import opened Web

  /** errors.New("unhandled"): a fresh error that is none of the sentinels. */
  const Unhandled := Fundamental(Other("unhandled"))

  /**
   * ErrorHandler after `next` exited with x. A panic is recovered, a returned
   * error is answered; either way exactly one response is written, Error is
   * set, and nil is returned. A successful exit passes through untouched.
   */
  function Recovered(x: Exit, st: State, table: StatusTable): (r: (Exit, State))
    ensures r.0.Ok()
    ensures Grows(st, r.1)
    ensures r.1.error == (st.error || !x.Ok())
    ensures x.Ok() ==> r.1 == st
    ensures |r.1.written| == |st.written| + (if x.Ok() then 0 else 1)
    ensures x.Panicked? ==>
      && r.1.written[|st.written|] == Response(500, ErrorBody(Unhandled))
      && r.1.log == st.log + [PanicCaught(x.value), Stacktrace]
    ensures x.Returned? && x.err.Some? ==>
      var cause := Cause(x.err.value);
      && r.1.written[|st.written|] == Response(table(cause), ErrorBody(cause))
      && r.1.log == st.log + (if cause != Fundamental(WebNotFound) then [ErrorLine(cause)] else [])
  {
    match x
    case Panicked(p) =>
      var flagged := st.(error := true, log := st.log + [PanicCaught(p)]);
      var answered := Responded(flagged, ErrorBody(Unhandled), 500);
      (Returned(None), answered.(log := answered.log + [Stacktrace]))
    case Returned(None) =>
      (x, st)
    case Returned(Some(e)) =>
      var cause := Cause(e);
      var flagged := st.(error := true);
      var logged := if cause != Fundamental(WebNotFound) then flagged.(log := flagged.log + [ErrorLine(cause)]) else flagged;
      (Returned(None), ErrorSent(logged, cause, table))
  }

  /** mid.ErrorHandler, given how `next` exited. */
  method ErrorHandler(x: Exit, v: Values, log: Logger, w: ResponseWriter, table: StatusTable) returns (y: Exit)
    modifies v, log, w
    ensures (y, Snapshot(v, log, w)) == Recovered(x, old(Snapshot(v, log, w)), table)
  {
    match x {
      case Panicked(p) =>
        v.error := true;
        log.Printf(PanicCaught(p));
        RespondError(v, log, w, Unhandled, 500);
        log.Printf(Stacktrace);
        y := Returned(None);
      case Returned(None) =>
        y := x;
      case Returned(Some(e)) =>
        v.error := true;
        var cause := Cause(e);
        if cause != Fundamental(WebNotFound) {
          log.Printf(ErrorLine(cause));
        }
        SendError(v, log, w, cause, table);
        y := Returned(None);
    }
  }

  /**
   * RequestLogger after `next` exited with x, at clock time `clock`. On a
   * normal exit, ok or not, it logs one line with the status Values holds now;
   * a panic unwinds past it unlogged. It returns x unchanged and touches
   * nothing but the log.
   */
  function Logged(x: Exit, st: State, r: HttpRequest, clock: nat): (res: (Exit, State))
    ensures res.0 == x
    ensures res.1.(log := st.log) == st
    ensures x.Returned? ==> res.1.log == st.log + [Completed(st.statusCode, r.verb, r.path, r.remoteAddr, clock - st.now)]
    ensures x.Panicked? ==> res.1.log == st.log
    ensures Grows(st, res.1)
  {
    match x
    case Panicked(_) => (x, st)
    case Returned(_) => (x, st.(log := st.log + [Completed(st.statusCode, r.verb, r.path, r.remoteAddr, clock - st.now)]))
  }

  /** mid.RequestLogger, given how `next` exited. */
  method RequestLogger(x: Exit, r: HttpRequest, clock: nat, v: Values, log: Logger, w: ResponseWriter) returns (y: Exit)
    modifies log
    ensures (y, Snapshot(v, log, w)) == Logged(x, old(Snapshot(v, log, w)), r, clock)
  {
    if x.Returned? {
      log.Printf(Completed(v.statusCode, r.verb, r.path, r.remoteAddr, clock - v.now));
    }
    y := x;
  }
}
