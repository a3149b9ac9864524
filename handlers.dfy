/**
 * The API handlers: sentinel translation, the optimisation-request handlers,
 * and an abstract stand-in for the health and user handlers.
 *
 * Each handler is a method over the request's Values, response writer and log,
 * proved equal to a function (…Outcome) that gives its exit and new state.
 */
module Handlers {
  import opened Wrappers
  import opened Errors
  import opened Models
  import opened Web
  import OR = OptimisationRequest

  // ---------------------------------------------------------------------------
  // Sentinel translation
  // ---------------------------------------------------------------------------

  /** The user package's sentinels: the only ones translate knows. */
  predicate IsUserSentinel(k: Kind)
  {
    k.UserNotFound? || k.UserInvalidID? || k.UserAuthenticationFailure? || k.UserForbidden?
  }

  /** The web sentinel that stands for each user sentinel. */
  function WebCounterpart(k: Kind): Kind
    requires IsUserSentinel(k)
  {
    match k
    case UserNotFound => WebNotFound
    case UserInvalidID => WebInvalidID
    case UserAuthenticationFailure => WebUnauthorized
    case UserForbidden => WebForbidden
  }

  /**
   * translate: an error whose root cause is a user sentinel becomes the bare
   * web sentinel for it; nil and every other error come back unchanged.
   */
  function Translate(err: Option<Error>): (r: Option<Error>)
    ensures r.Some? <==> err.Some?
    ensures err.Some? && IsUserSentinel(Cause(err.value).kind) ==>
      r == Some(Fundamental(WebCounterpart(Cause(err.value).kind)))
    ensures err.Some? && !IsUserSentinel(Cause(err.value).kind) ==> r == err
    ensures r.Some? ==> !IsUserSentinel(Cause(r.value).kind)
  {
    match err
    case None => None
    case Some(e) =>
      match Cause(e).kind
      case UserNotFound => Some(Fundamental(WebNotFound))
      case UserInvalidID => Some(Fundamental(WebInvalidID))
      case UserAuthenticationFailure => Some(Fundamental(WebUnauthorized))
      case UserForbidden => Some(Fundamental(WebForbidden))
      case _ => err
  }

  /** Translating twice is translating once. */
  lemma TranslateIdempotent(err: Option<Error>)
    ensures Translate(Translate(err)) == Translate(err)
  {
  }

  /** A user sentinel under any number of wrappings is translated as the bare sentinel; other errors keep their wrapping. */
  lemma TranslateSeesThroughWrapping(e: Error, messages: seq<string>)
    ensures IsUserSentinel(Cause(e).kind) ==> Translate(Some(WrapAll(e, messages))) == Translate(Some(e))
    ensures !IsUserSentinel(Cause(e).kind) ==> Translate(Some(WrapAll(e, messages))) == Some(WrapAll(e, messages))
  {
    CauseSeesThroughWrapping(e, messages);
  }

  /** The optimisation-request package's own sentinels are not translated. */
  lemma TranslateKeepsRequestSentinels(e: Error)
    requires Cause(e).kind in {RequestNotFound, RequestInvalidID, RequestAuthenticationFailure, RequestForbidden}
    ensures Translate(Some(e)) == Some(e)
  {
  }

  // ---------------------------------------------------------------------------
  // Handlers not modelled here (health check and user management)
  // ---------------------------------------------------------------------------

  /** What a handler outside this model does: respond once and return nil, return an error, or panic. */
  datatype Behaviour = Responds(status: int) | Fails(err: Error) | Panics(value: string)

  function AbstractOutcome(b: Behaviour, st: State): (r: (Exit, State))
    ensures Grows(st, r.1)
  {
    match b
    case Responds(status) => (Returned(None), Responded(st, Opaque, status))
    case Fails(e) => (Returned(Some(e)), st)
    case Panics(p) => (Panicked(p), st)
  }

  method Abstract(b: Behaviour, v: Values, log: Logger, w: ResponseWriter) returns (x: Exit)
    modifies v, w
    ensures (x, Snapshot(v, log, w)) == AbstractOutcome(b, old(Snapshot(v, log, w)))
  {
    match b {
      case Responds(status) =>
        Respond(v, log, w, Opaque, status);
        x := Returned(None);
      case Fails(e) =>
        x := Returned(Some(e));
      case Panics(p) =>
        x := Panicked(p);
    }
  }

  // ---------------------------------------------------------------------------
  // OptimisationRequest.Create: the file-collection loop
  // ---------------------------------------------------------------------------

  /** The upload kinds Create visits, in this order. */
  const FileTypes: seq<string> := [OR.ProductDataFile, OR.FactoryDataFile]

  /** The inputs collected so far and the request state. */
  datatype Collected = Collected(inputs: seq<NewRequestInput>, st: State)

  /** A *FileHeader as a response body: nil serialises as no value. */
  function FileOrNil(f: Option<FileHeader>): Body
  {
    match f
    case Some(file) => FileBody(file)
    case None => NoBody
  }

  /** One file: a rejected file is answered with 422, an accepted one adds an input. */
  function VisitFile(acc: Collected, fileType: string, file: FileHeader): (r: Collected)
    ensures Grows(acc.st, r.st)
  {
    var checked := OR.Validate(file, fileType);
    if !checked.1 then Collected(acc.inputs, Responded(acc.st, FileOrNil(checked.0), 422))
    else Collected(acc.inputs + [NewRequestInput(fileType, OR.S3Path)], acc.st)
  }

  /** The files of one type, in form order. */
  function VisitFiles(acc: Collected, fileType: string, files: seq<FileHeader>): (r: Collected)
    ensures Grows(acc.st, r.st)
    ensures acc.inputs <= r.inputs
    decreases |files|
  {
    if files == [] then acc
    else VisitFile(VisitFiles(acc, fileType, files[..|files| - 1]), fileType, files[|files| - 1])
  }

  /** Every type in order, each with its files. */
  function VisitTypes(acc: Collected, form: Form, fileTypes: seq<string>): (r: Collected)
    ensures Grows(acc.st, r.st)
    ensures acc.inputs <= r.inputs
    decreases |fileTypes|
  {
    if fileTypes == [] then acc
    else
      var last := fileTypes[|fileTypes| - 1];
      VisitFiles(VisitTypes(acc, form, fileTypes[..|fileTypes| - 1]), last, FilesOf(form, last))
  }

  /** One uploaded input per file of the type, in order. */
  function Uploaded(fileType: string, files: seq<FileHeader>): (r: seq<NewRequestInput>)
    ensures |r| == |files|
    ensures forall i | 0 <= i < |r| :: r[i] == NewRequestInput(fileType, OR.S3Path)
    decreases |files|
  {
    if files == [] then [] else Uploaded(fileType, files[..|files| - 1]) + [NewRequestInput(fileType, OR.S3Path)]
  }

  /** One 422 response per rejected file, in order. */
  function Rejections(files: seq<FileHeader>): (r: seq<Response>)
    ensures |r| == |files|
    ensures forall i | 0 <= i < |r| :: r[i] == Response(422, FileBody(files[i]))
    decreases |files|
  {
    if files == [] then [] else Rejections(files[..|files| - 1]) + [Response(422, FileBody(files[|files| - 1]))]
  }

  /** Product files all pass: each adds one input and nothing is written. */
  lemma {:induction false} VisitProductFiles(acc: Collected, files: seq<FileHeader>)
    ensures VisitFiles(acc, OR.ProductDataFile, files) == Collected(acc.inputs + Uploaded(OR.ProductDataFile, files), acc.st)
    decreases |files|
  {
    if files != [] {
      VisitProductFiles(acc, files[..|files| - 1]);
    }
  }

  /** Factory files all fail: each writes one 422 and adds no input. */
  lemma {:induction false} VisitFactoryFiles(acc: Collected, files: seq<FileHeader>)
    ensures var r := VisitFiles(acc, OR.FactoryDataFile, files);
      && r.inputs == acc.inputs
      && r.st.written == acc.st.written + Rejections(files)
      && r.st.log == acc.st.log && r.st.now == acc.st.now && r.st.error == acc.st.error
      && (files != [] ==> r.st.statusCode == 422)
      && (files == [] ==> r.st == acc.st)
    decreases |files|
  {
    if files != [] {
      VisitFactoryFiles(acc, files[..|files| - 1]);
    }
  }

  /**
   * With the domain rule, the collected inputs are one per product file, and
   * every factory file has been answered with its own 422, in form order.
   */
  lemma CollectUpload(form: Form, st: State)
    ensures var r := VisitTypes(Collected([], st), form, FileTypes);
      && r.inputs == Uploaded(OR.ProductDataFile, FilesOf(form, OR.ProductDataFile))
      && r.st.written == st.written + Rejections(FilesOf(form, OR.FactoryDataFile))
      && r.st.log == st.log && r.st.error == st.error
      && (FilesOf(form, OR.FactoryDataFile) == [] ==> r.st == st)
  {
    var acc := Collected([], st);
    var products := FilesOf(form, OR.ProductDataFile);
    var factories := FilesOf(form, OR.FactoryDataFile);
    assert FileTypes[..1] == [OR.ProductDataFile];
    assert FileTypes[..1][..0] == [];
    VisitProductFiles(acc, products);
    var mid := VisitTypes(acc, form, FileTypes[..1]);
    assert VisitTypes(acc, form, FileTypes[..1][..0]) == acc;
    assert mid == VisitFiles(acc, OR.ProductDataFile, products);
    assert mid == Collected(Uploaded(OR.ProductDataFile, products), st);
    assert VisitTypes(acc, form, FileTypes) == VisitFiles(mid, OR.FactoryDataFile, factories);
    VisitFactoryFiles(mid, factories);
  }

  function HasName(form: Form): bool
  {
    "name" in form.value && |form.value["name"]| > 0
  }

  /** OptimisationRequest.Create as a function of the database outcomes, the request and the state. */
  function CreateOutcome(db: OR.Db, r: HttpRequest, st: State): (res: (Exit, State))
    ensures Grows(st, res.1)
  {
    match r.body
    case Failure(e) => (Returned(Some(Wrapped(e, ""))), st)
    case Success(form) =>
      if !HasName(form) then (Panicked(IndexOutOfRange), st)
      else
        var collected := VisitTypes(Collected([], st), form, FileTypes);
        var created := OR.CreateResult(db, NewRequest(form.value["name"][0], collected.inputs), st.now);
        var err := Translate(created.Err());
        if err.Some? then (Returned(Some(Wrapped(err.value, "Request"))), collected.st)
        else (Returned(None), Responded(collected.st, RecordBody(created.value), 201))
  }

  /** The inner loop of Create: the files of one type, in form order. */
  method CollectFiles(fileType: string, files: seq<FileHeader>, inputs: seq<NewRequestInput>, v: Values, log: Logger, w: ResponseWriter)
    returns (requestInput: seq<NewRequestInput>)
    modifies v, w
    ensures Collected(requestInput, Snapshot(v, log, w)) == VisitFiles(Collected(inputs, old(Snapshot(v, log, w))), fileType, files)
  {
    ghost var before := Collected(inputs, Snapshot(v, log, w));
    requestInput := inputs;
    var j := 0;
    while j < |files|
      invariant 0 <= j <= |files|
      invariant Collected(requestInput, Snapshot(v, log, w)) == VisitFiles(before, fileType, files[..j])
    {
      var file := files[j];
      var checked := OR.Validate(file, fileType);
      if !checked.1 {
        Respond(v, log, w, FileOrNil(checked.0), 422);
      } else {
        requestInput := requestInput + [NewRequestInput(fileType, OR.S3Path)];
      }
      assert files[..j + 1][..j] == files[..j];
      j := j + 1;
    }
    assert files[..j] == files;
  }

  /** The outer loop of Create: every file type in order. */
  method CollectTypes(form: Form, fileTypes: seq<string>, v: Values, log: Logger, w: ResponseWriter)
    returns (requestInput: seq<NewRequestInput>)
    modifies v, w
    ensures Collected(requestInput, Snapshot(v, log, w)) == VisitTypes(Collected([], old(Snapshot(v, log, w))), form, fileTypes)
  {
    ghost var start := Collected([], Snapshot(v, log, w));
    requestInput := [];
    var i := 0;
    while i < |fileTypes|
      invariant 0 <= i <= |fileTypes|
      invariant Collected(requestInput, Snapshot(v, log, w)) == VisitTypes(start, form, fileTypes[..i])
    {
      requestInput := CollectFiles(fileTypes[i], FilesOf(form, fileTypes[i]), requestInput, v, log, w);
      assert fileTypes[..i + 1][..i] == fileTypes[..i];
      assert VisitTypes(start, form, fileTypes[..i + 1]) ==
        VisitFiles(VisitTypes(start, form, fileTypes[..i]), fileTypes[i], FilesOf(form, fileTypes[i]));
      i := i + 1;
    }
    assert fileTypes[..i] == fileTypes;
  }

  method Create(db: OR.Db, r: HttpRequest, v: Values, log: Logger, w: ResponseWriter) returns (x: Exit)
    modifies v, w
    ensures (x, Snapshot(v, log, w)) == CreateOutcome(db, r, old(Snapshot(v, log, w)))
  {
    var form: Form;
    match r.body {
      case Failure(e) =>
        return Returned(Some(Wrapped(e, "")));
      case Success(f) =>
        form := f;
    }
    if !HasName(form) {
      return Panicked(IndexOutOfRange);
    }
    var name := form.value["name"][0];
    var requestInput := CollectTypes(form, FileTypes, v, log, w);
    var created := OR.Create(db, NewRequest(name, requestInput), v.now);
    var err := Translate(created.Err());
    if err.Some? {
      return Returned(Some(Wrapped(err.value, "Request")));
    }
    Respond(v, log, w, RecordBody(created.value), 201);
    x := Returned(None);
  }

  // ---------------------------------------------------------------------------
  // OptimisationRequest.Validate, List and Retrieve
  // ---------------------------------------------------------------------------

  /**
   * Validate reads r.MultipartForm without parsing the body: nil there panics.
   * No file of the requested type is a validation error; otherwise a rejected
   * file is answered with 422, and 204 is written in every case.
   */
  function ValidateOutcome(r: HttpRequest, st: State): (res: (Exit, State))
    ensures Grows(st, res.1)
  {
    var fileType := QueryValue(r, "type");
    match r.multipartForm
    case None => (Panicked(NilDereference), st)
    case Some(form) =>
      var files := FilesOf(form, fileType);
      if |files| == 0 then (Returned(Some(Fundamental(WebValidation))), st)
      else
        var checked := OR.Validate(files[0], fileType);
        var rejected := if !checked.1 then Responded(st, FileOrNil(checked.0), 422) else st;
        (Returned(None), Responded(rejected, NoBody, 204))
  }

  method Validate(r: HttpRequest, v: Values, log: Logger, w: ResponseWriter) returns (x: Exit)
    modifies v, w
    ensures (x, Snapshot(v, log, w)) == ValidateOutcome(r, old(Snapshot(v, log, w)))
  {
    var fileType := QueryValue(r, "type");
    if r.multipartForm.None? {
      return Panicked(NilDereference);
    }
    var files := FilesOf(r.multipartForm.value, fileType);
    if |files| == 0 {
      return Returned(Some(Fundamental(WebValidation)));
    }
    var checked := OR.Validate(files[0], fileType);
    if !checked.1 {
      Respond(v, log, w, FileOrNil(checked.0), 422);
    }
    Respond(v, log, w, NoBody, 204);
    x := Returned(None);
  }

  function ListOutcome(db: OR.Db, st: State): (res: (Exit, State))
    ensures Grows(st, res.1)
  {
    var listed := OR.List(db);
    var err := Translate(listed.Err());
    if err.Some? then (Returned(Some(Wrapped(err.value, ""))), st)
    else (Returned(None), Responded(st, RecordsBody(listed.value), 200))
  }

  method List(db: OR.Db, v: Values, log: Logger, w: ResponseWriter) returns (x: Exit)
    modifies v, w
    ensures (x, Snapshot(v, log, w)) == ListOutcome(db, old(Snapshot(v, log, w)))
  {
    var listed := OR.List(db);
    var err := Translate(listed.Err());
    if err.Some? {
      return Returned(Some(Wrapped(err.value, "")));
    }
    Respond(v, log, w, RecordsBody(listed.value), 200);
    x := Returned(None);
  }

  function RetrieveOutcome(db: OR.Db, params: map<string, string>, st: State): (res: (Exit, State))
    ensures Grows(st, res.1)
  {
    var id := Param(params, "id");
    var found := OR.Retrieve(db, id);
    var err := Translate(found.Err());
    if err.Some? then (Returned(Some(Wrapped(err.value, "Id: " + id))), st)
    else (Returned(None), Responded(st, RecordBody(found.value), 200))
  }

  method Retrieve(db: OR.Db, params: map<string, string>, v: Values, log: Logger, w: ResponseWriter) returns (x: Exit)
    modifies v, w
    ensures (x, Snapshot(v, log, w)) == RetrieveOutcome(db, params, old(Snapshot(v, log, w)))
  {
    var id := Param(params, "id");
    var found := OR.Retrieve(db, id);
    var err := Translate(found.Err());
    if err.Some? {
      return Returned(Some(Wrapped(err.value, "Id: " + id)));
    }
    Respond(v, log, w, RecordBody(found.value), 200);
    x := Returned(None);
  }
}
