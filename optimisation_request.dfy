/**
 * The optimisation-request domain: the file-type rule, record construction,
 * and the error mapping around the database calls. The database (mgo/bson)
 * is not part of this model: each call's outcome is given in a Db value.
 */
module OptimisationRequest {
  import opened Wrappers
  import opened Errors
  import opened Models
  import opened Web

  /**
   * The two upload kinds. internal/constants is not part of this model: these
   * are placeholder values, and only their being different matters.
   */
  const ProductDataFile: string := "PRODUCT_DATA_FILE"
  const FactoryDataFile: string := "FACTORY_DATA_FILE"

  /** time.Millisecond, in nanoseconds. */
  const Millisecond: nat := 1_000_000

  /** Where a validated upload is recorded as stored (the S3 upload itself is commented out in the handler). */
  const S3Path := "s3-path"

  /**
   * The outcomes of the database calls one request makes: whether an id is an
   * ObjectId hex string, the id NewObjectId hands out, and what Insert,
   * Find(nil).All and Find(q).One return.
   */
  datatype Db = Db(
    isObjectIdHex: string -> bool,
    newObjectId: ObjectId,
    insert: Option<Error>,
    findAll: Result<seq<Request>, Error>,
    findOne: Result<Request, Error>)

  /**
   * Validate: a factory-data file is rejected and handed back; every other
   * file type is accepted, with nil in place of the file.
   */
  function Validate(file: FileHeader, fileType: string): (r: (Option<FileHeader>, bool))
    ensures r.1 <==> fileType != FactoryDataFile
    ensures r.1 ==> r.0 == None
    ensures !r.1 ==> r.0 == Some(file)
  {
    if fileType == FactoryDataFile then (Some(file), false) else (None, true)
  }

  /** time.Time.Truncate(time.Millisecond): round down to a whole millisecond. */
  function Truncate(t: nat): (r: nat)
    ensures r <= t < r + Millisecond
    ensures r % Millisecond == 0
  {
    t - t % Millisecond
  }

  /** The stored form of each submitted input, same count, same order. */
  function ToRequestInputs(inputs: seq<NewRequestInput>): (out: seq<RequestInput>)
    ensures |out| == |inputs|
    ensures forall i | 0 <= i < |inputs| :: out[i].fileType == inputs[i].fileType && out[i].location == inputs[i].location
    decreases |inputs|
  {
    if inputs == [] then []
    else
      var last := inputs[|inputs| - 1];
      ToRequestInputs(inputs[..|inputs| - 1]) + [RequestInput(last.fileType, last.location)]
  }

  /** The record Create builds, and its outcome once the insert has run. */
  function CreateResult(db: Db, n: NewRequest, now: nat): (r: Result<Request, Error>)
    ensures r.Success? <==> db.insert.None?
    ensures r.Success? ==> r.value.id == db.newObjectId && r.value.name == n.name && r.value.dateCreated == Truncate(now)
    ensures r.Success? ==> r.value.input == ToRequestInputs(n.input)
    ensures r.Failure? ==> Cause(r.error) == Cause(db.insert.value) && r.error != db.insert.value
  {
    match db.insert
    case Some(e) => Failure(Wrapped(e, "db.requests.insert"))
    case None => Success(Request(db.newObjectId, n.name, ToRequestInputs(n.input), Truncate(now)))
  }

  /** Create: build the record input by input, then insert it. */
  method Create(db: Db, n: NewRequest, now: nat) returns (r: Result<Request, Error>)
    ensures r == CreateResult(db, n, now)
    ensures r.Success? ==> |r.value.input| == |n.input|
    ensures r.Success? ==> forall i | 0 <= i < |n.input| :: r.value.input[i] == RequestInput(n.input[i].fileType, n.input[i].location)
  {
    var truncated := Truncate(now);
    var requestInput: seq<RequestInput> := [];
    var i := 0;
    while i < |n.input|
      invariant 0 <= i <= |n.input|
      invariant requestInput == ToRequestInputs(n.input[..i])
    {
      requestInput := requestInput + [RequestInput(n.input[i].fileType, n.input[i].location)];
      assert n.input[..i + 1][..i] == n.input[..i];
      i := i + 1;
    }
    assert n.input[..i] == n.input;
    var request := Request(db.newObjectId, n.name, requestInput, truncated);
    match db.insert {
      case Some(e) =>
        r := Failure(Wrapped(e, "db.requests.insert"));
      case None =>
        r := Success(request);
    }
  }

  /** List: every stored request, or the database error wrapped. */
  function List(db: Db): (r: Result<seq<Request>, Error>)
    ensures r.Success? <==> db.findAll.Success?
    ensures r.Success? ==> r.value == db.findAll.value
    ensures r.Failure? ==> Cause(r.error) == Cause(db.findAll.error) && r.error != db.findAll.error
  {
    match db.findAll
    case Failure(e) => Failure(Wrapped(e, "db.requests.find()"))
    case Success(requests) => Success(requests)
  }

  /**
   * Retrieve: an id that is not an ObjectId hex string is ErrInvalidID before
   * the database is asked; the driver's not-found becomes ErrNotFound; any
   * other database error is wrapped; otherwise the record found.
   */
  function Retrieve(db: Db, id: string): (r: Result<Request, Error>)
    ensures !db.isObjectIdHex(id) ==> r == Failure(Fundamental(RequestInvalidID))
    ensures db.isObjectIdHex(id) && db.findOne == Failure(Fundamental(MgoNotFound)) ==> r == Failure(Fundamental(RequestNotFound))
    ensures db.isObjectIdHex(id) && db.findOne.Failure? && db.findOne.error != Fundamental(MgoNotFound) ==>
      r.Failure? && Cause(r.error) == Cause(db.findOne.error) && r.error != db.findOne.error
    ensures db.isObjectIdHex(id) && db.findOne.Success? ==> r == db.findOne
  {
    if !db.isObjectIdHex(id) then Failure(Fundamental(RequestInvalidID))
    else
      match db.findOne
      case Failure(e) =>
        if e == Fundamental(MgoNotFound) then Failure(Fundamental(RequestNotFound))
        else Failure(Wrapped(e, "db.requests.find"))
      case Success(request) => Success(request)
  }
}
