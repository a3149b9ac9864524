/** The optimisation-request records as stored and as submitted. */
module Models {

  /** bson.ObjectId; its byte layout is not part of this model. */
  type ObjectId = string

  /** A stored optimisation request; DateCreated is in nanoseconds since Go's zero time. */
  datatype Request = Request(id: ObjectId, name: string, input: seq<RequestInput>, dateCreated: nat)

  datatype RequestInput = RequestInput(fileType: string, location: string)

  /** What a client submits to create a request. */
  datatype NewRequest = NewRequest(name: string, input: seq<NewRequestInput>)

  datatype NewRequestInput = NewRequestInput(fileType: string, location: string)
}
