/**
 * Error values as github.com/pkg/errors builds them: a fundamental error
 * (a package sentinel, the driver's not-found error, or any other message)
 * under zero or more layers of added context.
 */
module Errors {

  /** The fundamental errors the core compares against, by declaring package. */
  datatype Kind =
    // internal/user (only its sentinels are part of this model)
    | UserNotFound | UserInvalidID | UserAuthenticationFailure | UserForbidden
    // internal/optimisationRequest
    | RequestNotFound | RequestInvalidID | RequestAuthenticationFailure | RequestForbidden
    // internal/platform/web
    | WebNotFound | WebInvalidID | WebUnauthorized | WebForbidden | WebValidation
    // gopkg.in/mgo.v2
    | MgoNotFound
    // any other error, such as errors.New("unhandled") or a form-parsing failure
    | Other(message: string)

  datatype Error = Fundamental(kind: Kind) | Wrapped(inner: Error, message: string)

  /** errors.Cause: strip every layer of added context down to the fundamental error. */
  function Cause(e: Error): (root: Error)
    ensures root.Fundamental?
    ensures e.Fundamental? ==> root == e
  {
    match e
    case Fundamental(_) => e
    case Wrapped(inner, _) => Cause(inner)
  }

  /** errors.Wrap applied once per message, the first message innermost. */
  function WrapAll(e: Error, messages: seq<string>): Error
    decreases |messages|
  {
    if messages == [] then e
    else Wrapped(WrapAll(e, messages[..|messages| - 1]), messages[|messages| - 1])
  }

  /** However many layers of context are added, the root cause stays the same. */
  lemma {:induction false} CauseSeesThroughWrapping(e: Error, messages: seq<string>)
    ensures Cause(WrapAll(e, messages)) == Cause(e)
    decreases |messages|
  {
    if messages != [] {
      CauseSeesThroughWrapping(e, messages[..|messages| - 1]);
    }
  }
}
