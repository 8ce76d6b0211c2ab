/** `ApiError` and the mapping of any thrown value to the body a route returns (src/lib/errors.ts). */
module Errors {
  import opened Wrappers

  /** An `ApiError`: a message, an HTTP status and an optional machine-readable code. */
  datatype ApiError = ApiError(message: string, status: int, code: Option<string>)

  /** What a route can catch: an `ApiError`, or anything else that was thrown
      (a validation error, a `TypeError`, a network error), with its `message` when it is an `Error`. */
  datatype Failure = Api(err: ApiError) | Thrown(message: Option<string>)

  /** The JSON body of a failed response. */
  datatype PublicError = PublicError(message: string, status: int, code: Option<string>)

  const UnexpectedMessage: string := "Error inesperado"

  /** `new ApiError(message, status?, code?)`: the status defaults to 500, the code to undefined. */
  function NewApiError(message: string, status: Option<int>, code: Option<string>): (e: ApiError)
    ensures e.message == message && e.code == code
    ensures status.None? ==> e.status == 500
    ensures status.Some? ==> e.status == status.value
  {
    ApiError(message, status.GetOr(500), code)
  }

  /** `toPublicError`: an `ApiError` passes through unchanged, anything else becomes a generic 500. */
  function ToPublicError(f: Failure): (p: PublicError)
    ensures f.Api? ==> p.message == f.err.message && p.status == f.err.status && p.code == f.err.code
    ensures f.Thrown? ==> p == PublicError(UnexpectedMessage, 500, None)
  {
    match f
    case Api(e) => PublicError(e.message, e.status, e.code)
    case Thrown(_) => PublicError(UnexpectedMessage, 500, None)
  }

  /** A public error built from an `ApiError` keeps every field: the error can be read back from it. */
  lemma PublicErrorKeepsApiError(e: ApiError)
    ensures var p := ToPublicError(Api(e)); ApiError(p.message, p.status, p.code) == e
  {
  }

  /** Nothing of a non-`ApiError` failure reaches the client: two such failures look the same. */
  lemma ThrownIsOpaque(m1: Option<string>, m2: Option<string>)
    ensures ToPublicError(Thrown(m1)) == ToPublicError(Thrown(m2))
    ensures ToPublicError(Thrown(m1)).code.None?
  {
  }

  /** `error instanceof Error ? error.message : fallback`, used by the routes that answer `{error}`. */
  function ErrorMessageOr(f: Failure, fallback: string): (m: string)
    ensures f.Api? ==> m == f.err.message
    ensures f.Thrown? && f.message.Some? ==> m == f.message.value
    ensures f.Thrown? && f.message.None? ==> m == fallback
  {
    match f
    case Api(e) => e.message
    case Thrown(msg) => msg.GetOr(fallback)
  }
}
