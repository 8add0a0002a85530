/** Values shared by every service: JSON values, optional values, the
    `ServerError` failure and the error codes of the services' taxonomy. */
module Common {

  datatype Option<+T> = None | Some(value: T)

  /** A JSON value as it crosses a service boundary. Numbers are kept as
      integers; no member of the core does arithmetic on them. */
  datatype Json =
    | Null
    | Bool(b: bool)
    | Number(n: int)
    | Str(s: string)
    | Arr(items: seq<Json>)
    | Obj(fields: map<string, Json>)

  /** `Record<string, unknown>`: a JSON object's members. */
  type Record = map<string, Json>

  /** What a handler throws. `ServerError` carries one of the codes below, or a
      code copied from a downstream service; `Uncaught` is any other exception
      (a `TypeError` from dereferencing a value that is not there, a failure
      raised inside a foreign library). */
  datatype Failure = ServerError(code: string, message: string) | Uncaught

  datatype Result<+T> = Ok(value: T) | Err(error: Failure)

  const EntityNotFound: string := "entity-not-found"
  const PreconditionFailed: string := "precondition-failed"

  /** True when `part` occurs in `whole` starting at `at`. */
  predicate OccursAt(part: string, whole: string, at: nat)
  {
    at + |part| <= |whole| && whole[at..at + |part|] == part
  }
}
