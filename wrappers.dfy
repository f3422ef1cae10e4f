/** Option and Result, the model's stand-ins for `null`/`undefined` and for thrown errors. */
module Wrappers {

  datatype Option<+T> = None | Some(value: T)

  datatype Result<+T, +E> = Ok(value: T) | Err(error: E)

  /** An error object as the backend client reports it: a PostgREST code and a message. */
  datatype DbError = DbError(code: string, message: string)

  /** What an async call rejects with: the backend's error object as is, or `new Error(message)`. */
  datatype Thrown = DbThrown(error: DbError) | ErrorThrown(message: string)

  /** `error.message` of what was thrown. */
  function ErrorMessage(t: Thrown): string {
    match t
    case DbThrown(e) => e.message
    case ErrorThrown(m) => m
  }
}
