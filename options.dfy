/** The optional and failure values shared by the components: a JavaScript
    `null`/`undefined` becomes `None`, a thrown error or a failed request `Err`. */
module Options {

  datatype Option<+T> = None | Some(value: T) {
    /** The `??` operator: the value when present, otherwise the fallback. */
    function GetOr(fallback: T): T {
      match this
      case Some(v) => v
      case None => fallback
    }
  }

  datatype Result<+T, +E> = Ok(value: T) | Err(error: E)

  /** `a ?? b` on two optional operands. */
  function OrElse<T>(a: Option<T>, b: Option<T>): Option<T> {
    if a.Some? then a else b
  }

  /** `!x` on an optional string: absent or empty. */
  predicate Falsy(s: Option<string>) {
    s.None? || s.value == ""
  }

  /** A rejected request: the server's `message`, and the thrown error's own
      message (absent when what was thrown is not an `Error`). */
  datatype RequestFailure = RequestFailure(responseMessage: Option<string>, errorMessage: Option<string>)

  /** The `onError` toast `response?.data?.message ?? err.message ?? fallback`. */
  function FailureToast(f: RequestFailure, fallback: string): (toast: string)
    ensures f.responseMessage.Some? ==> toast == f.responseMessage.value
    ensures f.responseMessage.None? && f.errorMessage.Some? ==> toast == f.errorMessage.value
    ensures f.responseMessage.None? && f.errorMessage.None? ==> toast == fallback
  {
    f.responseMessage.GetOr(f.errorMessage.GetOr(fallback))
  }

  /** The error every authenticated mutation throws without a session token. */
  const NoToken: string := "No access token. Please login again."
}
