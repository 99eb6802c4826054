/** JavaScript values as the application code sees them: `null`/`undefined`,
    truthiness of optional strings, `||`, and the settled result of a Redux
    Toolkit async thunk. */
module JsValues {

  /** A value that may be `null` or `undefined` (None) or present (Some). */
  datatype Option<+T> = None | Some(value: T)

  /** Success or failure of a synchronous check that carries a message. */
  datatype Result<+T, +E> = Ok(value: T) | Err(error: E)

  /** JavaScript truthiness of an optional string: present and not "". */
  predicate Truthy(v: Option<string>)
  {
    v.Some? && v.value != ""
  }

  /** JavaScript `a || b` on optional strings. */
  function Or(a: Option<string>, b: Option<string>): Option<string>
  {
    if Truthy(a) then a else b
  }

  /** The action an async thunk settles with: `fulfilled` carrying the value the
      payload creator returned, or `rejected` carrying the value given to
      `rejectWithValue` (an error message that may itself be missing). */
  datatype ThunkResult<+T> = Fulfilled(value: T) | Rejected(payload: Option<string>)

  /** The `error` part of a backend reply: none, or an error whose `message`
      may be missing. */
  datatype BackendReply = Succeeded | Failed(message: Option<string>)
}
