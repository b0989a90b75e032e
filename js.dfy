/** JavaScript values as the route handlers see them: an optional request-body
    field, the truthiness test `!x`, and the error objects that are thrown and
    handed to `next`. */
module Js {

  datatype Option<+T> = None | Some(value: T)

  /** `!x` is false: the field is present and is not the empty string. */
  predicate Truthy(x: Option<string>)
  {
    x.Some? && x.value != ""
  }

  /** Truthiness of an optional numeric field (`err.status`): present and not 0. */
  predicate IntTruthy(x: Option<int>)
  {
    x.Some? && x.value != 0
  }

  /** An error object as far as the handlers inspect it: its `code`, `status`
      and `message` properties, each possibly missing. */
  datatype JsError = JsError(code: Option<string>, status: Option<int>, message: Option<string>)

  /** The object literal `{ status, message }` that a route passes to `next`. */
  function StatusError(status: int, message: string): JsError
  {
    JsError(None, Some(status), Some(message))
  }
}
