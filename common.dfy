/** Values shared by every page: optional JSON fields, API outcomes and JavaScript truthiness. */
module Common {

  /** A JSON field that may be absent (`undefined` or `null`). */
  datatype Option<T> = None | Some(value: T)

  /** What an awaited API call throws: `err.data?.detail` and `err.message`. */
  datatype ApiError = ApiError(detail: Option<string>, message: Option<string>)

  /** The settled outcome of an awaited API call: the value it resolved to, or the error it threw. */
  datatype ApiResult<T> = Ok(value: T) | Fail(error: ApiError)

  /** JavaScript truthiness of an optional string: absent and "" are falsy. */
  predicate Truthy(s: Option<string>)
  {
    s.Some? && s.value != ""
  }

  /** `a || b` on optional strings. */
  function Or(a: Option<string>, b: Option<string>): Option<string>
  {
    if Truthy(a) then a else b
  }

  /** `a || fallback` where the fallback is a string literal. */
  function OrElse(a: Option<string>, fallback: string): string
  {
    if Truthy(a) then a.value else fallback
  }

  /** `Math.max(0, x)` */
  function Max0(x: int): nat
  {
    if x < 0 then 0 else x
  }

  /** `x || []` on a list the API may return as `null`. */
  function OrEmpty<T>(x: Option<seq<T>>): seq<T>
  {
    if x.Some? then x.value else []
  }
}
