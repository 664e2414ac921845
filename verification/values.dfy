/** JavaScript-level values shared by every view of the front end: optional values
    (`null`/`undefined` versus a value), the scalars a form field can hold, and the
    replies of the HTTP data-access boundary, which are inputs to this model. */
module Values {

  /** `None` stands for JavaScript `null`/`undefined`; `Some(v)` for a present value. */
  datatype Option<+T> = None | Some(value: T) {

    /** The value, or the given default when absent. */
    function GetOr(default: T): T {
      match this
      case Some(v) => v
      case None => default
    }
  }

  /** A value held by a form field: a string (what every input element delivers),
      an integral number (what `parseInt` or the server yields), or `NaN`. */
  datatype Scalar = Str(s: string) | Num(n: int) | NaN

  /** JavaScript truthiness of a scalar: `''`, `0` and `NaN` are falsy. */
  predicate Truthy(v: Scalar) {
    match v
    case Str(s) => s != ""
    case Num(n) => n != 0
    case NaN => false
  }

  /** Truthiness of a nullable string. */
  predicate Present(s: Option<string>) {
    s.Some? && s.value != ""
  }

  /** `s || ''` on a nullable string: null, undefined and `''` all become `''`. */
  function OrEmpty(s: Option<string>): (r: string)
    ensures r == "" <==> !Present(s)
    ensures Present(s) ==> r == s.value
  {
    if Present(s) then s.value else ""
  }

  /** `s || null` on a string: a blank string becomes `null`. */
  function OrNull(s: string): (r: Option<string>)
    ensures r.None? <==> s == ""
    ensures r.Some? ==> r.value == s
  {
    if s == "" then None else Some(s)
  }

  /** The rejection of a boundary call; `detail` is `err.response?.data?.detail`. */
  datatype ApiError = ApiError(detail: Option<string>)

  /** What an awaited boundary call produced: a value or a rejection. */
  datatype Reply<+T> = Ok(value: T) | Failed(error: ApiError)

  /** `err.response?.data?.detail || fallback`: the message the views show for a
      failed call. */
  function ErrorText(e: ApiError, fallback: string): (r: string)
    ensures Present(e.detail) ==> r == e.detail.value
    ensures !Present(e.detail) ==> r == fallback
    ensures fallback != "" ==> r != ""
  {
    if Present(e.detail) then e.detail.value else fallback
  }
}
