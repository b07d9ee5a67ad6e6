/**
 The boundary every page shares with the remote API: the JSON envelope
 `{ success, data?, error? }` as a page handler sees it once `fetch` and
 `response.json()` have settled. No request is made here; each handler of the
 pages takes the settled `Response` as a parameter.
 */
module Api {

  datatype Option<+T> = None | Some(value: T)

  /** The envelope's `error` field as it arrives: missing, `null`, any other
      primitive (kept as its string rendering), or an object that may carry a
      `message`. */
  datatype ErrorField = Absent | Null | Text(text: string) | Object(message: Option<string>)

  /** One settled request.
      Ok: `success` was true and `data` holds the payload.
      AppErr: `success` was false; the envelope's `error` field is kept.
      NetErr: `fetch` or the JSON parsing threw; `reason` is the exception's `message`. */
  datatype Response<+T> =
    | Ok(data: T)
    | AppErr(error: ErrorField)
    | NetErr(reason: string)

  /** True when `e?.message` is a non-empty string, i.e. truthy in JavaScript. */
  predicate HasMessage(e: ErrorField) {
    e.Object? && e.message.Some? && e.message.value != ""
  }

  /** `s || fallback` for a string `s`: the empty string is falsy. */
  function OrElse(s: string, fallback: string): (m: string)
    ensures m == s || m == fallback
    ensures m == s <==> s != "" || s == fallback
    ensures fallback != "" ==> m != ""
  {
    if s != "" then s else fallback
  }

  /** `data.error?.message || fallback`: the server's message when it sent a
      non-empty one, otherwise the page's fixed fallback text. */
  function ErrorMessageOr(e: ErrorField, fallback: string): (m: string)
    ensures HasMessage(e) ==> m == e.message.value
    ensures !HasMessage(e) ==> m == fallback
    ensures fallback != "" ==> m != ""
  {
    match e
    case Object(Some(msg)) => OrElse(msg, fallback)
    case _ => fallback
  }
}
