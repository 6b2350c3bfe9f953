/** The part of `callLLM` that turns the upstream inference service's reply
    into the text handed back to the browser. The HTTPS exchange itself is an
    oracle: its outcome is supplied as an `UpstreamResult`. */
module Upstream {
  import opened Wrappers

  /** What `JSON.parse(body)` followed by reading `.response` yields:
      `NotJson` when parsing throws (or the parsed value is null, whose
      property read throws inside the same try block), otherwise `Json` with
      `responseField` set exactly when the `response` property is a string. */
  datatype ParsedBody = NotJson | Json(responseField: Option<string>)

  /** The outcome of one HTTPS request to the upstream: the request's `error`
      event (which rejects the promise with that error's message) or the
      complete response body together with its parse. */
  datatype UpstreamResult =
    | Errored(message: string)
    | Answered(body: string, parsed: ParsedBody)

  /** The body carries a string `response` field. */
  predicate HasStringResponse(parsed: ParsedBody) {
    parsed.Json? && parsed.responseField.Some?
  }

  /** The reply text `callLLM` resolves with. */
  function NormaliseReply(body: string, parsed: ParsedBody): (reply: string)
    ensures HasStringResponse(parsed) ==> reply == parsed.responseField.value
    ensures !HasStringResponse(parsed) ==> reply == body
  {
    match parsed
    case Json(Some(text)) => text
    case _ => body
  }

  /** The whitespace JSON allows around a value: space, tab, LF and CR. */
  predicate IsJsonSpace(c: char) {
    c == ' ' || c == '\t' || c == '\n' || c == '\r'
  }

  /** The body's first character other than JSON whitespace is `{`, as it
      must be for an object, the only parsed value with a `response` property. */
  ghost predicate StartsObject(body: string) {
    exists k :: 0 <= k < |body| && body[k] == '{' && forall i :: 0 <= i < k ==> IsJsonSpace(body[i])
  }

  /** What is known of `JSON.parse` without modelling it: the empty text does
      not parse, and only an object text can carry a string `response`. */
  ghost predicate ParseAgrees(body: string, parsed: ParsedBody) {
    && (body == "" ==> parsed == NotJson)
    && (HasStringResponse(parsed) ==> StartsObject(body))
  }

  /** A body that is not an object text, the empty body and plain text among
      them, is passed on verbatim. */
  lemma NonObjectPassesThrough(body: string, parsed: ParsedBody)
    requires ParseAgrees(body, parsed) && !StartsObject(body)
    ensures NormaliseReply(body, parsed) == body
  {
  }

  /** The empty body in particular. */
  lemma EmptyBodyPassesThrough(parsed: ParsedBody)
    requires ParseAgrees("", parsed)
    ensures NormaliseReply("", parsed) == "" && parsed == NotJson
  {
  }
}
