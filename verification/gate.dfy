/** The request gate of the `/ner` handler: a pure decision on the declared content
    length and the parsed body, taken before any inference work starts. */
module Gate {
  import opened Results

  /** The largest accepted `Content-Length`, one mebibyte. */
  const MaxContentLength: nat := 1048576

  /** The request body as the handler reads it. `JsonObject(text)` is a JSON object,
      with `text` its `"text"` member (`None` when the member is absent or null).
      `NotAnObject` is a body on which `request.json` or `.get` raises: not JSON, a
      JSON value other than an object, or even a JSON object sent without a JSON
      `Content-Type`. */
  datatype Body = JsonObject(text: Option<string>) | NotAnObject

  /** What the gate decides: reject as too large (413), reject for want of text (400),
      fail inside the handler's catch-all (500), or run the pipeline on `text`. */
  datatype Decision = TooLarge | NoText | Internal | Proceed(text: string)

  /** The body's `text` member is present, not null and not the empty string. */
  predicate HasText(body: Body) {
    body.JsonObject? && body.text.Some? && body.text.value != ""
  }

  /** The size check comes first, so an oversized request is refused whatever its body;
      a request of exactly the limit passes it. A missing `Content-Length` makes the
      comparison raise, which the catch-all turns into 500. After the size check a body
      that cannot be read fails the same way, and a missing, null or empty text is
      refused. Only a present, non-empty text reaches the pipeline, unchanged. */
  function Classify(contentLength: Option<nat>, body: Body): (d: Decision)
    ensures d == TooLarge <==> contentLength.Some? && contentLength.value > MaxContentLength
    ensures d == Internal <==>
      contentLength.None? || (contentLength.value <= MaxContentLength && body.NotAnObject?)
    ensures d == NoText <==>
      && contentLength.Some? && contentLength.value <= MaxContentLength
      && body.JsonObject? && !HasText(body)
    ensures d.Proceed? <==>
      contentLength.Some? && contentLength.value <= MaxContentLength && HasText(body)
    ensures d.Proceed? ==> body.text == Some(d.text) && |d.text| > 0
  {
    match contentLength
    case None => Internal
    case Some(length) =>
      if length > MaxContentLength then TooLarge
      else
        match body
        case NotAnObject => Internal
        case JsonObject(text) =>
          if text.None? || text.value == "" then NoText else Proceed(text.value)
  }

  /** At the limit the size check passes: any body with text is let through. */
  lemma BoundaryAccepted(body: Body)
    requires HasText(body)
    ensures Classify(Some(MaxContentLength), body) == Proceed(body.text.value)
    ensures Classify(Some(MaxContentLength + 1), body) == TooLarge
  {
  }
}
