/** One request end to end: the gate, then sentence splitting, tokenisation, the model
    forward pass, label decoding and token normalisation. The sentence splitter, the
    tokenizer and the model are library code, so they enter as the functions of a
    `Context` fixed at start-up; any of the three that raises returns `None`. */
module Service {
  import opened Results
  import opened Predictions
  import opened Decoder
  import opened Normalizer
  import opened Gate

  /** The read-only collaborators of every request. `split` is the sentence splitter;
      `encode` gives each sentence's padded, truncated row of sub-word token strings;
      `infer` gives the label index the model scores highest at every position of every
      row; `id2label` is the model configuration's index-to-label table. */
  datatype Context = Context(
    split: string -> Option<seq<string>>,
    encode: seq<string> -> Option<seq<seq<string>>>,
    infer: seq<seq<string>> -> Option<seq<seq<nat>>>,
    id2label: map<nat, string>)

  /** The JSON object the handler answers with: the normalised predictions, one row per
      sentence, or an `error_code` with its message (`None` for the text of whatever
      exception the catch-all caught). */
  datatype Reply =
    | Answer(predictions: seq<seq<LabeledToken>>)
    | ErrorReply(code: nat, message: Option<string>)

  const TooLargeMessage: string := "Payload to large: Text size exceeds limit (1MB)"
  const NoTextMessage: string := "Bad Request: No text provided"

  /** Why the pipeline raised: the sentence splitter, the tokenizer, the model, or the decoder. */
  datatype PipelineError = SplitterFailed | TokenizerFailed | ModelFailed | DecodeFailed(error: DecodeError)

  /** What the libraries produce for `text`: its sentences, their token rows and the
      prediction rows, or the first library failure, in the order `tokenize_data` and the
      forward pass call them. The splitter is called once for tokenisation and once for
      decoding; being the same function of the same text, both calls give the same result,
      so the first call is the one that can raise. */
  function Batches(ctx: Context, text: string)
    : (r: Result<(seq<string>, seq<seq<string>>, seq<seq<nat>>), PipelineError>)
    ensures r.Ok? <==>
      && ctx.split(text).Some?
      && ctx.encode(ctx.split(text).value).Some?
      && ctx.infer(ctx.encode(ctx.split(text).value).value).Some?
    ensures r.Ok? ==>
      && r.value.0 == ctx.split(text).value
      && r.value.1 == ctx.encode(r.value.0).value
      && r.value.2 == ctx.infer(r.value.1).value
    ensures ctx.split(text).None? ==> r == Err(SplitterFailed)
    ensures ctx.split(text).Some? && ctx.encode(ctx.split(text).value).None? ==>
      r == Err(TokenizerFailed)
    ensures (&& ctx.split(text).Some?
             && ctx.encode(ctx.split(text).value).Some?
             && ctx.infer(ctx.encode(ctx.split(text).value).value).None?) ==>
      r == Err(ModelFailed)
  {
    match ctx.split(text)
    case None => Err(SplitterFailed)
    case Some(sentences) =>
      match ctx.encode(sentences)
      case None => Err(TokenizerFailed)
      case Some(tokenRows) =>
        match ctx.infer(tokenRows)
        case None => Err(ModelFailed)
        case Some(predRows) => Ok((sentences, tokenRows, predRows))
  }

  /** `get_predictions` followed by `remove_g_char`. It succeeds exactly when the three
      libraries return and every sentence's row decodes; the result then has one row per
      sentence, every word normalised and every entity a label of the model. */
  function Pipeline(ctx: Context, text: string): (r: Result<seq<seq<LabeledToken>>, PipelineError>)
    ensures r.Ok? <==>
      && Batches(ctx, text).Ok?
      && var (sentences, tokenRows, predRows) := Batches(ctx, text).value;
         BatchResolvable(|sentences|, tokenRows, predRows, ctx.id2label)
    ensures r.Ok? ==>
      && |r.value| == |ctx.split(text).value|
      && IsNormalized(r.value)
      && forall i, k :: 0 <= i < |r.value| && 0 <= k < |r.value[i]| ==> r.value[i][k].entity in ctx.id2label.Values
  {
    match Batches(ctx, text)
    case Err(e) => Err(e)
    case Ok((sentences, tokenRows, predRows)) =>
      match Decode(sentences, tokenRows, predRows, ctx.id2label)
      case Err(e) => Err(DecodeFailed(e))
      case Ok(rows) =>
        assert forall i, k :: 0 <= i < |rows| && 0 <= k < |rows[i]| ==> rows[i][k].entity in ctx.id2label.Values by {
          forall i, k | 0 <= i < |rows| && 0 <= k < |rows[i]|
            ensures rows[i][k].entity in ctx.id2label.Values
          {
            assert DecodeRow(i, tokenRows[i], predRows[i], ctx.id2label) == Ok(rows[i]);
          }
        }
        Ok(Normalize(rows))
  }

  /** Record `k` of sentence `i` of a successful pipeline is the `k`-th kept token of
      token row `i`, normalised, with the label of the prediction at that token's own
      position; the row holds one record per kept token and nothing else. */
  lemma {:induction false} PipelineAlignment(ctx: Context, text: string, i: nat)
    requires Pipeline(ctx, text).Ok?
    requires i < |ctx.split(text).value|
    ensures var (_, tokenRows, predRows) := Batches(ctx, text).value;
      var row := Pipeline(ctx, text).value[i];
      var ps := ContentPositions(tokenRows[i]);
      && |row| == |ps|
      && forall k :: 0 <= k < |ps| ==>
          && !FailsAt(tokenRows[i], predRows[i], ctx.id2label, ps[k])
          && row[k] == LabeledToken(NormalizeWord(tokenRows[i][ps[k]]), ctx.id2label[predRows[i][ps[k]]])
  {
    var (sentences, tokenRows, predRows) := Batches(ctx, text).value;
    var decoded := Decode(sentences, tokenRows, predRows, ctx.id2label);
    assert DecodeRow(i, tokenRows[i], predRows[i], ctx.id2label) == Ok(decoded.value[i]);
  }

  /** The `/ner` handler. An oversized request gets 413 and no predictions whatever its
      body; an empty or missing text gets 400; predictions are returned only for a
      non-empty text within the size limit, and they are exactly the pipeline's output:
      one row per sentence of that text, every word normalised. A missing length, an
      unreadable body or a pipeline that raises gets 500. */
  function Handle(ctx: Context, contentLength: Option<nat>, body: Body): (r: Reply)
    ensures r.ErrorReply? ==> r.code in {400, 413, 500}
    ensures r == ErrorReply(413, Some(TooLargeMessage)) <==>
      contentLength.Some? && contentLength.value > MaxContentLength
    ensures r == ErrorReply(400, Some(NoTextMessage)) <==>
      && contentLength.Some? && contentLength.value <= MaxContentLength
      && body.JsonObject? && !HasText(body)
    ensures r.Answer? <==>
      && contentLength.Some? && contentLength.value <= MaxContentLength
      && HasText(body) && Pipeline(ctx, body.text.value).Ok?
    ensures r == ErrorReply(500, None) <==>
      || contentLength.None?
      || (contentLength.value <= MaxContentLength
          && (body.NotAnObject? || (HasText(body) && Pipeline(ctx, body.text.value).Err?)))
    ensures r.Answer? ==>
      && r.predictions == Pipeline(ctx, body.text.value).value
      && |r.predictions| == |ctx.split(body.text.value).value|
      && IsNormalized(r.predictions)
      && forall i, k :: 0 <= i < |r.predictions| && 0 <= k < |r.predictions[i]| ==>
          r.predictions[i][k].entity in ctx.id2label.Values
  {
    match Classify(contentLength, body)
    case TooLarge => ErrorReply(413, Some(TooLargeMessage))
    case NoText => ErrorReply(400, Some(NoTextMessage))
    case Internal => ErrorReply(500, None)
    case Proceed(text) =>
      match Pipeline(ctx, text)
      case Ok(rows) => Answer(rows)
      case Err(_) => ErrorReply(500, None)
  }
}
