# SecureBERT-NER inference service, modelled in Dafny

The service answers `POST /ner` with named-entity labels for a text. The text is
split into sentences, and the sentences are tokenised into padded rows of sub-word
tokens. A token-classification model picks one label index per token position. The
pure part around those libraries is what this project models and proves things about:

- **the label decoder** (`get_predictions`). It walks each sentence's token row in
  position order and skips the structural tokens `<s>`, `</s>` and `<pad>`. Every
  other token becomes a `{word, entity}` record, where the entity is `id2label` of the
  label index predicted at that token's own position.
- **the token normaliser** (`remove_g_char`). It turns every `Ġ` (U+0120) in a word
  into a space and strips surrounding whitespace.
- **the request gate** of the handler: 413 above 1048576 bytes, 400 for a missing
  or empty text, otherwise the pipeline runs.
- **the handler** that composes the three, with every failure of the splitter, the
  tokenizer, the model or the decoder mapped to 500.

The sentence splitter, the tokenizer and the model are the functions of a `Context`
value: `split`, `encode` and `infer`. Each returns `None` when its library raises.
`id2label` is a finite map.

Files:
- `results.dfy`: the `Option` and `Result` datatypes.
- `text.dfy`: Python's `str.replace` for one character and `str.strip()`, with the
  exact `str.isspace` character set.
- `decoder.dfy`: the `LabeledToken` record and the label decoder. Each way the Python
  loop can raise is a `DecodeError`: a missing row, a missing prediction, or a label
  index that `id2label` does not hold.
- `normalizer.dfy`: `remove_g_char`.
- `gate.dfy`: the size and empty-text checks.
- `service.dfy`: the whole request.

Details of the handler that the model follows as written:
- The error code is a field of the JSON body. The HTTP status is the default 200.
  The model therefore returns a `Reply` value carrying `code`.
- "Empty text" means falsy in Python: an absent key, `null` or `""`. A text of only
  whitespace passes the gate and reaches the pipeline.
- A request without `Content-Length` makes `None > 1048576` raise. The catch-all
  turns that into 500, not 413 or 400.
- `request.json` or `data.get` raises, and the reply is 500, for a body that is not
  JSON, for a JSON value other than an object, and for a JSON object sent without a
  JSON `Content-Type`.
- Only `<s>`, `</s>` and `<pad>` are skipped. Other special tokens such as `<unk>` are
  decoded like any other token.
- A label is looked up only for kept tokens. A row made only of structural tokens
  therefore never fails, whatever the predictions are.

## Model

| member | source | states |
|---|---|---|
| Decoder.ContentPositions | http_server.py:46-48 | the positions the decoder keeps are exactly the non-structural positions of the row, strictly increasing, and never more than the row's length |
| Decoder.DecodeRow | http_server.py:45-50 | a row decodes exactly when every kept token has a prediction with a label. The output then has one record per kept position, in order, with that position's token and `id2label[preds[j]]` for the same `j`. No word is structural and every entity is a value of `id2label`. Otherwise the error is the one raised at the first failing kept position |
| Decoder.Decode | http_server.py:40-53 | one decoded row per sentence, in sentence order, and row `i` is decoded from token row `i` and prediction row `i`. It succeeds exactly when every sentence has both rows and each row resolves. Otherwise the error comes from the first failing row, and every earlier row resolved |
| Decoder.ContentPositionsPickContent | http_server.py:46-50 | the tokens at the kept positions are the row's non-structural tokens, in order (an independent filter definition) |
| Decoder.DecodedWordsAreContent | http_server.py:45-51 | a decoded row's words are the in-order subsequence of non-structural tokens, with nothing reordered or deduplicated. Its length is the number of such tokens, so at most the row's length |
| Decoder.StructuralRowDecodesEmpty | http_server.py:46-48 | a row of only `<s>`, `</s>` and `<pad>` decodes to an empty row, for any predictions |
| Text.Replace | http_server.py:88 | every `from` becomes `to` in place; the length and every other character are unchanged, so `from` no longer occurs |
| Text.Strip | http_server.py:88 | `strip()` yields a contiguous piece of the word that neither begins nor ends with whitespace, is bordered in the word only by whitespace, and holds only the word's characters |
| Text.StripUnique | http_server.py:88 | any cut of a word into whitespace, a trimmed middle and whitespace has `Strip` of the word as its middle, so `Strip` is fully characterised |
| Text.StripIdempotent | http_server.py:88 | stripping twice equals stripping once |
| Normalizer.NormalizeWord | http_server.py:88 | a normalised word holds no `Ġ`, neither begins nor ends with whitespace, and is no longer than the original. Each of its characters is a space or comes from the word. It may be empty |
| Normalizer.NormalizeWordIdempotent | http_server.py:88 | normalising a normalised word changes nothing |
| Normalizer.NormalizeWordInitial | http_server.py:88 | `Ġ` followed by a trimmed, marker-free fragment normalises to that fragment |
| Normalizer.NormalizeRow | http_server.py:88-89 | the same number of records in the same order, each with its entity unchanged and its word normalised |
| Normalizer.Normalize | http_server.py:86-92 | the same number of rows, each as long as before, with record order and entities unchanged. Afterwards no word contains `Ġ` or begins or ends with whitespace |
| Normalizer.NormalizeRowIdempotent | http_server.py:88-89 | normalising a row twice equals normalising it once |
| Normalizer.NormalizeIdempotent | http_server.py:86-92 | `remove_g_char` applied to its own output returns it unchanged |
| Gate.Classify | http_server.py:99-113 | over 1048576 gives 413 whatever the body, because the size check comes first. Otherwise an unreadable body or a missing length fails with 500. A missing, null or empty text gives 400. Only a non-empty text proceeds, and it proceeds unchanged. Each outcome is stated in both directions |
| Gate.BoundaryAccepted | http_server.py:99 | a request of exactly 1048576 bytes passes the size check, and one byte more does not |
| Service.Batches | http_server.py:30-43 | the sentences, token rows and prediction rows are produced exactly when the splitter, the tokenizer and the model all return. They are then the splitter's sentences, the tokenizer's rows for those sentences, and the model's predictions for those rows. Otherwise the error names the first library that raised, in the order splitter, tokenizer, model |
| Service.Pipeline | http_server.py:115-120 | succeeds exactly when the sentence splitter, the tokenizer and the model return and every sentence's row decodes. The result then has one row per sentence, normalised words, and entities drawn from `id2label` |
| Service.PipelineAlignment | http_server.py:40-50 | record `k` of sentence `i` is the normalised `k`-th kept token of token row `i`, labelled by the prediction at that token's own position |
| Service.Handle | http_server.py:95-131 | a request over the limit gets 413 with its message. A request within the limit with an object body lacking text gets 400. The reply is 500 exactly when the length is missing, or when it is within the limit and either the body is unreadable or the pipeline raises on a non-empty text. Predictions come back exactly when the text is non-empty, within the limit, and the pipeline succeeds. They are then exactly the pipeline's output: one row per sentence, normalised, with only labels of `id2label`. Every error code is 400, 413 or 500 |

## Left out

- Flask routing, `request.json` parsing, `Response` and `json.dumps`, `app.run`: HTTP plumbing. The body is given already parsed as a `Body`.
- A `text` member that is a JSON boolean, number, list or object: `text` is modelled as an optional string only. A falsy value such as `false`, `0` or `[]` gets 400 in the handler, and a truthy one such as `true` makes the pipeline raise, giving 500.
- `nltk.sent_tokenize`, the Hugging Face tokenizer (padding, truncation, `convert_ids_to_tokens`) and the model's forward pass with `argmax`: external libraries and floating point. They are the `Context` functions. The model consumes token strings in place of token ids.
- Latency (`time.time()`), the `print` of it, and the `latency` field of the answer: wall-clock timing and logging.
- Model and tokenizer loading and `nltk.download` at import: network and filesystem side effects.
- The message returned with 500: it is the text of whatever exception was caught, whether from a library, from Python itself or from Flask. It is modelled as an absent message.
- `nltk.sent_tokenize` is called twice on the same text (http_server.py:67 and 41). The model calls `split` once and takes both calls to return the same result, as they do for a deterministic splitter.
