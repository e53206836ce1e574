/** The decoded form of one sentence: the tokens the decoder keeps, each paired
    with the label string the model assigned to it. */
module Predictions {

  /** One `{word, entity}` record: a token's surface form and its label string. */
  datatype LabeledToken = LabeledToken(word: string, entity: string)

  /** The surface forms of a row of records, in order. */
  function Words(row: seq<LabeledToken>): seq<string> {
    seq(|row|, k requires 0 <= k < |row| => row[k].word)
  }
}

/** The label decoder of `get_predictions`: for every sentence, walk that sentence's
    padded row of sub-word token strings in position order, skip the structural
    markers, and pair every other token with `id2label` of the label index the
    model predicted at the same position. */
module Decoder {
  import opened Results
  import opened Predictions

  /** The tokens the decoder skips: sentence start, sentence end and padding. */
  const SentenceStart: string := "<s>"
  const SentenceEnd: string := "</s>"
  const Pad: string := "<pad>"

  predicate IsStructural(token: string) {
    token == SentenceStart || token == SentenceEnd || token == Pad
  }

  /** What the Python code raises while decoding: `input_ids[i]` or `logits[i]`
      out of range, `preds[j]` out of range, or an index `id2label` does not hold. */
  datatype DecodeError =
    | MissingRow(row: nat)
    | MissingPrediction(row: nat, pos: nat)
    | UnknownLabel(row: nat, pos: nat, index: nat)

  /** Reference definition of what a row keeps: its non-structural tokens, in order. */
  function ContentTokens(tokens: seq<string>): seq<string> {
    if |tokens| == 0 then []
    else (if IsStructural(tokens[0]) then [] else [tokens[0]]) + ContentTokens(tokens[1..])
  }

  /** The positions of a row's non-structural tokens, strictly increasing, and all of them. */
  function ContentPositions(tokens: seq<string>): (ps: seq<nat>)
    ensures |ps| <= |tokens|
    ensures forall k :: 0 <= k < |ps| ==> ps[k] < |tokens| && !IsStructural(tokens[ps[k]])
    ensures forall k, l :: 0 <= k < l < |ps| ==> ps[k] < ps[l]
    ensures forall j :: 0 <= j < |tokens| && !IsStructural(tokens[j]) ==> j in ps
  {
    if |tokens| == 0 then []
    else
      var n := |tokens| - 1;
      var ps := ContentPositions(tokens[..n]);
      if IsStructural(tokens[n]) then ps else ps + [n]
  }

  /** Position `j` of the row is a kept token whose label cannot be looked up. */
  predicate FailsAt(tokens: seq<string>, preds: seq<nat>, id2label: map<nat, string>, j: int) {
    && 0 <= j < |tokens|
    && !IsStructural(tokens[j])
    && !(j < |preds| && preds[j] in id2label)
  }

  /** Whether a position fails depends only on the tokens up to it. */
  lemma FailsAtPrefix(tokens: seq<string>, n: nat, preds: seq<nat>, id2label: map<nat, string>)
    requires n <= |tokens|
    ensures forall j :: 0 <= j < n ==>
      FailsAt(tokens[..n], preds, id2label, j) == FailsAt(tokens, preds, id2label, j)
  {
  }

  /** Every kept token of the row has a prediction, and that prediction has a label. */
  predicate RowResolvable(tokens: seq<string>, preds: seq<nat>, id2label: map<nat, string>) {
    forall j :: 0 <= j < |tokens| ==> !FailsAt(tokens, preds, id2label, j)
  }

  /** The error Python raises at a failing position `pos` of row `row`. */
  function FailureAt(row: nat, pos: nat, preds: seq<nat>): DecodeError {
    if pos < |preds| then UnknownLabel(row, pos, preds[pos]) else MissingPrediction(row, pos)
  }

  /** `id2label[preds[pos]]`, or the error that lookup raises. */
  function Lookup(row: nat, pos: nat, preds: seq<nat>, id2label: map<nat, string>): Result<string, DecodeError> {
    if pos < |preds| && preds[pos] in id2label then Ok(id2label[preds[pos]])
    else Err(FailureAt(row, pos, preds))
  }

  /** The inner loop of `get_predictions` over row `row`. On success the output is
      exactly one record per kept position, in position order, each carrying its own
      token and the label of its own prediction. Otherwise the error is the one raised
      at the first kept position whose label cannot be looked up. */
  function DecodeRow(row: nat, tokens: seq<string>, preds: seq<nat>, id2label: map<nat, string>)
    : (r: Result<seq<LabeledToken>, DecodeError>)
    ensures r.Ok? <==> RowResolvable(tokens, preds, id2label)
    ensures r.Ok? ==>
      var ps := ContentPositions(tokens);
      && |r.value| == |ps|
      && forall k :: 0 <= k < |ps| ==>
          && !FailsAt(tokens, preds, id2label, ps[k])
          && r.value[k] == LabeledToken(tokens[ps[k]], id2label[preds[ps[k]]])
    ensures r.Ok? ==> forall k :: 0 <= k < |r.value| ==>
      !IsStructural(r.value[k].word) && r.value[k].entity in id2label.Values
    ensures r.Err? ==>
      && !r.error.MissingRow?
      && FailsAt(tokens, preds, id2label, r.error.pos)
      && r.error == FailureAt(row, r.error.pos, preds)
      && forall j :: 0 <= j < r.error.pos ==> !FailsAt(tokens, preds, id2label, j)
  {
    if |tokens| == 0 then Ok([])
    else
      var n := |tokens| - 1;
      FailsAtPrefix(tokens, n, preds, id2label);
      match DecodeRow(row, tokens[..n], preds, id2label)
      case Err(e) => Err(e)
      case Ok(out) =>
        if IsStructural(tokens[n]) then Ok(out)
        else
          match Lookup(row, n, preds, id2label)
          case Err(e) => assert FailsAt(tokens, preds, id2label, n); Err(e)
          case Ok(entity) => Ok(out + [LabeledToken(tokens[n], entity)])
  }

  /** Every row up to `count` exists in both batches and decodes without error. */
  predicate BatchResolvable(count: nat, tokenRows: seq<seq<string>>, predRows: seq<seq<nat>>,
                            id2label: map<nat, string>) {
    && count <= |tokenRows|
    && count <= |predRows|
    && forall i :: 0 <= i < count ==> RowResolvable(tokenRows[i], predRows[i], id2label)
  }

  /** The outer loop of `get_predictions`: one decoded row per sentence, in sentence
      order, row `i` decoded from token row `i` and prediction row `i`. Only the number
      of sentences matters; surplus token or prediction rows are never read. */
  function Decode(sentences: seq<string>, tokenRows: seq<seq<string>>, predRows: seq<seq<nat>>,
                  id2label: map<nat, string>): (r: Result<seq<seq<LabeledToken>>, DecodeError>)
    ensures r.Ok? <==> BatchResolvable(|sentences|, tokenRows, predRows, id2label)
    ensures r.Ok? ==>
      && |r.value| == |sentences|
      && forall i :: 0 <= i < |sentences| ==>
          DecodeRow(i, tokenRows[i], predRows[i], id2label) == Ok(r.value[i])
    ensures r.Err? && r.error.MissingRow? ==>
      && r.error.row < |sentences|
      && (r.error.row >= |tokenRows| || r.error.row >= |predRows|)
      && BatchResolvable(r.error.row, tokenRows, predRows, id2label)
    ensures r.Err? && !r.error.MissingRow? ==>
      && r.error.row < |sentences|
      && r.error.row < |tokenRows| && r.error.row < |predRows|
      && DecodeRow(r.error.row, tokenRows[r.error.row], predRows[r.error.row], id2label) == Err(r.error)
      && BatchResolvable(r.error.row, tokenRows, predRows, id2label)
  {
    if |sentences| == 0 then Ok([])
    else
      var i := |sentences| - 1;
      match Decode(sentences[..i], tokenRows, predRows, id2label)
      case Err(e) => Err(e)
      case Ok(rows) =>
        if i >= |tokenRows| || i >= |predRows| then Err(MissingRow(i))
        else
          match DecodeRow(i, tokenRows[i], predRows[i], id2label)
          case Err(e) => Err(e)
          case Ok(decoded) => Ok(rows + [decoded])
  }

  /** Filtering commutes with concatenation. */
  lemma {:induction false} ContentTokensAppend(a: seq<string>, b: seq<string>)
    ensures ContentTokens(a + b) == ContentTokens(a) + ContentTokens(b)
  {
    if |a| > 0 {
      assert (a + b)[1..] == a[1..] + b;
      ContentTokensAppend(a[1..], b);
    } else {
      assert a + b == b;
    }
  }

  /** The kept positions pick out exactly the reference filter's tokens. */
  lemma {:induction false} ContentPositionsPickContent(tokens: seq<string>)
    ensures var ps := ContentPositions(tokens);
      seq(|ps|, k requires 0 <= k < |ps| => tokens[ps[k]]) == ContentTokens(tokens)
  {
    if |tokens| > 0 {
      var n := |tokens| - 1;
      var front := tokens[..n];
      ContentPositionsPickContent(front);
      assert tokens == front + [tokens[n]];
      ContentTokensAppend(front, [tokens[n]]);
      var ps := ContentPositions(front);
      var picked := seq(|ps|, k requires 0 <= k < |ps| => front[ps[k]]);
      var ps' := ContentPositions(tokens);
      var picked' := seq(|ps'|, k requires 0 <= k < |ps'| => tokens[ps'[k]]);
      assert picked'[..|ps|] == picked;
      if !IsStructural(tokens[n]) {
        assert picked' == picked + [tokens[n]];
      } else {
        assert picked' == picked;
      }
    }
  }

  /** A decoded row is the in-order subsequence of its row's non-structural tokens:
      nothing reordered, nothing dropped, nothing repeated. Its length is the number
      of non-structural tokens, so never more than the row's length. */
  lemma DecodedWordsAreContent(row: nat, tokens: seq<string>, preds: seq<nat>, id2label: map<nat, string>)
    requires DecodeRow(row, tokens, preds, id2label).Ok?
    ensures var out := DecodeRow(row, tokens, preds, id2label).value;
      && Words(out) == ContentTokens(tokens)
      && |out| == |ContentTokens(tokens)| <= |tokens|
  {
    ContentPositionsPickContent(tokens);
    var out := DecodeRow(row, tokens, preds, id2label).value;
    var ps := ContentPositions(tokens);
    assert Words(out) == seq(|ps|, k requires 0 <= k < |ps| => tokens[ps[k]]);
  }

  /** A row made only of structural and padding tokens decodes to an empty row,
      whatever the model predicted for it, because no label is looked up. */
  lemma {:induction false} StructuralRowDecodesEmpty(row: nat, tokens: seq<string>, preds: seq<nat>,
                                                     id2label: map<nat, string>)
    requires forall j :: 0 <= j < |tokens| ==> IsStructural(tokens[j])
    ensures DecodeRow(row, tokens, preds, id2label) == Ok([])
  {
    if |tokens| > 0 {
      StructuralRowDecodesEmpty(row, tokens[..|tokens| - 1], preds, id2label);
    }
  }
}
