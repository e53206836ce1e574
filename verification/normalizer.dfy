/** The token normaliser `remove_g_char`: in every record's word, the byte-level
    BPE word-boundary marker `Ġ` (U+0120) becomes a space and the result is stripped
    of surrounding whitespace; labels, record order and nesting are left as they are. */
module Normalizer {
  import opened Text
  import opened Predictions

  /** The word-boundary marker the tokenizer prefixes to a token that starts a word. */
  const Marker: char := '\U{0120}'

  /** `word.replace('Ġ', ' ').strip()`. The result holds no marker, does not begin or
      end with whitespace, and every character of it is a space or comes from the word.
      It may be empty, as for the bare token `Ġ`. */
  function NormalizeWord(w: string): (r: string)
    ensures Marker !in r
    ensures IsTrimmed(r)
    ensures |r| <= |w|
    ensures forall c :: c in r ==> c == ' ' || c in w
  {
    Strip(Replace(w, Marker, ' '))
  }

  /** A normalised word is its own normal form. */
  lemma {:induction false} NormalizeWordIdempotent(w: string)
    ensures NormalizeWord(NormalizeWord(w)) == NormalizeWord(w)
  {
    var n := NormalizeWord(w);
    ReplaceAbsent(n, Marker, ' ');
    StripTrimmed(n);
  }

  /** The common case: a word-initial token `Ġ` + `w`, with `w` an ordinary trimmed,
      marker-free fragment, normalises to `w` itself; a bare marker normalises to "". */
  lemma {:induction false} NormalizeWordInitial(w: string)
    requires Marker !in w && IsTrimmed(w)
    ensures NormalizeWord([Marker] + w) == w
  {
    ReplaceAbsent(w, Marker, ' ');
    var spaced := Replace([Marker] + w, Marker, ' ');
    assert spaced == [' '] + w;
    assert spaced[1..] == w && spaced[|spaced|..] == [];
    StripUnique(spaced, 1, |spaced|);
  }

  /** The comprehension over one sentence: one output record per input record, in the
      same order, each with its word normalised and its entity untouched. */
  function NormalizeRow(row: seq<LabeledToken>): (r: seq<LabeledToken>)
    ensures |r| == |row|
    ensures forall k :: 0 <= k < |row| ==>
      r[k].entity == row[k].entity && r[k].word == NormalizeWord(row[k].word)
  {
    if |row| == 0 then []
    else [LabeledToken(NormalizeWord(row[0].word), row[0].entity)] + NormalizeRow(row[1..])
  }

  /** Every word of the prediction rows is already in normal form. */
  predicate IsNormalized(rows: seq<seq<LabeledToken>>) {
    forall i, k :: 0 <= i < |rows| && 0 <= k < |rows[i]| ==>
      Marker !in rows[i][k].word && IsTrimmed(rows[i][k].word)
  }

  /** `remove_g_char`: the same rows of the same lengths, in the same order, with every
      entity unchanged and every word normalised; afterwards no word holds the marker
      or begins or ends with whitespace. */
  function Normalize(rows: seq<seq<LabeledToken>>): (r: seq<seq<LabeledToken>>)
    ensures |r| == |rows|
    ensures forall i :: 0 <= i < |rows| ==> r[i] == NormalizeRow(rows[i])
    ensures IsNormalized(r)
  {
    if |rows| == 0 then []
    else [NormalizeRow(rows[0])] + Normalize(rows[1..])
  }

  /** Normalising a row twice is normalising it once. */
  lemma NormalizeRowIdempotent(row: seq<LabeledToken>)
    ensures NormalizeRow(NormalizeRow(row)) == NormalizeRow(row)
  {
    var once := NormalizeRow(row);
    var twice := NormalizeRow(once);
    forall k | 0 <= k < |row| ensures twice[k] == once[k] {
      NormalizeWordIdempotent(row[k].word);
    }
  }

  /** `remove_g_char` applied to its own output returns that output unchanged. */
  lemma NormalizeIdempotent(rows: seq<seq<LabeledToken>>)
    ensures Normalize(Normalize(rows)) == Normalize(rows)
  {
    var once := Normalize(rows);
    var twice := Normalize(once);
    forall i | 0 <= i < |rows| ensures twice[i] == once[i] {
      NormalizeRowIdempotent(rows[i]);
    }
  }
}
