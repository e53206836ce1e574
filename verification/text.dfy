/** The two string operations the token normaliser is built from: single-character
    replacement and whitespace stripping, with Python's semantics. */
module Text {

  /** The characters Python's `str.isspace` accepts, which are the ones `str.strip()`
      with no argument removes: the ASCII controls TAB..CR and FS..US, SPACE, NEL,
      NO-BREAK SPACE and the Unicode space separators, line and paragraph separators. */
  predicate IsSpace(c: char) {
    || ('\t' <= c <= '\r')
    || ('\U{1C}' <= c <= '\U{1F}')
    || c == ' '
    || c == '\U{85}'
    || c == '\U{A0}'
    || c == '\U{1680}'
    || ('\U{2000}' <= c <= '\U{200A}')
    || c == '\U{2028}'
    || c == '\U{2029}'
    || c == '\U{202F}'
    || c == '\U{205F}'
    || c == '\U{3000}'
  }

  /** Every character of `s` is whitespace (true of the empty string). */
  predicate AllSpace(s: string) {
    forall k :: 0 <= k < |s| ==> IsSpace(s[k])
  }

  /** `s` neither begins nor ends with whitespace. */
  predicate IsTrimmed(s: string) {
    |s| == 0 || (!IsSpace(s[0]) && !IsSpace(s[|s| - 1]))
  }

  /** `s.replace(from, to)` for one-character `from` and `to`: every occurrence of
      `from` is replaced in place and nothing else moves. */
  function Replace(s: string, from: char, to: char): (r: string)
    ensures |r| == |s|
    ensures forall k :: 0 <= k < |s| ==> r[k] == (if s[k] == from then to else s[k])
    ensures from != to ==> from !in r
  {
    if |s| == 0 then []
    else [if s[0] == from then to else s[0]] + Replace(s[1..], from, to)
  }

  /** Replacing a character that does not occur changes nothing. */
  lemma ReplaceAbsent(s: string, from: char, to: char)
    requires from !in s
    ensures Replace(s, from, to) == s
  {
    var r := Replace(s, from, to);
    assert forall k :: 0 <= k < |s| ==> r[k] == s[k] by {
      forall k | 0 <= k < |s| ensures r[k] == s[k] {
        assert s[k] in s;
      }
    }
  }

  /** `s.lstrip()`: `s` with its longest all-whitespace prefix removed. */
  function TrimLeft(s: string): (r: string)
    ensures |r| <= |s| && r == s[|s| - |r|..]
    ensures AllSpace(s[..|s| - |r|])
    ensures |r| == 0 || !IsSpace(r[0])
  {
    if |s| > 0 && IsSpace(s[0]) then TrimLeft(s[1..]) else s
  }

  /** `s.rstrip()`: `s` with its longest all-whitespace suffix removed. */
  function TrimRight(s: string): (r: string)
    ensures |r| <= |s| && r == s[..|r|]
    ensures AllSpace(s[|r|..])
    ensures |r| == 0 || !IsSpace(r[|r| - 1])
  {
    if |s| > 0 && IsSpace(s[|s| - 1]) then TrimRight(s[..|s| - 1]) else s
  }

  /** `s.strip()`: the stretch of `s` left once whitespace is removed from both ends.
      The result is a contiguous piece of `s`, bordered in `s` only by whitespace,
      and itself neither begins nor ends with whitespace. */
  function Strip(s: string): (r: string)
    ensures IsTrimmed(r)
    ensures |r| <= |s| && StripStart(s) + |r| <= |s|
    ensures r == s[StripStart(s)..StripStart(s) + |r|]
    ensures AllSpace(s[..StripStart(s)]) && AllSpace(s[StripStart(s) + |r|..])
    ensures forall c :: c in r ==> c in s
  {
    TrimRight(TrimLeft(s))
  }

  /** Where the result of `Strip(s)` begins inside `s`. */
  function StripStart(s: string): nat
    ensures StripStart(s) <= |s|
  {
    |s| - |TrimLeft(s)|
  }

  /** The left trim stops exactly at the first non-whitespace character. */
  lemma {:induction false} TrimLeftStops(s: string, a: nat)
    requires a <= |s| && AllSpace(s[..a])
    requires a == |s| || !IsSpace(s[a])
    ensures TrimLeft(s) == s[a..]
  {
    if a > 0 {
      assert IsSpace(s[..a][0]);
      assert s[1..][..a - 1] == s[..a][1..];
      TrimLeftStops(s[1..], a - 1);
    }
  }

  /** The right trim stops exactly after the last non-whitespace character. */
  lemma {:induction false} TrimRightStops(s: string, e: nat)
    requires e <= |s| && AllSpace(s[e..])
    requires e == 0 || !IsSpace(s[e - 1])
    ensures TrimRight(s) == s[..e]
  {
    if e < |s| {
      assert IsSpace(s[e..][|s| - 1 - e]);
      assert s[..|s| - 1][e..] == s[e..][..|s| - 1 - e];
      TrimRightStops(s[..|s| - 1], e);
    }
  }

  /** `Strip` is the only way to cut `s` into whitespace, a trimmed middle and
      whitespace: whatever cut has those three parts, its middle is `Strip(s)`. */
  lemma {:induction false} StripUnique(s: string, a: nat, b: nat)
    requires a <= b <= |s|
    requires AllSpace(s[..a]) && AllSpace(s[b..])
    requires IsTrimmed(s[a..b])
    ensures Strip(s) == s[a..b]
  {
    if a == b {
      // the whole of `s` is whitespace, so nothing survives the left trim
      assert AllSpace(s[..|s|]) by {
        forall k | 0 <= k < |s| ensures IsSpace(s[k]) {
          if k < a { assert s[..a][k] == s[k]; }
          else { assert s[b..][k - b] == s[k]; }
        }
      }
      TrimLeftStops(s, |s|);
    } else {
      assert !IsSpace(s[a]) by { assert s[a..b][0] == s[a]; }
      assert !IsSpace(s[b - 1]) by { assert s[a..b][b - a - 1] == s[b - 1]; }
      TrimLeftStops(s, a);
      var l := s[a..];
      assert l[b - a..] == s[b..];
      TrimRightStops(l, b - a);
      assert l[..b - a] == s[a..b];
    }
  }

  /** A string that is already trimmed comes back from `Strip` unchanged. */
  lemma {:induction false} StripTrimmed(s: string)
    requires IsTrimmed(s)
    ensures Strip(s) == s
  {
    StripUnique(s, 0, |s|);
  }

  /** Stripping twice is stripping once. */
  lemma {:induction false} StripIdempotent(s: string)
    ensures Strip(Strip(s)) == Strip(s)
  {
    StripTrimmed(Strip(s));
  }
}
