/**
 * Token estimation. A sub-word encoder is used when one could be loaded and
 * encoding succeeds; otherwise the heuristic counts two tokens per CJK unified
 * ideograph (U+4E00 to U+9FFF) plus one per whitespace-separated word, the
 * words being those of Python's `str.split()` with no separator.
 */
module TokenCount {
  import opened Wrappers

  /**
   * The process-wide counter. `encoder` is `None` when the encoder could not be
   * loaded; otherwise it gives the encoded length of a text, or `None` when
   * encoding raises. The encoder itself is foreign code and stays a parameter.
   */
  datatype TokenCounter = TokenCounter(encoder: Option<string -> Option<nat>>)

  /** Python's `str.isspace()`, the separators of `str.split()`. */
  predicate IsSpace(c: char) {
    || ('\t' <= c <= '\r')
    || ('\U{1C}' <= c <= '\U{1F}')
    || c == ' '
    || c == '\U{85}'
    || c == '\U{A0}'
    || c == '\U{1680}'
    || ('\U{2000}' <= c <= '\U{200A}')
    || c == '\U{2028}'
    || c == '\U{2029}'
    || c == '\U{202F}'
    || c == '\U{205F}'
    || c == '\U{3000}'
  }

  /** A CJK unified ideograph, counted as two tokens. */
  predicate IsCjk(c: char) {
    '\U{4E00}' <= c <= '\U{9FFF}'
  }

  /** The number of CJK unified ideographs in `s`. */
  function CjkCount(s: string): nat
    decreases |s|
  {
    if s == [] then 0
    else (if IsCjk(s[0]) then 1 else 0) + CjkCount(s[1..])
  }

  /** No character of `w` is whitespace. */
  predicate NoSpace(w: string) {
    forall i | 0 <= i < |w| :: !IsSpace(w[i])
  }

  /** The length of the run of non-whitespace characters that starts `s`. */
  function WordLength(s: string): (n: nat)
    ensures n <= |s|
    ensures NoSpace(s[..n])
    ensures n < |s| ==> IsSpace(s[n])
    decreases |s|
  {
    if s == [] || IsSpace(s[0]) then 0
    else
      var n := 1 + WordLength(s[1..]);
      assert s[..n] == [s[0]] + s[1..][..n - 1];
      n
  }

  /** Python's `str.split()`: the maximal runs of non-whitespace characters, in order. */
  function SplitWhitespace(s: string): (words: seq<string>)
    ensures forall i | 0 <= i < |words| :: words[i] != [] && NoSpace(words[i])
    ensures Concat(words) == RemoveSpaces(s)
    decreases |s|
  {
    if s == [] then []
    else if IsSpace(s[0]) then SplitWhitespace(s[1..])
    else
      var n := WordLength(s);
      var rest := SplitWhitespace(s[n..]);
      RemoveSpacesWord(s, n);
      assert ([s[..n]] + rest)[0] == s[..n] && ([s[..n]] + rest)[1..] == rest;
      [s[..n]] + rest
  }

  /** The words joined back together. */
  function Concat(words: seq<string>): string
    decreases |words|
  {
    if words == [] then "" else words[0] + Concat(words[1..])
  }

  /** `s` with its whitespace removed. */
  function RemoveSpaces(s: string): string
    decreases |s|
  {
    if s == [] then ""
    else (if IsSpace(s[0]) then "" else [s[0]]) + RemoveSpaces(s[1..])
  }

  lemma {:induction false} RemoveSpacesWord(s: string, n: nat)
    requires n <= |s| && NoSpace(s[..n])
    ensures RemoveSpaces(s) == s[..n] + RemoveSpaces(s[n..])
    decreases n
  {
    if n > 0 {
      assert s[..n][0] == s[0];
      assert s[1..][..n - 1] == s[..n][1..];
      RemoveSpacesWord(s[1..], n - 1);
      assert s[1..][n - 1..] == s[n..];
      assert s[..n] == [s[0]] + s[1..][..n - 1];
    }
  }

  /** The heuristic: two per CJK ideograph plus one per whitespace-separated word. */
  function SimpleCount(text: string): nat {
    2 * CjkCount(text) + |SplitWhitespace(text)|
  }

  /**
   * The counter's estimate: 0 for the empty text; the encoder's count when it
   * was loaded and encoding succeeds; the heuristic otherwise.
   */
  function CountTokens(counter: TokenCounter, text: string): (n: nat)
    ensures text == "" ==> n == 0
    ensures counter.encoder.None? ==> n == SimpleCount(text)
    ensures text != "" && counter.encoder.Some? && counter.encoder.value(text).Some? ==>
              n == counter.encoder.value(text).value
    ensures text != "" && counter.encoder.Some? && counter.encoder.value(text).None? ==>
              n == SimpleCount(text)
  {
    if text == "" then 0
    else
      match counter.encoder
      case Some(encodedLength) =>
        (match encodedLength(text)
         case Some(k) => k
         case None => SimpleCount(text))
      case None => SimpleCount(text)
  }

  // ---------------------------------------------------------------------------
  // Properties of the heuristic.
  // ---------------------------------------------------------------------------

  lemma {:induction false} RemoveSpacesEmpty(s: string)
    ensures RemoveSpaces(s) == "" <==> forall i | 0 <= i < |s| :: IsSpace(s[i])
    decreases |s|
  {
    if s != [] {
      RemoveSpacesEmpty(s[1..]);
      if forall i | 0 <= i < |s[1..]| :: IsSpace(s[1..][i]) {
        if IsSpace(s[0]) {
          forall i | 0 <= i < |s| ensures IsSpace(s[i]) {
            if i > 0 { assert s[i] == s[1..][i - 1]; }
          }
        }
      } else {
        var j :| 0 <= j < |s[1..]| && !IsSpace(s[1..][j]);
        assert s[j + 1] == s[1..][j];
      }
    }
  }

  lemma {:induction false} CjkCountOfBlank(s: string)
    requires forall i | 0 <= i < |s| :: IsSpace(s[i])
    ensures CjkCount(s) == 0
    decreases |s|
  {
    if s != [] {
      assert IsSpace(s[0]);
      assert forall i | 0 <= i < |s[1..]| :: s[1..][i] == s[i + 1];
      CjkCountOfBlank(s[1..]);
    }
  }

  /** The heuristic is 0 exactly for texts made only of whitespace. */
  lemma SimpleCountZeroIffBlank(s: string)
    ensures SimpleCount(s) == 0 <==> forall i | 0 <= i < |s| :: IsSpace(s[i])
  {
    var words := SplitWhitespace(s);
    RemoveSpacesEmpty(s);
    if words != [] {
      assert Concat(words) == words[0] + Concat(words[1..]);
      assert Concat(words) != "";
    }
    if forall i | 0 <= i < |s| :: IsSpace(s[i]) {
      CjkCountOfBlank(s);
    }
  }

  lemma {:induction false} WordLengthBeforeSpace(a: string, c: char, b: string)
    requires IsSpace(c)
    ensures WordLength(a + [c] + b) == WordLength(a)
    decreases |a|
  {
    if a == [] {
      assert (a + [c] + b)[0] == c;
    } else {
      assert (a + [c] + b)[0] == a[0];
      assert (a + [c] + b)[1..] == a[1..] + [c] + b;
      if !IsSpace(a[0]) {
        WordLengthBeforeSpace(a[1..], c, b);
      }
    }
  }

  /** Splitting at a whitespace character: the words of each side, in order. */
  lemma {:induction false} SplitAtSpace(a: string, c: char, b: string)
    requires IsSpace(c)
    ensures SplitWhitespace(a + [c] + b) == SplitWhitespace(a) + SplitWhitespace(b)
    decreases |a|
  {
    var x := a + [c] + b;
    if a == [] {
      assert x[0] == c && x[1..] == b;
    } else if IsSpace(a[0]) {
      assert x[0] == a[0] && x[1..] == a[1..] + [c] + b;
      SplitAtSpace(a[1..], c, b);
    } else {
      assert x[0] == a[0];
      var n := WordLength(a);
      WordLengthBeforeSpace(a, c, b);
      assert x[..n] == a[..n];
      assert x[n..] == a[n..] + [c] + b;
      SplitAtSpace(a[n..], c, b);
    }
  }

  lemma {:induction false} CjkCountAppend(a: string, b: string)
    ensures CjkCount(a + b) == CjkCount(a) + CjkCount(b)
    decreases |a|
  {
    if a == [] {
      assert a + b == b;
    } else {
      assert (a + b)[0] == a[0] && (a + b)[1..] == a[1..] + b;
      CjkCountAppend(a[1..], b);
    }
  }

  /** The heuristic adds up over two texts joined by a whitespace character. */
  lemma SimpleCountAdditive(a: string, c: char, b: string)
    requires IsSpace(c)
    ensures SimpleCount(a + [c] + b) == SimpleCount(a) + SimpleCount(b)
  {
    SplitAtSpace(a, c, b);
    CjkCountAppend(a + [c], b);
    CjkCountAppend(a, [c]);
    assert CjkCount([c]) == 0 by {
      assert [c][1..] == [];
    }
  }

  /** Words joined with single spaces. */
  function JoinWithSpaces(words: seq<string>): string
    decreases |words|
  {
    if words == [] then ""
    else if |words| == 1 then words[0]
    else words[0] + " " + JoinWithSpaces(words[1..])
  }

  lemma {:induction false} SplitOneWord(w: string)
    requires w != [] && NoSpace(w)
    ensures SplitWhitespace(w) == [w]
  {
    assert w[..|w|] == w;
    WordLengthOfWord(w);
  }

  lemma {:induction false} WordLengthOfWord(w: string)
    requires NoSpace(w)
    ensures WordLength(w) == |w|
    decreases |w|
  {
    if w != [] {
      assert NoSpace(w[1..]) by {
        forall i | 0 <= i < |w[1..]| ensures !IsSpace(w[1..][i]) {
          assert w[1..][i] == w[i + 1];
        }
      }
      WordLengthOfWord(w[1..]);
    }
  }

  /** Splitting words joined with spaces gives the words back. */
  lemma {:induction false} SplitJoinRoundTrip(words: seq<string>)
    requires forall i | 0 <= i < |words| :: words[i] != [] && NoSpace(words[i])
    ensures SplitWhitespace(JoinWithSpaces(words)) == words
    decreases |words|
  {
    if |words| == 1 {
      SplitOneWord(words[0]);
    } else if |words| > 1 {
      SplitAtSpace(words[0], ' ', JoinWithSpaces(words[1..]));
      assert words[0] + " " + JoinWithSpaces(words[1..]) == words[0] + [' '] + JoinWithSpaces(words[1..]);
      SplitOneWord(words[0]);
      SplitJoinRoundTrip(words[1..]);
    }
  }
}
