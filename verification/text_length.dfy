/**
 * The `get_text_length` tool: Python's two-ended `str.strip(chars)` applied
 * twice, then `len`.
 */
module TextLength {

  /** Characters removed by the first pass: the single quote and the newline. */
  const QuoteOrNewline: set<char> := {'\'', '\n'}

  /** Characters removed by the second pass: the double quote. */
  const DoubleQuote: set<char> := {'"'}

  /** Every character of `s` belongs to `chars`. */
  predicate AllIn(s: string, chars: set<char>)
  {
    forall k :: 0 <= k < |s| ==> s[k] in chars
  }

  /**
   * `s[i..j]` is what remains of `s` once only characters of `chars` are cut
   * from both ends and no further cut is possible.
   */
  predicate TrimmedAt(s: string, chars: set<char>, i: int, j: int)
  {
    0 <= i <= j <= |s| &&
    AllIn(s[..i], chars) && AllIn(s[j..], chars) &&
    (i < j ==> s[i] !in chars && s[j - 1] !in chars)
  }

  /** `s[..i]` is the whole leading run of `chars` in `s`. */
  predicate LeadingCut(s: string, chars: set<char>, i: int)
  {
    0 <= i <= |s| && AllIn(s[..i], chars) && (i < |s| ==> s[i] !in chars)
  }

  /** `s[j..]` is the whole trailing run of `chars` in `s`. */
  predicate TrailingCut(s: string, chars: set<char>, j: int)
  {
    0 <= j <= |s| && AllIn(s[j..], chars) && (0 < j ==> s[j - 1] !in chars)
  }

  /** The leading half of `strip`: drop characters of `chars` from the front. */
  function StripLeading(s: string, chars: set<char>): (r: string)
    ensures |r| <= |s|
    decreases |s|
  {
    if s != [] && s[0] in chars then StripLeading(s[1..], chars) else s
  }

  /** The trailing half of `strip`: drop characters of `chars` from the back. */
  function StripTrailing(s: string, chars: set<char>): (r: string)
    ensures |r| <= |s|
    decreases |s|
  {
    if s != [] && s[|s| - 1] in chars then StripTrailing(s[..|s| - 1], chars) else s
  }

  /** Python's `s.strip(chars)`: the leading run is removed first, then the trailing one. */
  function Strip(s: string, chars: set<char>): (r: string)
    ensures |r| <= |s|
  {
    StripTrailing(StripLeading(s, chars), chars)
  }

  /** `get_text_length`: strip quotes and newlines, then double quotes, and count what is left. */
  function GetTextLength(text: string): (n: nat)
    ensures n <= |text|
  {
    |Strip(Strip(text, QuoteOrNewline), DoubleQuote)|
  }

  /** Where the leading run of `chars` ends is where `StripLeading` cuts. */
  lemma {:induction false} StripLeadingAt(s: string, chars: set<char>, i: int)
    requires LeadingCut(s, chars, i)
    ensures StripLeading(s, chars) == s[i..]
    decreases |s|
  {
    if i > 0 {
      assert s[..i][0] == s[0];
      var rest := s[1..][..i - 1];
      assert forall k :: 0 <= k < i - 1 ==> rest[k] == s[k + 1];
      StripLeadingAt(s[1..], chars, i - 1);
      assert s[1..][i - 1..] == s[i..];
    }
  }

  /** `StripLeading` removes exactly the leading run of `chars`. */
  lemma {:induction false} StripLeadingCut(s: string, chars: set<char>)
    ensures exists i :: LeadingCut(s, chars, i) && StripLeading(s, chars) == s[i..]
    decreases |s|
  {
    if s != [] && s[0] in chars {
      StripLeadingCut(s[1..], chars);
      var i :| LeadingCut(s[1..], chars, i) && StripLeading(s[1..], chars) == s[1..][i..];
      var head := s[..i + 1];
      assert forall k :: 0 < k < i + 1 ==> head[k] == s[1..][k - 1];
      assert s[1..][i..] == s[i + 1..];
      assert LeadingCut(s, chars, i + 1);
    } else {
      assert s[..0] == [] && s[0..] == s;
      assert LeadingCut(s, chars, 0);
    }
  }

  /** Where the trailing run of `chars` begins is where `StripTrailing` cuts. */
  lemma {:induction false} StripTrailingAt(s: string, chars: set<char>, j: int)
    requires TrailingCut(s, chars, j)
    ensures StripTrailing(s, chars) == s[..j]
    decreases |s|
  {
    if j < |s| {
      var n := |s| - 1;
      assert s[j..][n - j] == s[n];
      assert forall k :: 0 <= k < n - j ==> s[..n][j..][k] == s[j..][k];
      StripTrailingAt(s[..n], chars, j);
      assert s[..n][..j] == s[..j];
    }
  }

  /** `StripTrailing` removes exactly the trailing run of `chars`. */
  lemma {:induction false} StripTrailingCut(s: string, chars: set<char>)
    ensures exists j :: TrailingCut(s, chars, j) && StripTrailing(s, chars) == s[..j]
    decreases |s|
  {
    var n := |s| - 1;
    if s != [] && s[n] in chars {
      StripTrailingCut(s[..n], chars);
      var j :| TrailingCut(s[..n], chars, j) && StripTrailing(s[..n], chars) == s[..n][..j];
      assert forall k :: 0 <= k < n - j ==> s[j..][k] == s[..n][j..][k];
      assert s[j..][n - j] == s[n];
      assert s[..n][..j] == s[..j];
      assert TrailingCut(s, chars, j);
    } else {
      assert s[|s|..] == [] && s[..|s|] == s;
      assert TrailingCut(s, chars, |s|);
    }
  }

  /** `Strip` trims `s` as far as `chars` allows, at both ends. */
  lemma {:induction false} StripTrims(s: string, chars: set<char>)
    ensures exists i, j :: TrimmedAt(s, chars, i, j) && Strip(s, chars) == s[i..j]
  {
    StripLeadingCut(s, chars);
    var i :| LeadingCut(s, chars, i) && StripLeading(s, chars) == s[i..];
    var left := s[i..];
    StripTrailingCut(left, chars);
    var b :| TrailingCut(left, chars, b) && StripTrailing(left, chars) == left[..b];
    assert left[..b] == s[i..i + b];
    assert left[b..] == s[i + b..];
    assert TrimmedAt(s, chars, i, i + b);
  }

  /**
   * Any trim of `s` by `chars` that cannot be taken further is the one
   * `Strip` produces: `Strip` is the unique maximal trim.
   */
  lemma {:induction false} StripUnique(s: string, chars: set<char>, i: int, j: int)
    requires TrimmedAt(s, chars, i, j)
    ensures Strip(s, chars) == s[i..j]
  {
    if i == j {
      assert AllIn(s[..|s|], chars) by {
        forall k | 0 <= k < |s| ensures s[k] in chars {
          if k < i { assert s[..i][k] == s[k]; } else { assert s[j..][k - j] == s[k]; }
        }
      }
      StripLeadingAt(s, chars, |s|);
    } else {
      StripLeadingAt(s, chars, i);
      var left := s[i..];
      assert left[j - i..] == s[j..];
      StripTrailingAt(left, chars, j - i);
      assert left[..j - i] == s[i..j];
    }
  }

  /** Stripping a second time with the same characters changes nothing. */
  lemma {:induction false} StripIdempotent(s: string, chars: set<char>)
    ensures Strip(Strip(s, chars), chars) == Strip(s, chars)
  {
    var r := Strip(s, chars);
    StripTrims(s, chars);
    var i, j :| TrimmedAt(s, chars, i, j) && r == s[i..j];
    assert r[..0] == [] && r[|r|..] == [];
    StripUnique(r, chars, 0, |r|);
  }

  /** Neither the first nor the last character of `s` is one `get_text_length` strips. */
  predicate NoStrippedEnds(s: string)
  {
    s != [] ==> s[0] !in QuoteOrNewline + DoubleQuote && s[|s| - 1] !in QuoteOrNewline + DoubleQuote
  }

  /** A text whose ends are not quotes or newlines is counted in full. */
  lemma {:induction false} GetTextLengthUnquoted(text: string)
    requires NoStrippedEnds(text)
    ensures GetTextLength(text) == |text|
  {
    assert text[..0] == [] && text[|text|..] == [];
    StripUnique(text, QuoteOrNewline, 0, |text|);
    StripUnique(text, DoubleQuote, 0, |text|);
  }

  /** A word wrapped in one pair of single or double quotes is counted without them. */
  lemma {:induction false} GetTextLengthQuoted(word: string, q: char)
    requires q == '\'' || q == '"'
    requires NoStrippedEnds(word)
    ensures GetTextLength([q] + word + [q]) == |word|
  {
    var text := [q] + word + [q];
    assert word[..0] == [] && word[|word|..] == [];
    assert text[1..|word| + 1] == word;
    if q == '\'' {
      assert text[..1] == [q] && text[|word| + 1..] == [q];
      StripUnique(text, QuoteOrNewline, 1, |word| + 1);
      StripUnique(word, DoubleQuote, 0, |word|);
    } else {
      assert text[..0] == [] && text[|text|..] == [];
      StripUnique(text, QuoteOrNewline, 0, |text|);
      assert text[..1] == [q] && text[|word| + 1..] == [q];
      StripUnique(text, DoubleQuote, 1, |word| + 1);
    }
  }

  /** The word in the script's question (main.py:83) is three characters long. */
  lemma {:induction false} GetTextLengthDog()
    ensures GetTextLength("dog") == 3
  {
    GetTextLengthUnquoted("dog");
  }

  /** The same word as the agent passes it, in single quotes, still counts three. */
  lemma {:induction false} GetTextLengthQuotedDog()
    ensures GetTextLength("'dog'") == 3
  {
    assert "'dog'" == ['\''] + "dog" + ['\''];
    GetTextLengthQuoted("dog", '\'');
  }

  /**
   * The two passes run in a fixed order: single quotes inside double quotes
   * survive, because the first pass sees a double quote at each end.
   */
  lemma {:induction false} GetTextLengthPassOrder(word: string)
    requires NoStrippedEnds(word)
    ensures GetTextLength(['"', '\''] + word + ['\'', '"']) == |word| + 2
  {
    var inner := ['\''] + word + ['\''];
    var text := ['"'] + inner + ['"'];
    assert text == ['"', '\''] + word + ['\'', '"'];
    assert text[..0] == [] && text[|text|..] == [];
    StripUnique(text, QuoteOrNewline, 0, |text|);
    assert text[..1] == ['"'] && text[|inner| + 1..] == ['"'] && text[1..|inner| + 1] == inner;
    StripUnique(text, DoubleQuote, 1, |inner| + 1);
  }
}
