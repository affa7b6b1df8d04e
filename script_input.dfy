/**
 * The script editor of v0_design/components/script-input.tsx: the word and
 * character counts shown under the text, and the Clear button.
 */
module ScriptInput {
  import opened Text

  /**
   * `s.split(/\s+/)`: the pieces between maximal runs of whitespace. A
   * leading or trailing run leaves an empty piece, and `""` gives `[""]`.
   */
  function SplitWhitespace(s: string): (r: seq<string>)
    ensures |r| >= 1
    decreases |s|
  {
    if s == [] then [""]
    else if IsSpace(s[0]) then
      var t := TrimStart(s);
      assert |t| < |s| by {
        if t != [] {
          assert t[0] == s[|s| - |t|];
        }
      }
      [""] + SplitWhitespace(t)
    else
      var rest := SplitWhitespace(s[1..]);
      [[s[0]] + rest[0]] + rest[1..]
  }

  /** Position `i` ends a word: a non-space followed by a space or by the end of the text. */
  predicate EndsWord(s: string, i: nat)
    requires i < |s|
  {
    !IsSpace(s[i]) && (i + 1 == |s| || IsSpace(s[i + 1]))
  }

  /** The number of maximal runs of non-whitespace characters, counted by where they end. */
  function Words(s: string): nat
    decreases |s|
  {
    if s == [] then 0 else (if EndsWord(s, 0) then 1 else 0) + Words(s[1..])
  }

  function Edge(b: bool): nat {
    if b then 1 else 0
  }

  predicate LeadingSpace(s: string) {
    s != [] && IsSpace(s[0])
  }

  predicate TrailingSpace(s: string) {
    s == [] || IsSpace(s[|s| - 1])
  }

  /** Leading whitespace ends no word. */
  lemma {:induction false} WordsSkip(s: string, k: nat)
    requires k <= |s| && forall i :: 0 <= i < k ==> IsSpace(s[i])
    ensures Words(s) == Words(s[k..])
    decreases k
  {
    if k == 0 {
      assert s[0..] == s;
    } else {
      assert s[1..][k - 1..] == s[k..];
      WordsSkip(s[1..], k - 1);
    }
  }

  /** Trailing whitespace ends no word and does not change where the last word ends. */
  lemma {:induction false} WordsDropTrail(p: string, q: string)
    requires forall i :: 0 <= i < |q| ==> IsSpace(q[i])
    ensures Words(p + q) == Words(p)
    decreases |p|
  {
    if p == [] {
      assert p + q == q;
      WordsSkip(q, |q|);
    } else {
      assert (p + q)[1..] == p[1..] + q;
      if |p| > 1 {
        assert (p + q)[1] == p[1];
      } else if q != [] {
        assert (p + q)[1] == q[0];
      }
      assert EndsWord(p + q, 0) == EndsWord(p, 0);
      WordsDropTrail(p[1..], q);
    }
  }

  lemma WordsTrimStart(s: string)
    ensures Words(TrimStart(s)) == Words(s)
  {
    WordsSkip(s, |s| - |TrimStart(s)|);
  }

  lemma WordsTrimEnd(t: string)
    ensures Words(TrimEnd(t)) == Words(t)
  {
    var u := TrimEnd(t);
    var q := t[|u|..];
    assert t == u + q;
    WordsDropTrail(u, q);
  }

  /** Trimming loses no word. */
  lemma WordsOfTrim(s: string)
    ensures Words(Trim(s)) == Words(s)
  {
    assert Trim(s) == TrimEnd(TrimStart(s));
    WordsTrimStart(s);
    WordsTrimEnd(TrimStart(s));
  }

  /**
   * The split yields one piece per word, plus an empty piece for a leading
   * and for a trailing run of whitespace (the empty text counts as trailing).
   */
  lemma {:induction false} SplitCount(s: string)
    ensures |SplitWhitespace(s)| == Words(s) + Edge(LeadingSpace(s)) + Edge(TrailingSpace(s))
    decreases |s|
  {
    if s == [] {
    } else if IsSpace(s[0]) {
      SplitCount(TrimStart(s));
      SplitCountSpace(s);
    } else {
      SplitCount(s[1..]);
      SplitCountWord(s);
    }
  }

  lemma SplitCountSpace(s: string)
    requires s != [] && IsSpace(s[0])
    requires var t := TrimStart(s);
      |SplitWhitespace(t)| == Words(t) + Edge(LeadingSpace(t)) + Edge(TrailingSpace(t))
    ensures |SplitWhitespace(s)| == Words(s) + Edge(LeadingSpace(s)) + Edge(TrailingSpace(s))
  {
    var t := TrimStart(s);
    assert |SplitWhitespace(s)| == 1 + |SplitWhitespace(t)|;
    WordsSkip(s, |s| - |t|);
    assert !LeadingSpace(t);
    if t != [] {
      assert t[|t| - 1] == s[|s| - 1];
    }
    assert TrailingSpace(t) == TrailingSpace(s);
  }

  lemma SplitCountWord(s: string)
    requires s != [] && !IsSpace(s[0])
    requires var t := s[1..];
      |SplitWhitespace(t)| == Words(t) + Edge(LeadingSpace(t)) + Edge(TrailingSpace(t))
    ensures |SplitWhitespace(s)| == Words(s) + Edge(LeadingSpace(s)) + Edge(TrailingSpace(s))
  {
    var t := s[1..];
    assert |SplitWhitespace(s)| == |SplitWhitespace(t)|;
    assert Words(s) == Edge(EndsWord(s, 0)) + Words(t);
    if |s| > 1 {
      assert t[0] == s[1];
      assert t[|t| - 1] == s[|s| - 1];
    }
  }

  /**
   * `wordCount`: 0 for a blank text, otherwise the number of pieces of the
   * trimmed text split on whitespace runs, which is the number of words.
   */
  function WordCount(value: string): (n: nat)
    ensures n == Words(value)
    ensures n == 0 <==> Blank(value)
  {
    if Trim(value) == "" then
      WordsSkip(value, |value|);
      0
    else
      var u := Trim(value);
      SplitCount(u);
      WordsOfTrim(value);
      |SplitWhitespace(u)|
  }

  /** `charCount`: the length of the text. */
  function CharCount(value: string): nat {
    |value|
  }

  /** Every word holds at least one character. */
  lemma {:induction false} WordsAtMostChars(s: string)
    ensures WordCount(s) <= CharCount(s)
    decreases |s|
  {
    if s != [] {
      WordsAtMostChars(s[1..]);
    }
  }

  /** The Clear button shows exactly when there is any text, even whitespace only. */
  predicate ClearShown(value: string) {
    |value| > 0
  }

  /** Clicking Clear (`onChange("")`) leaves no words, no characters and no Clear button. */
  function Clear(value: string): (r: string)
    requires ClearShown(value)
    ensures WordCount(r) == 0 && CharCount(r) == 0 && !ClearShown(r)
  {
    ""
  }
}
