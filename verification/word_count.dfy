/**
 * The word count that guards argument submission:
 * `inputValue.trim().split(/\s+/).length`.
 *
 * `Trim` and `Split` follow the ECMAScript string operations: both `trim`
 * and the regular-expression class `\s` use the same set of characters
 * (WhiteSpace and LineTerminator), given by `IsWhitespace`. The count they
 * produce is related to an independent definition, `Words`, the number of
 * maximal runs of non-whitespace characters.
 */
module WordCounting {

  /** ECMAScript WhiteSpace and LineTerminator code points. */
  predicate IsWhitespace(c: char) {
    || c == '\t' || c == '\n' || c == '\U{000B}' || c == '\U{000C}' || c == '\r'
    || c == ' ' || c == '\U{00A0}' || c == '\U{1680}'
    || ('\U{2000}' <= c <= '\U{200A}')
    || c == '\U{2028}' || c == '\U{2029}' || c == '\U{202F}' || c == '\U{205F}'
    || c == '\U{3000}' || c == '\U{FEFF}'
  }

  /** Every character of `s[lo..hi]` is whitespace. */
  ghost predicate SpaceBetween(s: string, lo: nat, hi: nat)
    requires lo <= hi <= |s|
  {
    forall m :: lo <= m < hi ==> IsWhitespace(s[m])
  }

  /** No character of `s[lo..hi]` is whitespace. */
  ghost predicate WordBetween(s: string, lo: nat, hi: nat)
    requires lo <= hi <= |s|
  {
    forall m :: lo <= m < hi ==> !IsWhitespace(s[m])
  }

  /** The end of the whitespace run of `s` that starts at `i`. */
  function SkipSpace(s: string, i: nat): (k: nat)
    requires i <= |s|
    ensures i <= k <= |s|
    ensures SpaceBetween(s, i, k)
    ensures k < |s| ==> !IsWhitespace(s[k])
    decreases |s| - i
  {
    if i < |s| && IsWhitespace(s[i]) then SkipSpace(s, i + 1) else i
  }

  /** The end of the whitespace-free run of `s` that starts at `i`. */
  function SkipWord(s: string, i: nat): (k: nat)
    requires i <= |s|
    ensures i <= k <= |s|
    ensures WordBetween(s, i, k)
    ensures k < |s| ==> IsWhitespace(s[k])
    decreases |s| - i
  {
    if i < |s| && !IsWhitespace(s[i]) then SkipWord(s, i + 1) else i
  }

  /** The start of the whitespace run of `s[lo..hi]` that ends at `hi`. */
  function BackOverSpace(s: string, lo: nat, hi: nat): (k: nat)
    requires lo <= hi <= |s|
    ensures lo <= k <= hi
    ensures SpaceBetween(s, k, hi)
    ensures lo < k ==> !IsWhitespace(s[k - 1])
    decreases hi - lo
  {
    if lo < hi && IsWhitespace(s[hi - 1]) then BackOverSpace(s, lo, hi - 1) else hi
  }

  /** `String.prototype.trim`: `s` without its leading and trailing whitespace. */
  function Trim(s: string): (t: string)
    ensures |t| > 0 ==> !IsWhitespace(t[0]) && !IsWhitespace(t[|t| - 1])
    ensures var a := SkipSpace(s, 0);
      && a + |t| <= |s|
      && t == s[a..a + |t|]
      && SpaceBetween(s, 0, a)
      && SpaceBetween(s, a + |t|, |s|)
  {
    var a := SkipSpace(s, 0);
    s[a..BackOverSpace(s, a, |s|)]
  }

  /**
   * `s[i..].split(/\s+/)`: the pieces of `s[i..]` between maximal runs of
   * whitespace. A leading or trailing run yields an empty piece; the empty
   * string yields one empty piece.
   */
  function SplitFrom(s: string, i: nat): (pieces: seq<string>)
    requires i <= |s|
    ensures |pieces| >= 1
    decreases |s| - i
  {
    var e := SkipWord(s, i);
    if e == |s| then [s[i..]]
    else [s[i..e]] + SplitFrom(s, SkipSpace(s, e))
  }

  /** `s.split(/\s+/)`. */
  function Split(s: string): (pieces: seq<string>)
    ensures |pieces| >= 1
  {
    SplitFrom(s, 0)
  }

  /** Every piece of a split is free of whitespace. */
  lemma {:induction false} SplitPiecesHaveNoSpace(s: string, i: nat)
    requires i <= |s|
    ensures forall k :: 0 <= k < |SplitFrom(s, i)| ==> WordBetween(SplitFrom(s, i)[k], 0, |SplitFrom(s, i)[k]|)
    decreases |s| - i
  {
    var e := SkipWord(s, i);
    var piece := s[i..e];
    assert WordBetween(piece, 0, |piece|) by {
      forall m | 0 <= m < |piece| ensures !IsWhitespace(piece[m]) {
        assert piece[m] == s[i + m];
      }
    }
    if e < |s| {
      SplitPiecesHaveNoSpace(s, SkipSpace(s, e));
    }
  }

  /** The count compared against the limit of 50 words. */
  function WordCount(s: string): (n: nat)
    ensures n >= 1
  {
    |Split(Trim(s))|
  }

  /**
   * The number of maximal runs of non-whitespace characters that start in
   * `s[i..hi]`; `afterSpace` says whether the character before position `i`
   * is whitespace (or `i` is the start of the text).
   */
  function WordStarts(s: string, i: nat, hi: nat, afterSpace: bool): nat
    requires i <= hi <= |s|
    decreases hi - i
  {
    if i == hi then 0
    else
      (if afterSpace && !IsWhitespace(s[i]) then 1 else 0)
      + WordStarts(s, i + 1, hi, IsWhitespace(s[i]))
  }

  /** The number of words of `s`, in the usual sense. */
  function Words(s: string): nat {
    WordStarts(s, 0, |s|, true)
  }

  /** A whitespace run holds no word start. */
  lemma {:induction false} StartsSkipSpace(s: string, i: nat, k: nat, hi: nat, afterSpace: bool)
    requires i < k <= hi <= |s|
    requires SpaceBetween(s, i, k)
    ensures WordStarts(s, i, hi, afterSpace) == WordStarts(s, k, hi, true)
    decreases k - i
  {
    if i + 1 < k {
      StartsSkipSpace(s, i + 1, k, hi, true);
    }
  }

  /** A non-empty whitespace-free run holds one word start, or none if it continues a word. */
  lemma {:induction false} StartsSkipWord(s: string, i: nat, k: nat, hi: nat, afterSpace: bool)
    requires i < k <= hi <= |s|
    requires WordBetween(s, i, k)
    ensures WordStarts(s, i, hi, afterSpace) == (if afterSpace then 1 else 0) + WordStarts(s, k, hi, false)
    decreases k - i
  {
    if i + 1 < k {
      StartsSkipWord(s, i + 1, k, hi, false);
    }
  }

  /** Trailing whitespace holds no word start. */
  lemma {:induction false} StartsDropSpace(s: string, i: nat, b: nat, hi: nat, afterSpace: bool)
    requires i <= b <= hi <= |s|
    requires SpaceBetween(s, b, hi)
    ensures WordStarts(s, i, hi, afterSpace) == WordStarts(s, i, b, afterSpace)
    decreases b - i
  {
    if i < b {
      StartsDropSpace(s, i + 1, b, hi, IsWhitespace(s[i]));
    } else if b < hi {
      StartsSkipSpace(s, b, hi, hi, afterSpace);
    }
  }

  /** Counting in a slice is counting in the whole text between the slice's ends. */
  lemma {:induction false} StartsInSlice(s: string, a: nat, b: nat, i: nat, afterSpace: bool)
    requires a <= b <= |s| && i <= b - a
    ensures WordStarts(s[a..b], i, b - a, afterSpace) == WordStarts(s, a + i, b, afterSpace)
    decreases b - a - i
  {
    if i < b - a {
      assert s[a..b][i] == s[a + i];
      StartsInSlice(s, a, b, i + 1, IsWhitespace(s[a + i]));
    }
  }

  /** On trimmed text, splitting from the start of a word yields one piece per word. */
  lemma {:induction false} SplitCountsWords(t: string, i: nat)
    requires i < |t| && !IsWhitespace(t[i]) && !IsWhitespace(t[|t| - 1])
    ensures |SplitFrom(t, i)| == WordStarts(t, i, |t|, true)
    decreases |t| - i
  {
    var e := SkipWord(t, i);
    assert i < e;
    if e == |t| {
      StartsSkipWord(t, i, e, |t|, true);
    } else {
      var k := SkipSpace(t, e);
      if k == |t| {
        assert false;
      }
      SplitCountsWords(t, k);
      StartsSkipWord(t, i, e, |t|, true);
      StartsSkipSpace(t, e, k, |t|, false);
    }
  }

  /**
   * The submitted word count is the number of words, except that text
   * with no word at all (empty or only whitespace) still counts as one.
   */
  lemma {:induction false} WordCountIsWords(s: string)
    ensures WordCount(s) == if Words(s) == 0 then 1 else Words(s)
  {
    var t := Trim(s);
    var a := SkipSpace(s, 0);
    var b := a + |t|;
    if a > 0 {
      StartsSkipSpace(s, 0, a, |s|, true);
    }
    StartsDropSpace(s, a, b, |s|, true);
    StartsInSlice(s, a, b, 0, true);
    assert Words(s) == Words(t);
    if |t| == 0 {
      assert Split(t) == [""];
    } else {
      SplitCountsWords(t, 0);
    }
  }

  /** Empty or all-whitespace input counts as one word. */
  lemma BlankTextIsOneWord(s: string)
    requires SpaceBetween(s, 0, |s|)
    ensures WordCount(s) == 1
  {
    WordCountIsWords(s);
    if |s| > 0 {
      StartsSkipSpace(s, 0, |s|, |s|, true);
    }
  }
}
