/**
 * The three JavaScript string operations the pipeline relies on:
 * `String.prototype.trim`, `split(/\s+/)` and `includes`.
 * Whitespace is the ECMAScript WhiteSpace and LineTerminator set, which
 * is the set used both by `trim` and by the `\s` class of a RegExp.
 */
module JsText {

  /** ECMAScript WhiteSpace or LineTerminator code point. */
  predicate IsSpace(c: char) {
    || c == ' ' || c == '\t' || c == '\n' || c == '\r'
    || c == '\U{B}' || c == '\U{C}' || c == '\U{A0}' || c == '\U{1680}'
    || ('\U{2000}' <= c <= '\U{200A}')
    || c == '\U{2028}' || c == '\U{2029}' || c == '\U{202F}' || c == '\U{205F}'
    || c == '\U{3000}' || c == '\U{FEFF}'
  }

  /** All whitespace: exactly when `!s.trim()` holds (`TrimEmptyIffBlank`). */
  predicate AllSpace(s: string) {
    forall i :: 0 <= i < |s| ==> IsSpace(s[i])
  }

  predicate NoSpace(s: string) {
    forall i :: 0 <= i < |s| ==> !IsSpace(s[i])
  }

  /** Drops the leading whitespace (the first half of `trim`). */
  function TrimStart(s: string): (r: string)
    ensures |r| <= |s| && r == s[|s| - |r|..]
    ensures r == [] || !IsSpace(r[0])
    ensures AllSpace(s[..|s| - |r|])
    ensures s != [] && IsSpace(s[0]) ==> |r| < |s|
  {
    if s != [] && IsSpace(s[0]) then TrimStart(s[1..]) else s
  }

  /** Drops the trailing whitespace (the second half of `trim`). */
  function TrimEnd(s: string): (r: string)
    ensures |r| <= |s| && r == s[..|r|]
    ensures r == [] || !IsSpace(r[|r| - 1])
    ensures AllSpace(s[|r|..])
  {
    if s != [] && IsSpace(s[|s| - 1]) then TrimEnd(s[..|s| - 1]) else s
  }

  /** `s.trim()`: the text between the leading and the trailing whitespace. */
  function Trim(s: string): (r: string)
    ensures |r| <= |s|
    ensures r == [] || (!IsSpace(r[0]) && !IsSpace(r[|r| - 1]))
  {
    TrimEnd(TrimStart(s))
  }

  /** `s.trim()` is a slice of `s` with only whitespace before and after it. */
  lemma TrimIsInnerSlice(s: string)
    ensures var r := Trim(s);
      exists i :: 0 <= i && i + |r| <= |s| && r == s[i..i + |r|] && AllSpace(s[..i]) && AllSpace(s[i + |r|..])
  {
    var t := TrimStart(s);
    var r := TrimEnd(t);
    var i := |s| - |t|;
    assert t == s[i..] && r == t[..|r|];
    assert r == s[i..i + |r|];
    assert t[|r|..] == s[i + |r|..];
    assert AllSpace(s[..i]) && AllSpace(s[i + |r|..]);
    assert r == Trim(s);
  }

  /** `s.trim()` is empty exactly when `s` is all whitespace. */
  lemma TrimEmptyIffBlank(s: string)
    ensures Trim(s) == [] <==> AllSpace(s)
  {
    var t := TrimStart(s);
    var r := TrimEnd(t);
    if r == [] {
      assert AllSpace(t);
      assert s == s[..|s| - |t|] + t;
    } else {
      assert r[0] == s[|s| - |t|];
    }
  }

  /**
   * `s.split(/\s+/)`: the pieces between maximal runs of whitespace.
   * Leading or trailing whitespace yields an empty first or last piece,
   * and the empty string yields the single piece "".
   */
  function Split(s: string): (r: seq<string>)
    ensures |r| >= 1
    ensures forall k :: 0 <= k < |r| ==> NoSpace(r[k])
    decreases |s|
  {
    if s == [] then [[]]
    else if IsSpace(s[0]) then [[]] + Split(TrimStart(s))
    else
      var t := Split(s[1..]);
      assert NoSpace([s[0]] + t[0]);
      [[s[0]] + t[0]] + t[1..]
  }

  /** `text.trim().split(/\s+/).length`: the word count used by the pipeline. */
  function WordCount(text: string): (n: nat)
    ensures n >= 1
  {
    |Split(Trim(text))|
  }

  /**
   * The inverse of Split: words interleaved with whitespace gaps.
   * `JoinWords([w0, w1, w2], [g0, g1]) == w0 + g0 + w1 + g1 + w2`.
   */
  function JoinWords(words: seq<string>, gaps: seq<string>): (r: string)
    requires |words| >= 1 && |gaps| == |words| - 1
    ensures |words[0]| <= |r| && r[..|words[0]|] == words[0]
    ensures |words[|words| - 1]| <= |r| && r[|r| - |words[|words| - 1]|..] == words[|words| - 1]
  {
    if |words| == 1 then words[0]
    else
      var rest := JoinWords(words[1..], gaps[1..]);
      var r := words[0] + gaps[0] + rest;
      assert r[|r| - |rest|..] == rest;
      r
  }

  /** Words are non-empty and hold no whitespace; gaps are non-empty whitespace. */
  predicate WellSeparated(words: seq<string>, gaps: seq<string>) {
    && |words| >= 1 && |gaps| == |words| - 1
    && (forall k :: 0 <= k < |words| ==> words[k] != [] && NoSpace(words[k]))
    && (forall k :: 0 <= k < |gaps| ==> gaps[k] != [] && AllSpace(gaps[k]))
  }

  /** Splitting a word followed by anything glues the word to the first piece. */
  lemma {:induction false} SplitAfterWord(w: string, x: string)
    requires NoSpace(w)
    ensures Split(w + x) == [w + Split(x)[0]] + Split(x)[1..]
    decreases |w|
  {
    if w != [] {
      var s := w + x;
      assert s[0] == w[0] && !IsSpace(s[0]);
      assert s[1..] == w[1..] + x;
      var t := Split(s[1..]);
      assert Split(s) == [[s[0]] + t[0]] + t[1..];
      SplitAfterWord(w[1..], x);
      assert [w[0]] + (w[1..] + Split(x)[0]) == w + Split(x)[0];
    } else {
      assert w + x == x;
      var t := Split(x);
      assert t == [t[0]] + t[1..];
      assert w + t[0] == t[0];
    }
  }

  /** A whitespace gap before a word-initial text becomes one empty piece. */
  lemma {:induction false} SplitAfterGap(g: string, x: string)
    requires g != [] && AllSpace(g)
    requires x == [] || !IsSpace(x[0])
    ensures Split(g + x) == [[]] + Split(x)
  {
    TrimStartOfGap(g, x);
  }

  lemma {:induction false} TrimStartOfGap(g: string, x: string)
    requires AllSpace(g)
    requires x == [] || !IsSpace(x[0])
    ensures TrimStart(g + x) == x
    decreases |g|
  {
    if g != [] {
      assert (g + x)[1..] == g[1..] + x;
      TrimStartOfGap(g[1..], x);
    } else {
      assert g + x == x;
    }
  }

  /** A word, a whitespace gap and a word-initial rest split into the word followed by the rest's pieces. */
  lemma {:induction false} SplitWordGapRest(w: string, g: string, rest: string)
    requires NoSpace(w) && g != [] && AllSpace(g)
    requires rest == [] || !IsSpace(rest[0])
    ensures Split(w + g + rest) == [w] + Split(rest)
  {
    SplitAfterGap(g, rest);
    assert w + g + rest == w + (g + rest);
    SplitAfterWord(w, g + rest);
    assert w + [] == w;
  }

  /** Dropping the first word and the first gap leaves well-separated words. */
  lemma WellSeparatedTail(words: seq<string>, gaps: seq<string>)
    requires WellSeparated(words, gaps) && |words| >= 2
    ensures WellSeparated(words[1..], gaps[1..])
  {
    var ws, gs := words[1..], gaps[1..];
    forall k | 0 <= k < |ws| ensures ws[k] != [] && NoSpace(ws[k]) {
      assert ws[k] == words[k + 1];
    }
    forall k | 0 <= k < |gs| ensures gs[k] != [] && AllSpace(gs[k]) {
      assert gs[k] == gaps[k + 1];
    }
  }

  /** Round trip: splitting well-separated words gives the words back. */
  lemma {:induction false} SplitJoinWords(words: seq<string>, gaps: seq<string>)
    requires WellSeparated(words, gaps)
    ensures Split(JoinWords(words, gaps)) == words
    decreases |words|
  {
    if |words| == 1 {
      SplitAfterWord(words[0], []);
      assert words[0] + [] == words[0];
    } else {
      var w, g, ws, gs := words[0], gaps[0], words[1..], gaps[1..];
      var rest := JoinWords(ws, gs);
      assert JoinWords(words, gaps) == w + g + rest;
      WellSeparatedTail(words, gaps);
      SplitJoinWords(ws, gs);
      assert rest[0] == ws[0][0] by {
        assert rest[..|ws[0]|] == ws[0];
      }
      assert NoSpace(w) && g != [] && AllSpace(g) && !IsSpace(rest[0]);
      SplitWordGapRest(w, g, rest);
      assert words == [w] + ws;
    }
  }

  /** Trimming text that neither starts nor ends with whitespace changes nothing. */
  lemma TrimOfTrimmed(s: string)
    requires s == [] || (!IsSpace(s[0]) && !IsSpace(s[|s| - 1]))
    ensures Trim(s) == s
  {
  }

  /** Text made of `n` well-separated words has word count `n`. */
  lemma WordCountOfWords(words: seq<string>, gaps: seq<string>)
    requires WellSeparated(words, gaps)
    ensures WordCount(JoinWords(words, gaps)) == |words|
  {
    var s := JoinWords(words, gaps);
    var last := words[|words| - 1];
    assert s[0] == words[0][0];
    assert s[|s| - 1] == last[|last| - 1];
    TrimOfTrimmed(s);
    SplitJoinWords(words, gaps);
  }

  /** Empty or whitespace-only text splits into the single empty piece. */
  lemma WordCountOfBlank(text: string)
    requires AllSpace(text)
    ensures Split(Trim(text)) == [[]]
    ensures WordCount(text) == 1
  {
  }

  /** `s.startsWith(p)` */
  predicate StartsWith(s: string, p: string) {
    |p| <= |s| && s[..|p|] == p
  }

  /** `sub` occurs in `s` starting at position `i`. */
  predicate OccursAt(s: string, sub: string, i: int) {
    0 <= i <= |s| - |sub| && s[i..i + |sub|] == sub
  }

  /** `s.includes(sub)`: `sub` occurs somewhere in `s`. */
  predicate Includes(s: string, sub: string)
    decreases |s|
  {
    StartsWith(s, sub) || (s != [] && Includes(s[1..], sub))
  }

  /** Includes agrees with the positional definition of an occurrence. */
  lemma {:induction false} IncludesAt(s: string, sub: string)
    ensures Includes(s, sub) <==> exists i :: OccursAt(s, sub, i)
    decreases |s|
  {
    if Includes(s, sub) {
      if StartsWith(s, sub) {
        assert OccursAt(s, sub, 0);
      } else {
        IncludesAt(s[1..], sub);
        var i :| OccursAt(s[1..], sub, i);
        assert s[i + 1..i + 1 + |sub|] == s[1..][i..i + |sub|];
        assert OccursAt(s, sub, i + 1);
      }
    }
    if exists i :: OccursAt(s, sub, i) {
      var i :| OccursAt(s, sub, i);
      if i == 0 {
        assert StartsWith(s, sub);
      } else {
        assert s[1..][i - 1..i - 1 + |sub|] == s[i..i + |sub|];
        assert OccursAt(s[1..], sub, i - 1);
        IncludesAt(s[1..], sub);
      }
    }
  }

  /**
   * `sub` is absent from `s` when no position matches both its first
   * character and its character at offset `d`.
   */
  lemma NotIncluded(s: string, sub: string, d: nat)
    requires d < |sub|
    requires forall i :: 0 <= i <= |s| - |sub| ==> s[i] != sub[0] || s[i + d] != sub[d]
    ensures !Includes(s, sub)
  {
    IncludesAt(s, sub);
    forall i | 0 <= i <= |s| - |sub| ensures !OccursAt(s, sub, i) {
      if s[i] != sub[0] {
        assert s[i..i + |sub|][0] != sub[0];
      } else {
        assert s[i..i + |sub|][d] != sub[d];
      }
    }
  }
}
