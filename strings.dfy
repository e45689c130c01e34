/** The operations of Python's `str` that the core applies to text. */
module Strings {

  /** Python's `str.isspace()` for one character (the characters with bidirectional
      type WS, B or S, or in category Zs). */
  predicate IsSpace(c: char) {
    var n := c as int;
    (9 <= n <= 13) || (28 <= n <= 32) || n == 0x85 || n == 0xA0 || n == 0x1680
    || (0x2000 <= n <= 0x200A) || n == 0x2028 || n == 0x2029 || n == 0x202F
    || n == 0x205F || n == 0x3000
  }

  predicate IsAsciiUpper(c: char) { 'A' <= c <= 'Z' }
  predicate IsAsciiLower(c: char) { 'a' <= c <= 'z' }
  predicate IsAsciiDigit(c: char) { '0' <= c <= '9' }
  predicate IsAsciiLetter(c: char) { IsAsciiUpper(c) || IsAsciiLower(c) }

  /** No character of `s` is whitespace. */
  predicate NoSpace(s: string) { forall k :: 0 <= k < |s| ==> !IsSpace(s[k]) }

  function UpperChar(c: char): (r: char)
    ensures IsSpace(r) <==> IsSpace(c)
  {
    if IsAsciiLower(c) then (c as int - 32) as char else c
  }

  function LowerChar(c: char): (r: char)
    ensures IsSpace(r) <==> IsSpace(c)
  {
    if IsAsciiUpper(c) then (c as int + 32) as char else c
  }

  /** `s.upper()`, on the ASCII letters. */
  function Upper(s: string): (r: string)
    ensures |r| == |s| && forall k :: 0 <= k < |s| ==> r[k] == UpperChar(s[k])
  {
    seq(|s|, k requires 0 <= k < |s| => UpperChar(s[k]))
  }

  /** `s.lower()`, on the ASCII letters. */
  function Lower(s: string): (r: string)
    ensures |r| == |s| && forall k :: 0 <= k < |s| ==> r[k] == LowerChar(s[k])
  {
    seq(|s|, k requires 0 <= k < |s| => LowerChar(s[k]))
  }

  /** `needle` occurs in `hay` starting at index `i`. */
  predicate OccursAt(hay: string, needle: string, i: int) {
    0 <= i <= |hay| - |needle| && hay[i..i + |needle|] == needle
  }

  /** `needle in hay`: Python's substring test. */
  predicate Contains(hay: string, needle: string) {
    exists i | 0 <= i <= |hay| - |needle| :: OccursAt(hay, needle, i)
  }

  /** `s.lstrip()`. */
  function TrimStart(s: string): string
  {
    if |s| > 0 && IsSpace(s[0]) then TrimStart(s[1..]) else s
  }

  /** `s.rstrip()`. */
  function TrimEnd(s: string): string
  {
    if |s| > 0 && IsSpace(s[|s| - 1]) then TrimEnd(s[..|s| - 1]) else s
  }

  /** `s.lstrip()` is a suffix of `s` that does not start with whitespace, and all it cuts
      is whitespace. */
  lemma {:induction false} TrimStartShape(s: string)
    ensures var r := TrimStart(s);
      && |r| <= |s| && r == s[|s| - |r|..]
      && (r == [] || !IsSpace(r[0]))
      && forall k :: 0 <= k < |s| - |r| ==> IsSpace(s[k])
    decreases |s|
  {
    if |s| > 0 && IsSpace(s[0]) {
      TrimStartShape(s[1..]);
      var r := TrimStart(s);
      forall k | 0 < k < |s| - |r| ensures IsSpace(s[k]) {
        assert s[k] == s[1..][k - 1];
      }
    }
  }

  /** `s.rstrip()` is a prefix of `s` that does not end with whitespace, and all it cuts
      is whitespace. */
  lemma {:induction false} TrimEndShape(s: string)
    ensures var r := TrimEnd(s);
      && |r| <= |s| && r == s[..|r|]
      && (r == [] || !IsSpace(r[|r| - 1]))
      && forall k :: |r| <= k < |s| ==> IsSpace(s[k])
    decreases |s|
  {
    if |s| > 0 && IsSpace(s[|s| - 1]) {
      TrimEndShape(s[..|s| - 1]);
      var r := TrimEnd(s);
      forall k | |r| <= k < |s| - 1 ensures IsSpace(s[k]) {
        assert s[k] == s[..|s| - 1][k];
      }
    }
  }

  /** `s.strip()`: `s` without its leading and trailing whitespace. */
  function Strip(s: string): string
  {
    TrimEnd(TrimStart(s))
  }

  /** `s.strip()` is a piece of `s` that neither starts nor ends with whitespace, with only
      whitespace cut on either side. */
  lemma StripIsInfix(s: string)
    ensures var r := Strip(s);
      && (r == [] || (!IsSpace(r[0]) && !IsSpace(r[|r| - 1])))
      && (exists i :: OccursAt(s, r, i)
            && (forall k :: 0 <= k < i ==> IsSpace(s[k]))
            && (forall k :: i + |r| <= k < |s| ==> IsSpace(s[k])))
  {
    var front := TrimStart(s);
    TrimStartShape(s);
    TrimEndShape(front);
    var r := TrimEnd(front);
    var i := |s| - |front|;
    assert s[i..i + |r|] == front[..|r|];
    forall k | i + |r| <= k < |s| ensures IsSpace(s[k]) {
      assert s[k] == front[k - i];
    }
    assert r == Strip(s);
    assert OccursAt(s, r, i) && (forall k :: 0 <= k < i ==> IsSpace(s[k]))
      && (forall k :: i + |r| <= k < |s| ==> IsSpace(s[k]));
  }

  /** `s.replace(" ", "_")`. */
  function SpacesToUnderscores(s: string): (r: string)
    ensures |r| == |s| && ' ' !in r
    ensures forall k :: 0 <= k < |s| ==> r[k] == (if s[k] == ' ' then '_' else s[k])
  {
    seq(|s|, k requires 0 <= k < |s| => if s[k] == ' ' then '_' else s[k])
  }

  /** The pieces of `s` between occurrences of `sep`, joined back with `sep`. */
  function Join(pieces: seq<string>, sep: char): string
    requires |pieces| >= 1
  {
    if |pieces| == 1 then pieces[0] else pieces[0] + [sep] + Join(pieces[1..], sep)
  }

  /** `s.split(sep)` for a one-character separator. */
  function Split(s: string, sep: char): (r: seq<string>)
    ensures |r| >= 1
    ensures forall p :: p in r ==> sep !in p
    ensures Join(r, sep) == s
  {
    if s == [] then [""]
    else if s[0] == sep then [""] + Split(s[1..], sep)
    else
      var rest := Split(s[1..], sep);
      [[s[0]] + rest[0]] + rest[1..]
  }

  /** The index of the first occurrence of `c` in `s`. */
  function FirstIndex(s: string, c: char): (i: nat)
    requires c in s
    ensures i < |s| && s[i] == c && c !in s[..i]
  {
    if s[0] == c then 0 else 1 + FirstIndex(s[1..], c)
  }

  /** `needle` starts and ends with a character that is not whitespace. */
  predicate SpaceBounded(needle: string) {
    |needle| > 0 && !IsSpace(needle[0]) && !IsSpace(needle[|needle| - 1])
  }

  /** Removing one whitespace character at the front of the text does not change whether
      a word that starts with a non-whitespace character occurs in it. */
  lemma {:induction false} ContainsDropFront(hay: string, w: string)
    requires |hay| > 0 && IsSpace(hay[0]) && SpaceBounded(w)
    ensures Contains(hay, w) <==> Contains(hay[1..], w)
  {
    if Contains(hay, w) {
      var i: int :| OccursAt(hay, w, i);
      assert OccursAt(hay, w, i);
      assert hay[i] == w[0];
      assert hay[1..][i - 1..i - 1 + |w|] == w;
      assert OccursAt(hay[1..], w, i - 1);
    }
    if Contains(hay[1..], w) {
      var i: int :| OccursAt(hay[1..], w, i);
      assert OccursAt(hay[1..], w, i);
      assert hay[i + 1..i + 1 + |w|] == w;
      assert OccursAt(hay, w, i + 1);
    }
  }

  /** The same at the back. */
  lemma {:induction false} ContainsDropBack(hay: string, w: string)
    requires |hay| > 0 && IsSpace(hay[|hay| - 1]) && SpaceBounded(w)
    ensures Contains(hay, w) <==> Contains(hay[..|hay| - 1], w)
  {
    if Contains(hay, w) {
      var i: int :| OccursAt(hay, w, i);
      assert OccursAt(hay, w, i);
      assert hay[i + |w| - 1] == w[|w| - 1];
      assert hay[..|hay| - 1][i..i + |w|] == w;
      assert OccursAt(hay[..|hay| - 1], w, i);
    }
    if Contains(hay[..|hay| - 1], w) {
      var i: int :| OccursAt(hay[..|hay| - 1], w, i);
      assert OccursAt(hay[..|hay| - 1], w, i);
      assert hay[i..i + |w|] == w;
      assert OccursAt(hay, w, i);
    }
  }

  lemma {:induction false} TrimStartKeepsWord(s: string, w: string)
    requires SpaceBounded(w)
    ensures Contains(TrimStart(s), w) <==> Contains(s, w)
    decreases |s|
  {
    if |s| > 0 && IsSpace(s[0]) {
      ContainsDropFront(s, w);
      TrimStartKeepsWord(s[1..], w);
    }
  }

  lemma {:induction false} TrimEndKeepsWord(s: string, w: string)
    requires SpaceBounded(w)
    ensures Contains(TrimEnd(s), w) <==> Contains(s, w)
    decreases |s|
  {
    if |s| > 0 && IsSpace(s[|s| - 1]) {
      ContainsDropBack(s, w);
      TrimEndKeepsWord(s[..|s| - 1], w);
    }
  }

  /** Stripping whitespace never decides whether a word that starts and ends with
      non-whitespace occurs in the text: `w in s.strip()` iff `w in s`. */
  lemma StripKeepsWord(s: string, w: string)
    requires SpaceBounded(w)
    ensures Contains(Strip(s), w) <==> Contains(s, w)
  {
    TrimEndKeepsWord(TrimStart(s), w);
    TrimStartKeepsWord(s, w);
  }

  lemma {:induction false} UpperTrimStart(s: string)
    ensures Upper(TrimStart(s)) == TrimStart(Upper(s))
    decreases |s|
  {
    if |s| > 0 && IsSpace(s[0]) {
      assert Upper(s)[1..] == Upper(s[1..]);
      UpperTrimStart(s[1..]);
    }
  }

  lemma {:induction false} UpperTrimEnd(s: string)
    ensures Upper(TrimEnd(s)) == TrimEnd(Upper(s))
    decreases |s|
  {
    if |s| > 0 && IsSpace(s[|s| - 1]) {
      assert Upper(s)[..|s| - 1] == Upper(s[..|s| - 1]);
      UpperTrimEnd(s[..|s| - 1]);
    }
  }

  /** Upper-casing and stripping commute: `s.strip().upper() == s.upper().strip()`. */
  lemma UpperStrip(s: string)
    ensures Upper(Strip(s)) == Strip(Upper(s))
  {
    UpperTrimStart(s);
    UpperTrimEnd(TrimStart(s));
  }
}
