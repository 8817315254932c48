/**
 The text primitives the intent classifier and the request router rely on:
 Python's `str.strip()`, ASCII `str.lower()`, `startswith`, the `in` substring
 test and the `\b` word boundary of Python's `re` module.

 Strings are `seq<char>`. Lowercasing and the regex word class `\w` are
 restricted to ASCII.
 */
module Strings {

  /** The characters for which Python's `str.isspace()` holds, i.e. what
      `str.strip()` removes from both ends. */
  predicate IsSpace(c: char): (b: bool)
    ensures c == ' ' || c == '\t' || c == '\n' || c == '\r' ==> b
    ensures b ==> !IsUpper(c)
  {
    || c == ' '
    || ('\t' <= c <= '\r')            // \t \n \v \f \r
    || ('\U{1C}' <= c <= '\U{1F}')    // file, group, record and unit separators
    || c == '\U{85}' || c == '\U{A0}' || c == '\U{1680}'
    || ('\U{2000}' <= c <= '\U{200A}')
    || c == '\U{2028}' || c == '\U{2029}' || c == '\U{202F}'
    || c == '\U{205F}' || c == '\U{3000}'
  }

  ghost predicate AllSpace(s: string) {
    forall k :: 0 <= k < |s| ==> IsSpace(s[k])
  }

  predicate IsUpper(c: char) {
    'A' <= c <= 'Z'
  }

  /** ASCII `str.lower()` on one character: an upper-case letter becomes the
      same letter in lower case, anything else is kept. */
  function LowerChar(c: char): (l: char)
    ensures !IsUpper(l)
    ensures !IsUpper(c) ==> l == c
    ensures IsUpper(c) ==> 'a' <= l <= 'z' && l as int - 'a' as int == c as int - 'A' as int
  {
    if IsUpper(c) then (c as int + 32) as char else c
  }

  /** `str.lower()` on ASCII letters; every other character is kept. */
  function Lower(s: string): (r: string)
    ensures |r| == |s|
    ensures forall k :: 0 <= k < |s| ==> !IsUpper(r[k])
    ensures forall k :: 0 <= k < |s| && !IsUpper(s[k]) ==> r[k] == s[k]
    ensures forall k :: 0 <= k < |s| && IsUpper(s[k]) ==> r[k] == LowerChar(s[k])
  {
    seq(|s|, i requires 0 <= i < |s| => LowerChar(s[i]))
  }

  /** Number of whitespace characters at the front of `s`. */
  function LeadingSpaces(s: string): (n: nat)
    ensures n <= |s|
    ensures forall k :: 0 <= k < n ==> IsSpace(s[k])
    ensures n < |s| ==> !IsSpace(s[n])
  {
    if s == [] || !IsSpace(s[0]) then 0 else 1 + LeadingSpaces(s[1..])
  }

  /** Number of whitespace characters at the back of `s`. */
  function TrailingSpaces(s: string): (n: nat)
    ensures n <= |s|
    ensures forall k :: |s| - n <= k < |s| ==> IsSpace(s[k])
    ensures n < |s| ==> !IsSpace(s[|s| - 1 - n])
  {
    if s == [] || !IsSpace(s[|s| - 1]) then 0 else 1 + TrailingSpaces(s[..|s| - 1])
  }

  /** `r` is what remains of `s` after cutting whitespace-only runs off
      both ends, the front run being `i` characters long. */
  ghost predicate CutsSpace(s: string, i: int, r: string) {
    && 0 <= i <= |s| - |r|
    && s[i..i + |r|] == r
    && AllSpace(s[..i])
    && AllSpace(s[i + |r|..])
  }

  /** `str.strip()`: the result is what remains after cutting the leading
      whitespace and some trailing whitespace, and it neither starts nor ends
      with whitespace. */
  function Strip(s: string): (r: string)
    ensures CutsSpace(s, LeadingSpaces(s), r)
    ensures r == [] || (!IsSpace(r[0]) && !IsSpace(r[|r| - 1]))
  {
    var lead := LeadingSpaces(s);
    var t := s[lead..];
    var trail := TrailingSpaces(t);
    var r := t[..|t| - trail];
    assert AllSpace(s[..lead]) by {
      forall k | 0 <= k < lead ensures IsSpace(s[..lead][k]) {
        assert s[..lead][k] == s[k];
      }
    }
    var cut := s[lead + |r|..];
    assert AllSpace(cut) by {
      forall k | 0 <= k < |cut| ensures IsSpace(cut[k]) {
        assert cut[k] == t[|t| - trail + k];
      }
    }
    r
  }

  /** Python's `s.startswith(p)`. */
  predicate StartsWith(s: string, p: string): (b: bool)
    ensures b <==> OccursAt(s, p, 0)
  {
    |p| <= |s| && s[..|p|] == p
  }

  /** `p` occurs in `s` starting at index `i`. */
  predicate OccursAt(s: string, p: string, i: int) {
    0 <= i && i + |p| <= |s| && s[i..i + |p|] == p
  }

  /** Scan for an occurrence of `p` in `s` at index `k` or later. */
  function ContainsFrom(s: string, p: string, k: nat): (b: bool)
    ensures b <==> exists i :: k <= i && OccursAt(s, p, i)
    decreases |s| - k
  {
    if k + |p| > |s| then false
    else if s[k..k + |p|] == p then assert OccursAt(s, p, k); true
    else ContainsFrom(s, p, k + 1)
  }

  /** Python's `p in s`. */
  function Contains(s: string, p: string): (b: bool)
    ensures b <==> exists i :: OccursAt(s, p, i)
  {
    ContainsFrom(s, p, 0)
  }

  /** The class `\w`, restricted to ASCII: letters, digits and `_`. No
      whitespace character is a word character. */
  predicate IsWordChar(c: char): (b: bool)
    ensures IsUpper(c) ==> b
    ensures b ==> !IsSpace(c)
  {
    'a' <= c <= 'z' || 'A' <= c <= 'Z' || '0' <= c <= '9' || c == '_'
  }

  /** Lowercasing keeps a character's class: a word character stays one and
      anything else stays outside `\w`, so `\b` positions survive `lower()`. */
  lemma LowerKeepsWordChars(c: char)
    ensures IsWordChar(LowerChar(c)) <==> IsWordChar(c)
  {
  }

  /** The regex assertion `\b` at position `i` of `s` (0 <= i <= |s|): the
      characters on either side differ in being word characters, a missing
      character counting as a non-word character. */
  predicate Boundary(s: string, i: int): (b: bool)
    requires 0 <= i <= |s|
    ensures i == 0 ==> (b <==> |s| > 0 && IsWordChar(s[0]))
    ensures i == |s| ==> (b <==> |s| > 0 && IsWordChar(s[|s| - 1]))
    ensures 0 < i < |s| && IsWordChar(s[i - 1]) == IsWordChar(s[i]) ==> !b
    ensures 0 < i < |s| && IsWordChar(s[i - 1]) != IsWordChar(s[i]) ==> b
  {
    (i > 0 && IsWordChar(s[i - 1])) != (i < |s| && IsWordChar(s[i]))
  }

  /** Lowercasing moves no `\b`: the boundaries of `lower()`'s result are
      those of the original text. */
  lemma BoundaryLower(s: string, i: int)
    requires 0 <= i <= |s|
    ensures Boundary(Lower(s), i) == Boundary(s, i)
  {
    if i > 0 {
      LowerKeepsWordChars(s[i - 1]);
    }
    if i < |s| {
      LowerKeepsWordChars(s[i]);
    }
  }

  /** The pattern `\bw\b` matches `s` at index `i`. */
  predicate WholeWordAt(s: string, w: string, i: int): (b: bool)
    ensures b ==> OccursAt(s, w, i)
  {
    OccursAt(s, w, i) && Boundary(s, i) && Boundary(s, i + |w|)
  }

  /** Scan for a match of `\bw\b` in `s` at index `k` or later. */
  function WholeWordFrom(s: string, w: string, k: nat): (b: bool)
    ensures b <==> exists i :: k <= i && WholeWordAt(s, w, i)
    decreases |s| - k
  {
    if k + |w| > |s| then false
    else if WholeWordAt(s, w, k) then true
    else WholeWordFrom(s, w, k + 1)
  }

  predicate IsWord(w: string) {
    |w| > 0 && forall k :: 0 <= k < |w| ==> IsWordChar(w[k])
  }

  /** For a word made of word characters, `\bw\b` matches exactly where `w`
      is neither preceded nor followed by a word character; so an occurrence
      inside a longer word (the "draw" of "redraw") is not a match. */
  lemma WholeWordIsDelimited(s: string, w: string, i: int)
    requires IsWord(w) && OccursAt(s, w, i)
    ensures WholeWordAt(s, w, i) <==>
              (i == 0 || !IsWordChar(s[i - 1])) && (i + |w| == |s| || !IsWordChar(s[i + |w|]))
  {
    assert s[i] == w[0];
    assert s[i + |w| - 1] == w[|w| - 1];
  }

  /** Lowercasing keeps whitespace where it is: no letter is a space. */
  lemma LowerKeepsSpaces(s: string)
    ensures |Lower(s)| == |s|
    ensures forall k :: 0 <= k < |s| ==> (IsSpace(Lower(s)[k]) <==> IsSpace(s[k]))
  {
  }

  /** Lowercasing twice is lowercasing once. */
  lemma LowerIdempotent(s: string)
    ensures Lower(Lower(s)) == Lower(s)
  {
  }

  /** Lowercasing commutes with taking a slice. */
  lemma LowerSlice(s: string, a: int, b: int)
    requires 0 <= a <= b <= |s|
    ensures Lower(s[a..b]) == Lower(s)[a..b]
  {
  }

  /** Stripping an already stripped string changes nothing. */
  lemma StripIdempotent(s: string)
    ensures Strip(Strip(s)) == Strip(s)
  {
    var r := Strip(s);
    var lead := LeadingSpaces(r);
    assert lead == 0;
    assert r[lead..] == r;
    var trail := TrailingSpaces(r);
    assert trail == 0;
  }

  /** The contract of `LeadingSpaces` determines it. */
  lemma LeadingSpacesUnique(s: string, n: int)
    requires 0 <= n <= |s|
    requires forall k :: 0 <= k < n ==> IsSpace(s[k])
    requires n < |s| ==> !IsSpace(s[n])
    ensures LeadingSpaces(s) == n
  {
  }

  /** The contract of `TrailingSpaces` determines it. */
  lemma TrailingSpacesUnique(s: string, n: int)
    requires 0 <= n <= |s|
    requires forall k :: |s| - n <= k < |s| ==> IsSpace(s[k])
    requires n < |s| ==> !IsSpace(s[|s| - 1 - n])
    ensures TrailingSpaces(s) == n
  {
  }

  /** Stripping and ASCII lowercasing commute, so `text.lower().strip()` is
      `text.strip().lower()`. */
  lemma StripLowerCommute(s: string)
    ensures Strip(Lower(s)) == Lower(Strip(s))
  {
    var ls := Lower(s);
    LowerKeepsSpaces(s);
    var lead := LeadingSpaces(s);
    LeadingSpacesUnique(ls, lead);
    var t := s[lead..];
    LowerSlice(s, lead, |s|);
    var lt := Lower(t);
    assert ls[lead..] == lt;
    LowerKeepsSpaces(t);
    var trail := TrailingSpaces(t);
    TrailingSpacesUnique(lt, trail);
    LowerSlice(t, 0, |t| - trail);
    assert Strip(ls) == lt[..|lt| - trail];
    assert Strip(s) == t[..|t| - trail];
  }

  /** A string strips to nothing exactly when it is all whitespace. */
  lemma StripEmptyIffAllSpace(s: string)
    ensures Strip(s) == [] <==> AllSpace(s)
  {
    var r := Strip(s);
    var i := LeadingSpaces(s);
    if r == [] {
      assert i == |s|;
      forall k | 0 <= k < |s| ensures IsSpace(s[k]) {
        assert s[..i][k] == s[k];
      }
    } else {
      assert s[i] == r[0];
    }
  }

  /** The contract of `Strip` pins its result down: cutting whitespace-only
      ends so that what remains starts and ends with a non-space gives
      exactly `Strip(s)`. */
  lemma StripUnique(s: string, i: int, j: int)
    requires 0 <= i <= j <= |s|
    requires AllSpace(s[..i]) && AllSpace(s[j..])
    requires i == j || (!IsSpace(s[i]) && !IsSpace(s[j - 1]))
    ensures Strip(s) == s[i..j]
  {
    if i == j {
      forall k | 0 <= k < |s| ensures IsSpace(s[k]) {
        if k < i {
          assert s[..i][k] == s[k];
        } else {
          assert s[j..][k - j] == s[k];
        }
      }
      StripEmptyIffAllSpace(s);
    } else {
      var lead := LeadingSpaces(s);
      assert lead == i;
      var t := s[i..];
      var trail := TrailingSpaces(t);
      assert trail == |s| - j;
      assert t[..|t| - trail] == s[i..j];
    }
  }

  /** A text without upper-case ASCII letters is its own lower-case form. */
  lemma LowerOfLowercase(s: string)
    requires forall k :: 0 <= k < |s| ==> !IsUpper(s[k])
    ensures Lower(s) == s
  {
  }

  /** A pattern holding a character the text lacks occurs nowhere in it. */
  lemma MissingCharNoOccurrence(s: string, p: string, c: char)
    requires c in p && c !in s
    ensures forall i :: !OccursAt(s, p, i)
  {
  }

  /** A pattern placed between two strings occurs right after the first. */
  lemma OccursBetween(a: string, p: string, b: string)
    ensures OccursAt(a + p + b, p, |a|)
  {
    assert (a + p + b)[|a|..|a| + |p|] == p;
  }

  /** A word placed between a non-word character (or the start) and a
      non-word character (or the end) matches `\bw\b` there. */
  lemma WholeWordBetween(a: string, w: string, b: string)
    requires IsWord(w)
    requires a == [] || !IsWordChar(a[|a| - 1])
    requires b == [] || !IsWordChar(b[0])
    ensures WholeWordAt(a + w + b, w, |a|)
  {
    var s := a + w + b;
    OccursBetween(a, w, b);
    if a != [] {
      assert s[|a| - 1] == a[|a| - 1];
    }
    if b != [] {
      assert s[|a| + |w|] == b[0];
    }
    WholeWordIsDelimited(s, w, |a|);
  }
}
