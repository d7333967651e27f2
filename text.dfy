/**
 * String operations the handler applies to the user's text: `str.strip()`,
 * `str.lower()` (ASCII letters only), the `keyword in text` substring test and
 * the Devanagari-script test that decides the language.
 */
module Text {
  import opened Signals

  /** `str.isspace()` of Python 3: the characters `str.strip()` removes. */
  predicate IsSpace(c: char) {
    || ('\U{0009}' <= c <= '\U{000D}')
    || ('\U{001C}' <= c <= '\U{0020}')
    || c == '\U{0085}' || c == '\U{00A0}' || c == '\U{1680}'
    || ('\U{2000}' <= c <= '\U{200A}')
    || c == '\U{2028}' || c == '\U{2029}' || c == '\U{202F}'
    || c == '\U{205F}' || c == '\U{3000}'
  }

  /** The number of leading whitespace characters of `s`: the index of its first non-space. */
  function LeadingSpaces(s: string): (n: nat)
    ensures n <= |s|
    ensures forall k :: 0 <= k < n ==> IsSpace(s[k])
    ensures n < |s| ==> !IsSpace(s[n])
  {
    if |s| > 0 && IsSpace(s[0]) then
      assert forall k :: 1 <= k < |s| ==> s[k] == s[1..][k - 1];
      1 + LeadingSpaces(s[1..])
    else 0
  }

  /** The length of `s` without its trailing whitespace: one past its last non-space. */
  function TrimmedLength(s: string): (m: nat)
    ensures m <= |s|
    ensures forall k :: m <= k < |s| ==> IsSpace(s[k])
    ensures m > 0 ==> !IsSpace(s[m - 1])
  {
    if |s| > 0 && IsSpace(s[|s| - 1]) then
      assert forall k :: 0 <= k < |s| - 1 ==> s[k] == s[..|s| - 1][k];
      TrimmedLength(s[..|s| - 1])
    else |s|
  }

  /** `r` is `s[i..i + |r|]` and everything of `s` outside that slice is whitespace. */
  predicate StrippedAt(s: string, r: string, i: int) {
    && 0 <= i && i + |r| <= |s| && r == s[i..i + |r|]
    && (forall k :: 0 <= k < i ==> IsSpace(s[k]))
    && (forall k :: i + |r| <= k < |s| ==> IsSpace(s[k]))
  }

  /**
   * `s.strip()`: the contiguous slice of `s` that has only whitespace
   * outside it and no whitespace at either end; it is empty exactly when `s`
   * is whitespace only.
   */
  function Strip(s: string): (r: string)
    ensures |r| <= |s|
    ensures exists i :: StrippedAt(s, r, i)
    ensures r != [] ==> !IsSpace(r[0]) && !IsSpace(r[|r| - 1])
    ensures r == [] <==> forall k :: 0 <= k < |s| ==> IsSpace(s[k])
  {
    var n := LeadingSpaces(s);
    var m := TrimmedLength(s);
    if m <= n then
      assert StrippedAt(s, [], 0);
      []
    else
      assert StrippedAt(s, s[n..m], n);
      s[n..m]
  }

  /** A stripped slice keeps every non-space character of `s`, at offset `i`. */
  lemma StrippedKeepsNonSpace(s: string, r: string, i: int, k: int)
    requires StrippedAt(s, r, i) && 0 <= k < |s| && !IsSpace(s[k])
    ensures i <= k < i + |r| && r[k - i] == s[k]
  {
  }

  predicate IsUpperAscii(c: char) {
    'A' <= c <= 'Z'
  }

  function LowerChar(c: char): (d: char)
    ensures !IsUpperAscii(d)
    ensures IsUpperAscii(c) ==> d as int == c as int + 32
    ensures !IsUpperAscii(c) ==> d == c
  {
    if IsUpperAscii(c) then (c as int + 32) as char else c
  }

  /** `s.lower()` restricted to the ASCII letters A-Z; every other character is kept. */
  function Lower(s: string): (r: string)
    ensures |r| == |s|
    ensures forall k :: 0 <= k < |r| ==> !IsUpperAscii(r[k])
    ensures forall k :: 0 <= k < |s| ==> (IsUpperAscii(s[k]) ==> r[k] as int == s[k] as int + 32)
    ensures forall k :: 0 <= k < |s| ==> (!IsUpperAscii(s[k]) ==> r[k] == s[k])
    ensures forall k :: 0 <= k < |r| ==> (IsSpace(r[k]) <==> IsSpace(s[k]))
  {
    seq(|s|, k requires 0 <= k < |s| => LowerChar(s[k]))
  }

  /** Lower-casing twice is lower-casing once. */
  lemma LowerIdempotent(s: string)
    ensures Lower(Lower(s)) == Lower(s)
  {
    var l := Lower(s);
    assert forall k :: 0 <= k < |l| ==> LowerChar(l[k]) == l[k];
  }

  /** Lower-casing changes no whitespace, so it cannot make a blank text non-blank or back. */
  lemma {:induction false} StripLowerBlank(s: string)
    ensures Strip(Lower(s)) == [] <==> Strip(s) == []
  {
    var l := Lower(s);
    assert (forall k :: 0 <= k < |l| ==> IsSpace(l[k])) <==> (forall k :: 0 <= k < |s| ==> IsSpace(s[k]));
  }

  /** `k` occurs in `t` starting at position `i`. */
  predicate OccursAt(k: string, t: string, i: int) {
    0 <= i && i + |k| <= |t| && t[i..i + |k|] == k
  }

  /** Python's `k in t` on strings: `k` is a prefix of `t` or occurs in `t[1..]`. */
  function Occurs(k: string, t: string): (b: bool)
    ensures b <==> exists i :: OccursAt(k, t, i)
    decreases |t|
  {
    if |k| <= |t| && t[..|k|] == k then
      assert OccursAt(k, t, 0);
      true
    else if |t| == 0 then
      false
    else
      assert forall i :: OccursAt(k, t[1..], i) ==> OccursAt(k, t, i + 1) by {
        forall i | OccursAt(k, t[1..], i) ensures OccursAt(k, t, i + 1) {
          assert t[1..][i..i + |k|] == t[i + 1..i + 1 + |k|];
        }
      }
      assert forall i :: OccursAt(k, t, i) ==> OccursAt(k, t[1..], i - 1) by {
        forall i | OccursAt(k, t, i) ensures OccursAt(k, t[1..], i - 1) {
          assert i != 0 by {
            assert t[0..|k|] == t[..|k|];
          }
          assert t[1..][i - 1..i - 1 + |k|] == t[i..i + |k|];
        }
      }
      Occurs(k, t[1..])
  }

  /** The `[ऀ-ॿ]` character class: the Devanagari block. */
  predicate IsDevanagari(c: char) {
    '\U{0900}' <= c <= '\U{097F}'
  }

  /** Whether some character of `s` lies in the Devanagari block. */
  function HasDevanagari(s: string): (b: bool)
    ensures b <==> exists k :: 0 <= k < |s| && IsDevanagari(s[k])
  {
    if s == [] then false
    else if IsDevanagari(s[0]) then true
    else
      assert forall k :: 1 <= k < |s| ==> s[k] == s[1..][k - 1];
      HasDevanagari(s[1..])
  }

  /** The language of a text: `hi` when it holds a Devanagari character, `en` otherwise. */
  function DetectLanguage(s: string): (lang: Language)
    ensures lang == Hi <==> exists k :: 0 <= k < |s| && IsDevanagari(s[k])
    ensures lang == En <==> forall k :: 0 <= k < |s| ==> !IsDevanagari(s[k])
  {
    if HasDevanagari(s) then Hi else En
  }

  /** Lower-casing neither adds nor removes a Devanagari character. */
  lemma LanguageOfLower(s: string)
    ensures DetectLanguage(Lower(s)) == DetectLanguage(s)
  {
    var l := Lower(s);
    assert forall k :: 0 <= k < |s| ==> (IsDevanagari(l[k]) <==> IsDevanagari(s[k]));
  }

  /** Stripping removes whitespace only, never a Devanagari character. */
  lemma LanguageOfStrip(s: string)
    ensures DetectLanguage(Strip(s)) == DetectLanguage(s)
  {
    var r := Strip(s);
    var i :| StrippedAt(s, r, i);
    if DetectLanguage(s) == Hi {
      var k :| 0 <= k < |s| && IsDevanagari(s[k]);
      assert !IsSpace(s[k]);
      StrippedKeepsNonSpace(s, r, i, k);
      assert IsDevanagari(r[k - i]);
    } else {
      forall m | 0 <= m < |r|
        ensures !IsDevanagari(r[m])
      {
        assert r[m] == s[m + i];
      }
    }
  }

  /** The language of the handler's normalised text is that of the raw text. */
  lemma LanguageOfNormalisedText(s: string)
    ensures DetectLanguage(Strip(Lower(s))) == DetectLanguage(s)
  {
    LanguageOfStrip(Lower(s));
    LanguageOfLower(s);
  }
}
