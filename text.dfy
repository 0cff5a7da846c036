/** Text primitives shared by the backend (Python) and frontend (JavaScript) models:
    substring search, character counting, ASCII lower-casing, JavaScript's trim and
    UTF-16 length, and decimal rendering of numbers. */
module Text {

  /** `p` is a prefix of `s`. */
  predicate IsPrefix(p: string, s: string)
  {
    |p| <= |s| && s[..|p|] == p
  }

  /** Python's `w in s` and JavaScript's `s.includes(w)`: `w` occurs somewhere in `s`. */
  predicate Contains(s: string, w: string)
    decreases |s|
  {
    IsPrefix(w, s) || (s != [] && Contains(s[1..], w))
  }

  /** `w` occurs in `s` starting at position `i`. */
  predicate OccursAt(s: string, w: string, i: int)
  {
    0 <= i && i + |w| <= |s| && s[i..i + |w|] == w
  }

  /** `Contains` holds exactly when `w` occurs at some position of `s`. */
  lemma {:induction false} ContainsIff(s: string, w: string)
    ensures Contains(s, w) <==> exists i :: OccursAt(s, w, i)
    decreases |s|
  {
    assert OccursAt(s, w, 0) <==> IsPrefix(w, s);
    if s != [] {
      ContainsIff(s[1..], w);
      forall i | 0 <= i ensures OccursAt(s, w, i + 1) <==> OccursAt(s[1..], w, i) {
        if i + 1 + |w| <= |s| {
          assert s[i + 1..i + 1 + |w|] == s[1..][i..i + |w|];
        }
      }
      if exists i :: OccursAt(s, w, i) {
        var i :| OccursAt(s, w, i);
        if i > 0 { assert OccursAt(s[1..], w, i - 1); }
      }
      if Contains(s, w) && !IsPrefix(w, s) {
        var i :| OccursAt(s[1..], w, i);
        assert OccursAt(s, w, i + 1);
      }
    } else {
      forall i | OccursAt(s, w, i) ensures i == 0 { }
    }
  }

  /** A word with a character that `s` lacks does not occur in `s`. */
  lemma MissingCharNotContained(s: string, w: string, k: int)
    requires 0 <= k < |w| && w[k] !in s
    ensures !Contains(s, w)
  {
    ContainsIff(s, w);
    forall i ensures !OccursAt(s, w, i) {
      if 0 <= i && i + |w| <= |s| {
        assert s[i..i + |w|][k] == s[i + k];
      }
    }
  }

  /** A word contained in `s` is contained in any extension of `s`. */
  lemma ContainsInLonger(s: string, t: string, w: string)
    requires Contains(s, w)
    ensures Contains(s + t, w)
  {
    ContainsIff(s, w);
    ContainsIff(s + t, w);
    var i :| OccursAt(s, w, i);
    assert (s + t)[i..i + |w|] == s[i..i + |w|];
    assert OccursAt(s + t, w, i);
  }

  /** A text built around `w` contains `w`. */
  lemma ContainsMiddle(a: string, w: string, b: string)
    ensures Contains(a + w + b, w)
  {
    ContainsIff(a + w + b, w);
    assert (a + w + b)[|a|..|a| + |w|] == w;
    assert OccursAt(a + w + b, w, |a|);
  }

  /** Python's `s.count(c)` for a one-character `c`: the number of positions holding `c`. */
  function CountChar(s: string, c: char): (n: nat)
    ensures n <= |s|
    ensures n == 0 <==> c !in s
  {
    if s == [] then 0 else (if s[0] == c then 1 else 0) + CountChar(s[1..], c)
  }

  /** `sum(1 for w in words if w in s)`: how many of the words occur in `s`. */
  function CountContained(words: seq<string>, s: string): (n: nat)
    ensures n <= |words|
    ensures n == 0 <==> forall i :: 0 <= i < |words| ==> !Contains(s, words[i])
  {
    if words == [] then 0
    else (if Contains(s, words[0]) then 1 else 0) + CountContained(words[1..], s)
  }

  /** `any(w in s for w in words)`. */
  predicate AnyContained(words: seq<string>, s: string)
  {
    words != [] && (Contains(s, words[0]) || AnyContained(words[1..], s))
  }

  /** `AnyContained` holds exactly when some word of the list occurs in `s`. */
  lemma {:induction false} AnyContainedIff(words: seq<string>, s: string)
    ensures AnyContained(words, s) <==> exists i :: 0 <= i < |words| && Contains(s, words[i])
  {
    if words != [] {
      AnyContainedIff(words[1..], s);
      if AnyContained(words[1..], s) && !Contains(s, words[0]) {
        var i :| 0 <= i < |words[1..]| && Contains(s, words[1..][i]);
        assert Contains(s, words[i + 1]);
      }
      if exists i :: 0 <= i < |words| && Contains(s, words[i]) {
        var i :| 0 <= i < |words| && Contains(s, words[i]);
        if i > 0 { assert words[1..][i - 1] == words[i]; }
      }
    }
  }

  /** One character of Python's `str.lower()`, restricted to the ASCII letters. */
  function AsciiLowerChar(c: char): (d: char)
    ensures ('A' <= c <= 'Z') == (d != c)
    ensures !('A' <= d <= 'Z')
  {
    if 'A' <= c <= 'Z' then (c as int + 32) as char else c
  }

  /** Python's `str.lower()` on the ASCII letters; every other character is kept. */
  function AsciiLower(s: string): (r: string)
    ensures |r| == |s|
    ensures forall i :: 0 <= i < |s| ==> r[i] == AsciiLowerChar(s[i])
  {
    if s == [] then [] else [AsciiLowerChar(s[0])] + AsciiLower(s[1..])
  }

  /** A text without upper-case ASCII letters is its own lower-case form. */
  lemma AsciiLowerOfLower(s: string)
    requires forall i :: 0 <= i < |s| ==> !('A' <= s[i] <= 'Z')
    ensures AsciiLower(s) == s
  {
  }

  /** Lower-casing works character by character, so it distributes over `+`. */
  lemma AsciiLowerAppend(s: string, t: string)
    ensures AsciiLower(s + t) == AsciiLower(s) + AsciiLower(t)
  {
    assert forall i :: 0 <= i < |s + t| ==> AsciiLower(s + t)[i] == (AsciiLower(s) + AsciiLower(t))[i];
  }

  /** Python's `s.replace(a, b)` for one-character `a` and `b`. */
  function ReplaceChar(s: string, a: char, b: char): (r: string)
    ensures |r| == |s|
    ensures forall i :: 0 <= i < |s| ==> r[i] == (if s[i] == a then b else s[i])
  {
    if s == [] then [] else [if s[0] == a then b else s[0]] + ReplaceChar(s[1..], a, b)
  }

  /** Python's slice `s[:n]`. */
  function Take(s: string, n: nat): (r: string)
    ensures |r| == if n < |s| then n else |s|
    ensures IsPrefix(r, s)
  {
    if n < |s| then s[..n] else s
  }

  /** The characters JavaScript's `trim()` strips: WhiteSpace and LineTerminator
      of the ECMAScript grammar (tab, vertical tab, form feed, space, no-break space,
      BOM, the Unicode space separators, LF, CR, line and paragraph separator). */
  predicate IsJsWhitespace(c: char)
  {
    c == '\t' || c == '\n' || c == '\U{000B}' || c == '\U{000C}' || c == '\r' || c == ' '
    || c == '\U{00A0}' || c == '\U{1680}' || ('\U{2000}' <= c <= '\U{200A}')
    || c == '\U{2028}' || c == '\U{2029}' || c == '\U{202F}' || c == '\U{205F}'
    || c == '\U{3000}' || c == '\U{FEFF}'
  }

  /** Leading whitespace removed. */
  function TrimStart(s: string): (r: string)
    ensures |r| <= |s|
    ensures r == s[|s| - |r|..]
    ensures r != [] ==> !IsJsWhitespace(r[0])
  {
    if s != [] && IsJsWhitespace(s[0]) then TrimStart(s[1..]) else s
  }

  /** Trailing whitespace removed. */
  function TrimEnd(s: string): (r: string)
    ensures |r| <= |s|
    ensures r == s[..|r|]
    ensures r != [] ==> !IsJsWhitespace(r[|r| - 1])
  {
    if s != [] && IsJsWhitespace(s[|s| - 1]) then TrimEnd(s[..|s| - 1]) else s
  }

  /** JavaScript's `s.trim()`. */
  function JsTrim(s: string): string
  {
    TrimEnd(TrimStart(s))
  }

  /** Every character is whitespace: what `!s.trim()` tests in the handlers. */
  predicate IsBlank(s: string)
  {
    forall i :: 0 <= i < |s| ==> IsJsWhitespace(s[i])
  }

  lemma {:induction false} TrimStartEmpty(s: string)
    ensures TrimStart(s) == [] <==> IsBlank(s)
    decreases |s|
  {
    if s != [] && IsJsWhitespace(s[0]) {
      var t := s[1..];
      TrimStartEmpty(t);
      assert TrimStart(s) == TrimStart(t);
      assert IsBlank(s) <==> IsBlank(t) by {
        assert forall i :: 0 <= i < |t| ==> t[i] == s[i + 1];
        if IsBlank(t) {
          forall i | 0 <= i < |s| ensures IsJsWhitespace(s[i]) {
            if i > 0 { assert s[i] == t[i - 1]; }
          }
        }
      }
    } else if s != [] {
      assert TrimStart(s) == s;
      assert !IsBlank(s) by { assert !IsJsWhitespace(s[0]); }
    }
  }

  lemma {:induction false} TrimEndEmpty(s: string)
    ensures TrimEnd(s) == [] <==> IsBlank(s)
    decreases |s|
  {
    if s != [] && IsJsWhitespace(s[|s| - 1]) {
      var p := s[..|s| - 1];
      TrimEndEmpty(p);
      assert IsBlank(s) <==> IsBlank(p) by {
        if IsBlank(p) {
          forall i | 0 <= i < |s| ensures IsJsWhitespace(s[i]) {
            if i < |s| - 1 { assert s[i] == p[i]; }
          }
        }
      }
    } else if s != [] {
      assert !IsJsWhitespace(s[|s| - 1]);
    }
  }

  /** `s.trim()` is the empty string exactly when `s` is blank (so `!s.trim()` is
      the blank test). */
  lemma JsTrimEmptyIffBlank(s: string)
    ensures JsTrim(s) == [] <==> IsBlank(s)
  {
    TrimStartEmpty(s);
    TrimEndEmpty(TrimStart(s));
  }

  /** `!s.trim()`: the string is empty once trimmed, which is to say blank. */
  function TrimsToEmpty(s: string): (b: bool)
    ensures b <==> IsBlank(s)
  {
    JsTrimEmptyIffBlank(s);
    JsTrim(s) == []
  }

  /** A code point above U+FFFF takes two UTF-16 code units. */
  function Utf16Units(c: char): (n: nat)
    ensures 1 <= n <= 2
  {
    if c as int > 0xFFFF then 2 else 1
  }

  /** JavaScript's `s.length`: the number of UTF-16 code units of `s`. */
  function Utf16Length(s: string): (n: nat)
    ensures |s| <= n <= 2 * |s|
    ensures (forall i :: 0 <= i < |s| ==> s[i] as int <= 0xFFFF) ==> n == |s|
  {
    if s == [] then 0 else Utf16Units(s[0]) + Utf16Length(s[1..])
  }

  function DigitChar(d: nat): (c: char)
    requires d < 10
    ensures '0' <= c <= '9'
  {
    ('0' as int + d) as char
  }

  /** The decimal representation of `n`, without leading zeros. */
  function NatToString(n: nat): (s: string)
    ensures |s| >= 1
    ensures forall i :: 0 <= i < |s| ==> '0' <= s[i] <= '9'
    ensures n > 0 ==> s[0] != '0'
  {
    if n < 10 then [DigitChar(n)] else NatToString(n / 10) + [DigitChar(n % 10)]
  }
}
