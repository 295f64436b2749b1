/**
 * The string operations the search bar relies on: `String.prototype.trim`,
 * `toLowerCase` (ASCII letters only) and `includes`.
 */
module Text {

  /** The characters `trim` removes: ECMAScript WhiteSpace and LineTerminator code points. */
  predicate IsWhitespace(c: char) {
    || c == '\t' || c == '\n' || c == '\U{000B}' || c == '\U{000C}' || c == '\r'
    || c == ' ' || c == '\U{00A0}' || c == '\U{1680}'
    || ('\U{2000}' <= c <= '\U{200A}')
    || c == '\U{2028}' || c == '\U{2029}' || c == '\U{202F}' || c == '\U{205F}'
    || c == '\U{3000}' || c == '\U{FEFF}'
  }

  /** Every character of `s` is whitespace (the empty string included). */
  predicate IsBlank(s: string) {
    forall i :: 0 <= i < |s| ==> IsWhitespace(s[i])
  }

  /** Drops the leading whitespace of `s`. */
  function TrimStart(s: string): (r: string)
    ensures |r| <= |s|
    ensures r == [] || !IsWhitespace(r[0])
  {
    if s != [] && IsWhitespace(s[0]) then TrimStart(s[1..]) else s
  }

  /** What TrimStart drops is a blank prefix; what it keeps is the rest of `s`. */
  lemma {:induction false} TrimStartSplits(s: string)
    ensures s == s[..|s| - |TrimStart(s)|] + TrimStart(s)
    ensures IsBlank(s[..|s| - |TrimStart(s)|])
  {
    if s != [] && IsWhitespace(s[0]) {
      var rest := s[1..];
      var kept := TrimStart(rest);
      TrimStartSplits(rest);
      var k := |rest| - |kept|;
      assert TrimStart(s) == kept;
      var head := s[..k + 1];
      assert head == [s[0]] + rest[..k];
      assert s == head + kept by {
        assert rest == rest[..k] + kept;
        assert s == [s[0]] + rest;
      }
      assert IsBlank(head) by {
        forall i | 0 <= i < |head|
          ensures IsWhitespace(head[i])
        {
          if i > 0 {
            assert head[i] == rest[..k][i - 1];
          }
        }
      }
    }
  }

  /** Drops the trailing whitespace of `s`. */
  function TrimEnd(s: string): (r: string)
    ensures |r| <= |s|
    ensures r == [] || !IsWhitespace(r[|r| - 1])
  {
    if s != [] && IsWhitespace(s[|s| - 1]) then TrimEnd(s[..|s| - 1]) else s
  }

  /** What TrimEnd drops is a blank suffix; what it keeps is the rest of `s`. */
  lemma {:induction false} TrimEndSplits(s: string)
    ensures s == TrimEnd(s) + s[|TrimEnd(s)|..]
    ensures IsBlank(s[|TrimEnd(s)|..])
  {
    if s != [] && IsWhitespace(s[|s| - 1]) {
      var t := s[..|s| - 1];
      TrimEndSplits(t);
      var k := |TrimEnd(t)|;
      assert s[k..] == t[k..] + [s[|s| - 1]];
    }
  }

  /**
   * `s.trim()`: what is left after removing whitespace at both ends. The
   * result is empty exactly when `s` is blank, and otherwise starts and ends
   * with a non-whitespace character; TrimSlice adds that it is the slice of
   * `s` between a blank prefix and a blank suffix.
   */
  function Trim(s: string): (r: string)
    ensures |r| <= |s|
    ensures r == [] <==> IsBlank(s)
    ensures r == [] || (!IsWhitespace(r[0]) && !IsWhitespace(r[|r| - 1]))
  {
    var t := TrimStart(s);
    var r := TrimEnd(t);
    TrimStartSplits(s);
    TrimEndSplits(t);
    assert r == [] ==> IsBlank(s) by {
      if r == [] {
        var head := s[..|s| - |t|];
        assert s == head + t;
        assert t == [];
      }
    }
    assert r != [] ==> !IsBlank(s) by {
      if r != [] {
        var head := s[..|s| - |t|];
        assert s[|head|] == t[0] == r[0];
      }
    }
    r
  }

  /** `r` is `s[i..j]`, with nothing but whitespace before `i` and after `j`. */
  predicate IsSlice(s: string, r: string, i: int, j: int) {
    0 <= i <= j <= |s| && r == s[i..j] && IsBlank(s[..i]) && IsBlank(s[j..])
  }

  /** The trimmed string is `s` with a blank prefix and a blank suffix removed. */
  lemma TrimSlice(s: string)
    ensures exists i, j :: IsSlice(s, Trim(s), i, j)
  {
    var t := TrimStart(s);
    var r := TrimEnd(t);
    TrimStartSplits(s);
    TrimEndSplits(t);
    assert IsSlice(s, r, |s| - |t|, |s| - |t| + |r|) by {
      var i := |s| - |t|;
      assert s[i..] == t;
      assert s[i..i + |r|] == t[..|r|] == r;
      assert s[i + |r|..] == t[|r|..];
    }
    assert Trim(s) == r;
  }

  lemma TrimStartOfTrimmed(s: string)
    requires s == [] || !IsWhitespace(s[0])
    ensures TrimStart(s) == s
  {
  }

  lemma TrimEndOfTrimmed(s: string)
    requires s == [] || !IsWhitespace(s[|s| - 1])
    ensures TrimEnd(s) == s
  {
  }

  /** A string that neither starts nor ends with whitespace is its own trim. */
  lemma TrimOfTrimmed(s: string)
    requires s == [] || (!IsWhitespace(s[0]) && !IsWhitespace(s[|s| - 1]))
    ensures Trim(s) == s
  {
    TrimStartOfTrimmed(s);
    TrimEndOfTrimmed(s);
  }

  /** `toLowerCase` on one character, for the ASCII letters A-Z. */
  function ToLowerChar(c: char): char {
    if 'A' <= c <= 'Z' then (c as int + 32) as char else c
  }

  /** `s.toLowerCase()` restricted to ASCII: A-Z become a-z, every other character is kept. */
  function ToLower(s: string): (r: string)
    ensures |r| == |s|
    ensures forall i :: 0 <= i < |s| ==> r[i] == ToLowerChar(s[i])
  {
    seq(|s|, i requires 0 <= i < |s| => ToLowerChar(s[i]))
  }

  /** A string without the letters A-Z is its own lower case. */
  lemma LowerOfLower(s: string)
    requires forall i :: 0 <= i < |s| ==> !('A' <= s[i] <= 'Z')
    ensures ToLower(s) == s
  {
  }

  /** `sub` occurs in `s` starting at offset `i`. */
  predicate OccursAt(s: string, sub: string, i: nat)
    requires i <= |s|
  {
    sub <= s[i..]
  }

  /** `s.includes(sub)` */
  predicate Contains(s: string, sub: string) {
    exists i: nat :: i <= |s| && OccursAt(s, sub, i)
  }
}
