/** Character classes and string operations of JavaScript that the pages rely on:
    the `\D` class of regular expressions, `String.prototype.trim`,
    `String.prototype.toLowerCase` (ASCII letters only) and `String.prototype.includes`. */
module Text {

  /** A character matched by `\d`: ASCII `0` to `9` only. */
  predicate IsDigit(c: char) {
    '0' <= c <= '9'
  }

  predicate AllDigits(s: string) {
    forall i :: 0 <= i < |s| ==> IsDigit(s[i])
  }

  /** The code points ECMAScript's `trim` removes: WhiteSpace and LineTerminator. */
  predicate IsWhitespace(c: char) {
    || c == '\t' || c == '\n' || c == '\U{000B}' || c == '\U{000C}' || c == '\r'
    || c == ' ' || c == '\U{00A0}' || c == '\U{1680}' || ('\U{2000}' <= c <= '\U{200A}')
    || c == '\U{2028}' || c == '\U{2029}' || c == '\U{202F}' || c == '\U{205F}'
    || c == '\U{3000}' || c == '\U{FEFF}'
  }

  predicate AllWhitespace(s: string) {
    forall i :: 0 <= i < |s| ==> IsWhitespace(s[i])
  }

  /** JavaScript's `s.trim()`: `s` without its leading and trailing whitespace, removed one
      character at a time from either end. */
  function Trim(s: string): (r: string)
    ensures |r| <= |s|
    ensures r == [] <==> AllWhitespace(s)
    ensures r != [] ==> !IsWhitespace(r[0]) && !IsWhitespace(r[|r| - 1])
  {
    if s != [] && IsWhitespace(s[0]) then
      assert forall i :: 1 <= i < |s| ==> s[i] == s[1..][i - 1];
      Trim(s[1..])
    else if s != [] && IsWhitespace(s[|s| - 1]) then
      assert forall i :: 0 <= i < |s| - 1 ==> s[i] == s[..|s| - 1][i];
      Trim(s[..|s| - 1])
    else
      s
  }

  /** The trimmed string is a slice of `s`, and all that lies outside it is whitespace. */
  lemma {:induction false} TrimIsSlice(s: string)
    ensures exists k :: IsTrimSlice(s, Trim(s), k)
  {
    if s != [] && IsWhitespace(s[0]) {
      TrimIsSlice(s[1..]);
      var k :| IsTrimSlice(s[1..], Trim(s[1..]), k);
      SliceAfterLeadingWhitespace(s, Trim(s), k);
    } else if s != [] && IsWhitespace(s[|s| - 1]) {
      TrimIsSlice(s[..|s| - 1]);
      var k :| IsTrimSlice(s[..|s| - 1], Trim(s[..|s| - 1]), k);
      SliceBeforeTrailingWhitespace(s, Trim(s), k);
    } else {
      assert IsTrimSlice(s, Trim(s), 0);
    }
  }

  lemma SliceAfterLeadingWhitespace(s: string, r: string, k: int)
    requires s != [] && IsWhitespace(s[0]) && IsTrimSlice(s[1..], r, k)
    ensures IsTrimSlice(s, r, k + 1)
  {
    var t := s[1..];
    assert t[k..k + |r|] == s[k + 1..k + 1 + |r|];
    forall i | 0 <= i < k + 1 ensures IsWhitespace(s[i]) {
      if i > 0 { assert s[i] == t[i - 1]; }
    }
    forall i | k + 1 + |r| <= i < |s| ensures IsWhitespace(s[i]) {
      assert s[i] == t[i - 1];
    }
  }

  lemma SliceBeforeTrailingWhitespace(s: string, r: string, k: int)
    requires s != [] && IsWhitespace(s[|s| - 1]) && IsTrimSlice(s[..|s| - 1], r, k)
    ensures IsTrimSlice(s, r, k)
  {
    var t := s[..|s| - 1];
    assert t[k..k + |r|] == s[k..k + |r|];
    forall i | 0 <= i < k ensures IsWhitespace(s[i]) {
      assert s[i] == t[i];
    }
    forall i | k + |r| <= i < |s| ensures IsWhitespace(s[i]) {
      if i < |s| - 1 { assert s[i] == t[i]; }
    }
  }

  /** `r` is `s[k..k + |r|]` and every character of `s` before `k` or after the slice is whitespace. */
  predicate IsTrimSlice(s: string, r: string, k: int) {
    && 0 <= k <= k + |r| <= |s| && r == s[k..k + |r|]
    && (forall i :: 0 <= i < k ==> IsWhitespace(s[i]))
    && (forall i :: k + |r| <= i < |s| ==> IsWhitespace(s[i]))
  }

  /** A string that neither starts nor ends with whitespace is its own trim. */
  lemma TrimOfTrimmed(s: string)
    requires s != [] ==> !IsWhitespace(s[0]) && !IsWhitespace(s[|s| - 1])
    ensures Trim(s) == s
  {
  }

  /** Trimming a trimmed string changes nothing. */
  lemma TrimIdempotent(s: string)
    ensures Trim(Trim(s)) == Trim(s)
  {
    TrimOfTrimmed(Trim(s));
  }

  function LowerChar(c: char): char {
    if 'A' <= c <= 'Z' then (c as int + 32) as char else c
  }

  /** JavaScript's `toLowerCase`, restricted to the ASCII letters. */
  function Lower(s: string): (r: string)
    ensures |r| == |s|
    ensures forall i :: 0 <= i < |r| ==> !('A' <= r[i] <= 'Z')
    ensures forall i :: 0 <= i < |s| && !('A' <= s[i] <= 'Z') ==> r[i] == s[i]
    ensures forall i :: 0 <= i < |s| && 'A' <= s[i] <= 'Z' ==> r[i] as int == s[i] as int + 32
  {
    seq(|s|, i requires 0 <= i < |s| => LowerChar(s[i]))
  }

  lemma LowerIdempotent(s: string)
    ensures Lower(Lower(s)) == Lower(s)
  {
  }

  predicate StartsWith(s: string, t: string) {
    |t| <= |s| && s[..|t|] == t
  }

  /** `t` occurs in `s` starting at offset `i`. */
  predicate OccursAt(s: string, t: string, i: int) {
    0 <= i <= |s| - |t| && s[i..i + |t|] == t
  }

  /** JavaScript's `s.includes(t)`: `t` occurs in `s` at some offset. */
  function Includes(s: string, t: string): (b: bool)
    ensures b <==> exists i :: OccursAt(s, t, i)
    decreases |s|
  {
    if StartsWith(s, t) then
      assert OccursAt(s, t, 0);
      true
    else if s == [] then
      false
    else
      var b := Includes(s[1..], t);
      assert b ==> exists i :: OccursAt(s, t, i) by {
        if b {
          var j :| OccursAt(s[1..], t, j);
          assert s[j + 1..j + 1 + |t|] == s[1..][j..j + |t|];
          assert OccursAt(s, t, j + 1);
        }
      }
      assert (exists i :: OccursAt(s, t, i)) ==> b by {
        if i :| OccursAt(s, t, i) {
          assert i != 0;
          assert s[1..][i - 1..i - 1 + |t|] == s[i..i + |t|];
          assert OccursAt(s[1..], t, i - 1);
        }
      }
      b
  }

  /** Every string includes the empty string. */
  lemma IncludesEmpty(s: string)
    ensures Includes(s, "")
  {
    assert OccursAt(s, "", 0);
  }
}
