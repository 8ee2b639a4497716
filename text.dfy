/** String primitives of the JavaScript runtime that the components rely on:
    prefix and substring tests, `endsWith`, `trim`, and the `\s` class. */
module Text {

  /** `p` is a prefix of `s` (String.prototype.startsWith). */
  predicate IsPrefix(p: string, s: string) {
    |p| <= |s| && s[..|p|] == p
  }

  /** `p` occurs in `s` at some position: the meaning of String.prototype.includes. */
  ghost predicate Occurs(s: string, p: string) {
    exists k | 0 <= k <= |s| :: IsPrefix(p, s[k..])
  }

  /** String.prototype.includes, as the left-to-right search it performs. */
  function Includes(s: string, p: string): (b: bool)
    ensures b <==> Occurs(s, p)
    decreases |s|
  {
    if IsPrefix(p, s) then
      assert s[0..] == s;
      true
    else if s == [] then
      false
    else
      var r := Includes(s[1..], p);
      assert r ==> Occurs(s, p) by {
        if r {
          var k :| 0 <= k <= |s[1..]| && IsPrefix(p, s[1..][k..]);
          assert s[1..][k..] == s[k + 1..];
        }
      }
      assert Occurs(s, p) ==> r by {
        if Occurs(s, p) {
          var k :| 0 <= k <= |s| && IsPrefix(p, s[k..]);
          assert k != 0 by { assert s[0..] == s; }
          assert s[1..][k - 1..] == s[k..];
        }
      }
      r
  }

  /** String.prototype.endsWith. */
  predicate EndsWith(s: string, suffix: string) {
    |suffix| <= |s| && s[|s| - |suffix|..] == suffix
  }

  /** The characters JavaScript's `\s` and `trim` treat as white space
      (WhiteSpace and LineTerminator of ECMA-262). */
  predicate IsJsSpace(c: char) {
    c == '\t' || c == '\n' || c == '\U{000B}' || c == '\U{000C}' || c == '\r' || c == ' '
    || c == '\U{00A0}' || c == '\U{1680}' || ('\U{2000}' <= c <= '\U{200A}')
    || c == '\U{2028}' || c == '\U{2029}' || c == '\U{202F}' || c == '\U{205F}'
    || c == '\U{3000}' || c == '\U{FEFF}'
  }

  /** Length of the maximal run of white space at the start of `s`. */
  function SpaceRun(s: string): (n: nat)
    ensures n <= |s|
    ensures forall k | 0 <= k < n :: IsJsSpace(s[k])
    ensures n < |s| ==> !IsJsSpace(s[n])
    decreases |s|
  {
    if s != [] && IsJsSpace(s[0]) then 1 + SpaceRun(s[1..]) else 0
  }

  /** Length of the maximal run of white space at the end of `s`. */
  function TrailingSpaceRun(s: string): (n: nat)
    ensures n <= |s|
    ensures forall k | |s| - n <= k < |s| :: IsJsSpace(s[k])
    ensures n < |s| ==> !IsJsSpace(s[|s| - n - 1])
    decreases |s|
  {
    if s != [] && IsJsSpace(s[|s| - 1]) then 1 + TrailingSpaceRun(s[..|s| - 1]) else 0
  }

  /** String.prototype.trim: the slice of `s` left once the white space at both ends
      is dropped.  Stated as the slice `s[i..j]` whose outside is all white space
      and whose ends are not. */
  function Trim(s: string): (r: string)
    ensures exists i, j | 0 <= i <= j <= |s| ::
              r == s[i..j]
              && (forall k | 0 <= k < i :: IsJsSpace(s[k]))
              && (forall k | j <= k < |s| :: IsJsSpace(s[k]))
    ensures r != [] ==> !IsJsSpace(r[0]) && !IsJsSpace(r[|r| - 1])
    ensures |r| <= |s|
  {
    var i := SpaceRun(s);
    var t := s[i..];
    var n := TrailingSpaceRun(t);
    var j := |s| - n;
    var r := t[..|t| - n];
    assert r == s[i..j];
    assert forall k | j <= k < |s| :: IsJsSpace(s[k]) by {
      forall k | j <= k < |s| ensures IsJsSpace(s[k]) {
        assert s[k] == t[k - i];
      }
    }
    assert r != [] ==> r[0] == t[0] && r[|r| - 1] == t[|t| - n - 1];
    r
  }

  /** A string made only of white space trims to the empty string, and
      a string that does not trim to the empty string holds a non-space character. */
  lemma {:induction false} TrimEmptyIffAllSpace(s: string)
    ensures Trim(s) == "" <==> forall k | 0 <= k < |s| :: IsJsSpace(s[k])
  {
    var i, j :| 0 <= i <= j <= |s| && Trim(s) == s[i..j]
              && (forall k | 0 <= k < i :: IsJsSpace(s[k]))
              && (forall k | j <= k < |s| :: IsJsSpace(s[k]));
    if Trim(s) == "" {
      assert i == j;
    } else {
      assert !IsJsSpace(s[i]);
    }
  }
}
