/**
 * The JavaScript string operations the core relies on, over `string`
 * (a sequence of characters): String.prototype.trim, startsWith,
 * includes and an ASCII toLowerCase.
 */
module Text {

  /** ECMAScript WhiteSpace and LineTerminator code points, the set trim() removes. */
  predicate IsWhitespace(c: char) {
    c == '\t' || c == '\n' || c == '\U{000B}' || c == '\U{000C}' || c == '\r' || c == ' '
    || c == '\U{00A0}' || c == '\U{1680}' || ('\U{2000}' <= c <= '\U{200A}')
    || c == '\U{2028}' || c == '\U{2029}' || c == '\U{202F}' || c == '\U{205F}'
    || c == '\U{3000}' || c == '\U{FEFF}'
  }

  predicate AllWhitespace(s: string) {
    forall i :: 0 <= i < |s| ==> IsWhitespace(s[i])
  }

  /** Leading whitespace removed: what is dropped is whitespace, what is kept is a suffix. */
  function TrimStart(s: string): (r: string)
    ensures |r| <= |s| && r == s[|s| - |r|..]
    ensures r != [] ==> !IsWhitespace(r[0])
    ensures AllWhitespace(s[..|s| - |r|])
    decreases |s|
  {
    if s != [] && IsWhitespace(s[0]) then
      var r := TrimStart(s[1..]);
      assert s[..|s| - |r|] == [s[0]] + s[1..][..|s[1..]| - |r|];
      r
    else s
  }

  /** Trailing whitespace removed: what is dropped is whitespace, what is kept is a prefix. */
  function TrimEnd(s: string): (r: string)
    ensures |r| <= |s| && r == s[..|r|]
    ensures r != [] ==> !IsWhitespace(r[|r| - 1])
    ensures AllWhitespace(s[|r|..])
    decreases |s|
  {
    if s != [] && IsWhitespace(s[|s| - 1]) then
      var r := TrimEnd(s[..|s| - 1]);
      assert s[|r|..] == s[..|s| - 1][|r|..] + [s[|s| - 1]];
      r
    else s
  }

  /** String.prototype.trim. */
  function Trim(s: string): string {
    TrimEnd(TrimStart(s))
  }

  /** trim() yields the empty string exactly when the input is all whitespace. */
  lemma TrimEmptyIffBlank(s: string)
    ensures Trim(s) == [] <==> AllWhitespace(s)
  {
    var a := TrimStart(s);
    if Trim(s) == [] {
      assert AllWhitespace(a[0..]);
      assert a == [];
      assert s[..|s|] == s;
    }
  }

  /** ASCII case folding, which is all the source's literals need. */
  function LowerChar(c: char): char {
    if 'A' <= c <= 'Z' then (c as int + 32) as char else c
  }

  /** toLowerCase, restricted to ASCII letters. */
  function Lower(s: string): (r: string)
    ensures |r| == |s|
    ensures forall i :: 0 <= i < |s| ==> r[i] == LowerChar(s[i])
  {
    if s == [] then [] else [LowerChar(s[0])] + Lower(s[1..])
  }

  /** Lower-casing works character by character, so it distributes over concatenation. */
  lemma LowerAppend(a: string, b: string)
    ensures Lower(a + b) == Lower(a) + Lower(b)
  {
    assert forall i :: 0 <= i < |a + b| ==> Lower(a + b)[i] == (Lower(a) + Lower(b))[i];
  }

  predicate StartsWith(s: string, prefix: string) {
    |prefix| <= |s| && s[..|prefix|] == prefix
  }

  /** `p` occurs in `s` at position `i`. */
  ghost predicate OccursAt(s: string, p: string, i: int) {
    0 <= i && i + |p| <= |s| && s[i..i + |p|] == p
  }

  /** String.prototype.includes: true exactly when `p` occurs somewhere in `s`. */
  function Contains(s: string, p: string): (b: bool)
    ensures b <==> exists i :: OccursAt(s, p, i)
    decreases |s|
  {
    if |s| < |p| then false
    else if s[..|p|] == p then
      assert OccursAt(s, p, 0);
      true
    else
      var t := s[1..];
      var b := Contains(t, p);
      if b then
        assert forall i :: OccursAt(t, p, i) ==> OccursAt(s, p, i + 1) by {
          forall i | OccursAt(t, p, i) ensures OccursAt(s, p, i + 1) {
            assert t[i..i + |p|] == s[i + 1..i + 1 + |p|];
          }
        }
        b
      else
        assert forall i :: OccursAt(s, p, i) ==> OccursAt(t, p, i - 1) by {
          forall i | OccursAt(s, p, i) ensures OccursAt(t, p, i - 1) {
            assert i != 0;
            assert t[i - 1..i - 1 + |p|] == s[i..i + |p|];
          }
        }
        b
  }

  /** An occurrence in `s` is still an occurrence after anything is put in front of `s`. */
  lemma ContainsAfterPrefix(pre: string, s: string, p: string)
    requires Contains(s, p)
    ensures Contains(pre + s, p)
  {
    var i :| OccursAt(s, p, i);
    assert (pre + s)[|pre| + i..|pre| + i + |p|] == s[i..i + |p|];
    assert OccursAt(pre + s, p, |pre| + i);
  }

  /** An occurrence in `pre + s` of a pattern whose first character is not in `pre` lies within `s`. */
  lemma OccursPastPrefix(pre: string, s: string, p: string, i: int)
    requires |p| > 0 && forall k :: 0 <= k < |pre| ==> pre[k] != p[0]
    requires OccursAt(pre + s, p, i)
    ensures OccursAt(s, p, i - |pre|)
  {
    var l := pre + s;
    assert l[i] == p[0];
    assert s[i - |pre|..i - |pre| + |p|] == l[i..i + |p|];
  }

  /** A pattern whose first character does not occur in `pre` occurs in `pre + s` exactly when it occurs in `s`. */
  lemma ContainsPastPrefix(pre: string, s: string, p: string)
    requires |p| > 0 && forall k :: 0 <= k < |pre| ==> pre[k] != p[0]
    ensures Contains(pre + s, p) <==> Contains(s, p)
  {
    if Contains(s, p) {
      ContainsAfterPrefix(pre, s, p);
    }
    if Contains(pre + s, p) {
      var i :| OccursAt(pre + s, p, i);
      OccursPastPrefix(pre, s, p, i);
    }
  }
}
