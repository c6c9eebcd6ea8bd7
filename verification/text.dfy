/**
 * The JavaScript string primitives the portal relies on: the `\s` character
 * class, `String.prototype.trim`, `startsWith`, `endsWith` and `includes`.
 * Strings are sequences of characters; the UTF-16 encoding is not modelled.
 */
module Text {

  /**
   * ECMAScript WhiteSpace and LineTerminator code points: the set matched by
   * `\s` in a regular expression and removed by `trim`.  The Zs category is
   * listed out (U+0020, U+00A0, U+1680, U+2000..U+200A, U+202F, U+205F, U+3000).
   */
  predicate IsSpace(c: char)
  {
    || c == '\t' || c == '\n' || c == '\U{B}' || c == '\U{C}' || c == '\r'
    || c == ' ' || c == '\U{A0}' || c == '\U{1680}'
    || ('\U{2000}' <= c <= '\U{200A}')
    || c == '\U{2028}' || c == '\U{2029}' || c == '\U{202F}' || c == '\U{205F}'
    || c == '\U{3000}' || c == '\U{FEFF}'
  }

  /** The regular-expression class `[0-9]`. */
  predicate IsDigit(c: char)
  {
    '0' <= c <= '9'
  }

  predicate StartsWith(s: string, prefix: string)
  {
    |prefix| <= |s| && s[..|prefix|] == prefix
  }

  predicate EndsWith(s: string, suffix: string)
  {
    |suffix| <= |s| && s[|s| - |suffix|..] == suffix
  }

  /** `s.includes(part)`, scanning the start positions left to right. */
  predicate Includes(s: string, part: string)
    decreases |s|
  {
    StartsWith(s, part) || (s != [] && Includes(s[1..], part))
  }

  /** `part` occurs in `s` starting at position `i`. */
  predicate OccursAt(s: string, part: string, i: int)
  {
    0 <= i <= |s| - |part| && s[i..i + |part|] == part
  }

  /** `includes` holds exactly when `part` occurs at some position of `s`. */
  lemma {:induction false} IncludesIffOccurs(s: string, part: string)
    ensures Includes(s, part) <==> exists i :: OccursAt(s, part, i)
    decreases |s|
  {
    if StartsWith(s, part) {
      assert OccursAt(s, part, 0);
    } else if s != [] {
      IncludesIffOccurs(s[1..], part);
      if exists i :: OccursAt(s, part, i) {
        var i :| OccursAt(s, part, i);
        assert i > 0;
        assert s[1..][i - 1..i - 1 + |part|] == s[i..i + |part|];
        assert OccursAt(s[1..], part, i - 1);
      }
      if Includes(s[1..], part) {
        var i :| OccursAt(s[1..], part, i);
        assert s[1..][i..i + |part|] == s[i + 1..i + 1 + |part|];
        assert OccursAt(s, part, i + 1);
      }
    } else {
      assert forall i :: !OccursAt(s, part, i);
    }
  }

  /** Any string that has `part` inside it includes it. */
  lemma IncludesInfix(a: string, part: string, b: string)
    ensures Includes(a + part + b, part)
  {
    var s := a + part + b;
    assert s[|a|..|a| + |part|] == part;
    assert OccursAt(s, part, |a|);
    IncludesIffOccurs(s, part);
  }

  /** Every character of an included part is a character of the whole. */
  lemma IncludesKeepsCharacters(s: string, part: string, c: char)
    requires Includes(s, part) && c in part
    ensures c in s
  {
    IncludesIffOccurs(s, part);
    var i :| OccursAt(s, part, i);
    var j :| 0 <= j < |part| && part[j] == c;
    assert s[i..i + |part|][j] == s[i + j];
  }

  /** `trimStart`: drops the leading whitespace. */
  function TrimStart(s: string): (r: string)
    ensures |r| <= |s| && r == s[|s| - |r|..]
    ensures forall k :: 0 <= k < |s| - |r| ==> IsSpace(s[k])
    ensures r != [] ==> !IsSpace(r[0])
  {
    if s != [] && IsSpace(s[0]) then TrimStart(s[1..]) else s
  }

  /** `trimEnd`: drops the trailing whitespace. */
  function TrimEnd(s: string): (r: string)
    ensures |r| <= |s| && r == s[..|r|]
    ensures forall k :: |r| <= k < |s| ==> IsSpace(s[k])
    ensures r != [] ==> !IsSpace(r[|r| - 1])
  {
    if s != [] && IsSpace(s[|s| - 1]) then TrimEnd(s[..|s| - 1]) else s
  }

  /** `trim`: drops whitespace at both ends. */
  function Trim(s: string): string
  {
    TrimEnd(TrimStart(s))
  }

  /** A string trims to the empty string exactly when it is all whitespace. */
  lemma TrimEmptyIffBlank(s: string)
    ensures Trim(s) == [] <==> forall k :: 0 <= k < |s| ==> IsSpace(s[k])
  {
    var t := TrimStart(s);
    if Trim(s) == [] {
      assert t == [];
    }
    if forall k :: 0 <= k < |s| ==> IsSpace(s[k]) {
      if t != [] {
        assert t[0] == s[|s| - |t|];
      }
    }
  }
}
