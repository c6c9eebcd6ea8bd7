/**
 * Router paths.  A pathname such as `/patient/book` is modelled as the
 * sequence of its segments, `["patient", "book"]`; the gate `/` is the empty
 * sequence.  `Split` reads a pathname string into segments (empty segments,
 * from `//` or a trailing `/`, are dropped, as the router does when it
 * matches) and `Format` writes segments back as a pathname.
 */
module Paths {

  type Path = seq<string>

  /** What a nested `<Routes>` table yields: a page, or a `<Navigate>` elsewhere. */
  datatype Routed<V> = Page(view: V) | Redirect(to: Path)

  /** One entry of a workspace's side menu (its `label` and `path`); the icon is left out. */
  datatype NavEntry = NavEntry(title: string, path: string)

  /** Every segment is non-empty and holds no `/`. */
  predicate WellFormed(p: Path)
  {
    forall k :: 0 <= k < |p| ==> p[k] != [] && '/' !in p[k]
  }

  /** `/a/b/c` for `[a, b, c]`; the empty string for no segments. */
  function Join(p: Path): string
  {
    if p == [] then "" else "/" + p[0] + Join(p[1..])
  }

  /** The pathname of a path: the gate is `/`. */
  function Format(p: Path): string
  {
    if p == [] then "/" else Join(p)
  }

  /** The length of the leading segment of `s`, up to the first `/`. */
  function SegmentEnd(s: string): (n: nat)
    ensures n <= |s| && '/' !in s[..n]
    ensures n < |s| ==> s[n] == '/'
    ensures s != [] && s[0] != '/' ==> n > 0
  {
    if s == [] || s[0] == '/' then 0 else 1 + SegmentEnd(s[1..])
  }

  /** The segments of a pathname. */
  function Split(s: string): (p: Path)
    ensures WellFormed(p)
    decreases |s|
  {
    if s == [] then []
    else if s[0] == '/' then Split(s[1..])
    else
      var n := SegmentEnd(s);
      [s[..n]] + Split(s[n..])
  }

  /** A segment followed by a `/` (or nothing) ends where the segment ends. */
  lemma {:induction false} SegmentEndOfJoin(a: string, b: string)
    requires '/' !in a
    requires b == [] || b[0] == '/'
    ensures SegmentEnd(a + b) == |a|
  {
    if a != [] {
      assert (a + b)[1..] == a[1..] + b;
      SegmentEndOfJoin(a[1..], b);
    }
  }

  /** Writing a well-formed path and reading it back gives the same path. */
  lemma {:induction false} SplitFormat(p: Path)
    requires WellFormed(p)
    ensures Split(Format(p)) == p
  {
    if p == [] {
      assert Format(p) == "/";
    } else {
      SplitJoin(p);
    }
  }

  lemma {:induction false} SplitJoin(p: Path)
    requires WellFormed(p)
    ensures Split(Join(p)) == p
  {
    if p != [] {
      var s, rest := Join(p), Join(p[1..]);
      assert s == "/" + p[0] + rest;
      assert s[1..] == p[0] + rest;
      assert rest == [] || rest[0] == '/';
      SegmentEndOfJoin(p[0], rest);
      assert s[1..][..|p[0]|] == p[0];
      assert s[1..][|p[0]|..] == rest;
      SplitJoin(p[1..]);
      assert p == [p[0]] + p[1..];
    }
  }

  /** The pathnames `/a` and `/a/b`, as the route tables spell them. */
  lemma FormatShort(a: string, b: string)
    ensures Format([a]) == "/" + a
    ensures Format([a, b]) == "/" + a + "/" + b
  {
    assert [a][1..] == [] && [a, b][1..] == [b] && [b][1..] == [];
    assert Join([b]) == "/" + b + Join([]);
    assert Join([a]) == "/" + a + Join([]);
    assert Join([a, b]) == "/" + a + Join([b]);
    assert "/" + a + ("/" + b) == "/" + a + "/" + b;
  }
}
