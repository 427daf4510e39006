/**
 * The path of a request URI, kept as the sequence of its segments.
 *
 * The builder joins pieces onto the path with Go's `path.Join`, which
 * concatenates with "/" and then cleans the result: runs of separators
 * collapse and a trailing separator disappears. Keeping the path as a
 * sequence of non-empty, slash-free segments makes that normalisation
 * structural: `Segments` reads the segments out of a string, `Render`
 * writes them back, and the two lemmas at the end show that joining two
 * strings and then splitting is concatenation of their segment lists.
 */
module Paths {

  /** A segment is non-empty and holds no separator. */
  predicate IsSegment(s: string) {
    s != "" && '/' !in s
  }

  predicate IsPath(p: seq<string>) {
    forall i :: 0 <= i < |p| ==> IsSegment(p[i])
  }

  /** A normalised path: the segments of a cleaned, rooted path string. */
  type Path = p: seq<string> | IsPath(p) witness []

  /** Length of the leading run of non-separator characters of `s`. */
  function SegmentLength(s: string): (n: nat)
    ensures n <= |s|
    ensures forall i :: 0 <= i < n ==> s[i] != '/'
    ensures n < |s| ==> s[n] == '/'
  {
    if s == [] || s[0] == '/' then 0 else 1 + SegmentLength(s[1..])
  }

  /** The segments of `s`, in order, with every empty piece between separators dropped. */
  function Segments(s: string): (p: Path)
    decreases |s|
  {
    if s == [] then []
    else if s[0] == '/' then Segments(s[1..])
    else
      var n := SegmentLength(s);
      assert IsSegment(s[..n]);
      [s[..n]] + Segments(s[n..])
  }

  /** The rooted text of a path: "/a/b" for ["a", "b"], "" for the empty path. */
  function Render(p: Path): string {
    if p == [] then "" else "/" + p[0] + Render(p[1..])
  }

  /** Go's `path.Join` of two elements before cleaning: empty elements are skipped. */
  function Join(a: string, b: string): string {
    if a == "" then b else if b == "" then a else a + "/" + b
  }

  /** Whatever follows a segment with no separator in between does not lengthen it. */
  lemma {:induction false} SegmentLengthStops(x: string, y: string)
    requires SegmentLength(x) < |x| || y == [] || y[0] == '/'
    ensures SegmentLength(x + y) == SegmentLength(x)
    decreases |x|
  {
    if y == [] {
      assert x + y == x;
    } else if x == [] {
      assert x + y == y;
    } else if x[0] != '/' {
      assert (x + y)[0] == x[0];
      assert (x + y)[1..] == x[1..] + y;
      SegmentLengthStops(x[1..], y);
    } else {
      assert (x + y)[0] == '/';
    }
  }

  /** A segment is read whole. */
  lemma SegmentLengthWhole(s: string)
    requires '/' !in s
    ensures SegmentLength(s) == |s|
  {
  }

  /** Splitting a rendered path gives the path back. */
  lemma {:induction false} SegmentsOfRender(p: Path)
    ensures Segments(Render(p)) == p
  {
    if p != [] {
      var rest := Render(p[1..]);
      var s := "/" + p[0] + rest;
      assert s[1..] == p[0] + rest;
      assert IsSegment(p[0]);
      assert rest != [] ==> rest[0] == '/';
      SegmentLengthWhole(p[0]);
      SegmentLengthStops(p[0], rest);
      assert (p[0] + rest)[..|p[0]|] == p[0];
      assert (p[0] + rest)[|p[0]|..] == rest;
      SegmentsOfRender(p[1..]);
    }
  }

  /** Joining two strings with a separator and splitting the result concatenates their segments. */
  lemma {:induction false} SegmentsOfSeparated(a: string, b: string)
    ensures Segments(a + "/" + b) == Segments(a) + Segments(b)
    decreases |a|
  {
    var t := "/" + b;
    var s := a + t;
    assert a + "/" + b == s;
    assert Segments(t) == Segments(b) by {
      assert t[0] == '/' && t[1..] == b;
    }
    if a == [] {
      assert s == t;
    } else if a[0] == '/' {
      assert s[0] == '/' && s[1..] == a[1..] + t;
      assert a[1..] + t == a[1..] + "/" + b;
      SegmentsOfSeparated(a[1..], b);
    } else {
      var n := SegmentLength(a);
      SegmentLengthStops(a, t);
      assert s[0] == a[0];
      assert s[..n] == a[..n];
      assert s[n..] == a[n..] + t;
      assert a[n..] + t == a[n..] + "/" + b;
      assert Segments(s) == [a[..n]] + Segments(a[n..] + t);
      SegmentsOfSeparated(a[n..], b);
    }
  }

  /** `path.Join` then clean, seen through `Segments`, is concatenation of segments. */
  lemma JoinIsConcatenation(a: string, b: string)
    ensures Segments(Join(a, b)) == Segments(a) + Segments(b)
  {
    if a != "" && b != "" {
      SegmentsOfSeparated(a, b);
    }
  }

  /**
   * What the builder does to a path when it joins "/" + segment onto it:
   * the segments of `segment` are appended and nothing else changes.
   */
  lemma JoinSegment(p: Path, segment: string)
    ensures Segments(Join(Render(p), "/" + segment)) == p + Segments(segment)
  {
    JoinIsConcatenation(Render(p), "/" + segment);
    SegmentsOfRender(p);
    assert ("/" + segment)[1..] == segment;
  }
}
