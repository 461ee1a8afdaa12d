/**
 * A lexical model of the part of `std::filesystem::path` that the command
 * line front end relies on. A path is an absolute flag and a sequence of
 * segments; the separator is '/'. Parsing drops empty segments, so a
 * repeated or trailing separator is not kept.
 */
module Paths {

  datatype Path = Path(absolute: bool, segments: seq<string>)

  predicate Lacks(s: string, c: char) {
    forall i :: 0 <= i < |s| ==> s[i] != c
  }

  /** A segment as parsing produces it: non-empty and free of separators. */
  predicate IsSegment(s: string) {
    s != [] && Lacks(s, '/')
  }

  predicate WellFormed(p: Path) {
    forall i :: 0 <= i < |p.segments| ==> IsSegment(p.segments[i])
  }

  lemma LacksConcat(a: string, b: string, c: char)
    ensures Lacks(a + b, c) <==> Lacks(a, c) && Lacks(b, c)
  {
    if Lacks(a, c) && Lacks(b, c) {
      forall i | 0 <= i < |a + b| ensures (a + b)[i] != c {
        if i >= |a| { assert (a + b)[i] == b[i - |a|]; }
      }
    }
    if Lacks(a + b, c) {
      forall i | 0 <= i < |a| ensures a[i] != c {
        assert (a + b)[i] == a[i];
      }
      forall i | 0 <= i < |b| ensures b[i] != c {
        assert (a + b)[|a| + i] == b[i];
      }
    }
  }

  // ---------------------------------------------------------------------
  // From strings to paths and back
  // ---------------------------------------------------------------------

  /** Length of the leading run of non-separator characters of `s`. */
  function SegmentEnd(s: string): (n: nat)
    ensures n <= |s|
    ensures Lacks(s[..n], '/')
    ensures n < |s| ==> s[n] == '/'
  {
    if s == [] || s[0] == '/' then 0
    else
      var m := SegmentEnd(s[1..]);
      assert s[..m + 1] == [s[0]] + s[1..][..m];
      m + 1
  }

  /** The non-empty segments of `s`, in order. */
  function Split(s: string): (segs: seq<string>)
    ensures forall i :: 0 <= i < |segs| ==> IsSegment(segs[i])
    decreases |s|
  {
    if s == [] then []
    else if s[0] == '/' then Split(s[1..])
    else
      var n := SegmentEnd(s);
      assert n > 0;
      [s[..n]] + Split(s[n..])
  }

  /** The path a string denotes, as `path{s}` builds it. */
  function Parse(s: string): (p: Path)
    ensures WellFormed(p)
  {
    Path(s != [] && s[0] == '/', Split(s))
  }

  function JoinSegments(segs: seq<string>): string {
    if segs == [] then ""
    else if |segs| == 1 then segs[0]
    else segs[0] + "/" + JoinSegments(segs[1..])
  }

  /** The generic ('/'-separated) string of a path. */
  function Render(p: Path): (s: string)
    ensures WellFormed(p) ==> (s != [] && s[0] == '/' <==> p.absolute)
  {
    var s := (if p.absolute then "/" else "") + JoinSegments(p.segments);
    if WellFormed(p) then SplitJoin(p.segments); s else s
  }

  lemma {:induction false} SegmentEndOfConcat(a: string, t: string)
    requires Lacks(a, '/')
    requires t == [] || t[0] == '/'
    ensures SegmentEnd(a + t) == |a|
  {
    if a != [] {
      assert (a + t)[0] == a[0];
      assert (a + t)[1..] == a[1..] + t;
      SegmentEndOfConcat(a[1..], t);
    }
  }

  /** Splitting the joined segments gives the segments back. */
  lemma {:induction false} SplitJoin(segs: seq<string>)
    requires forall i :: 0 <= i < |segs| ==> IsSegment(segs[i])
    ensures Split(JoinSegments(segs)) == segs
    ensures segs != [] ==> JoinSegments(segs)[0] != '/'
  {
    if segs != [] {
      var a := segs[0];
      assert IsSegment(a);
      if |segs| == 1 {
        SegmentEndOfConcat(a, []);
        assert a + [] == a;
        assert a[|a|..] == [];
      } else {
        var rest := JoinSegments(segs[1..]);
        var t := "/" + rest;
        var s := a + t;
        assert JoinSegments(segs) == s;
        SegmentEndOfConcat(a, t);
        assert s[..|a|] == a;
        assert s[|a|..] == t;
        assert t[1..] == rest;
        SplitJoin(segs[1..]);
        assert [a] + segs[1..] == segs;
      }
    }
  }

  /** Parsing the rendering of a well-formed path gives the path back. */
  lemma ParseRender(p: Path)
    requires WellFormed(p)
    ensures Parse(Render(p)) == p
  {
    SplitJoin(p.segments);
    var j := JoinSegments(p.segments);
    if p.absolute {
      var s := "/" + j;
      assert s[1..] == j;
    } else {
      assert Render(p) == j;
    }
  }

  // ---------------------------------------------------------------------
  // Decomposition: parent_path, filename, stem
  // ---------------------------------------------------------------------

  /** `parent_path()`: the path without its last segment. */
  function Parent(p: Path): (q: Path)
    ensures WellFormed(p) ==> WellFormed(q)
  {
    if p.segments == [] then p else Path(p.absolute, p.segments[..|p.segments| - 1])
  }

  /** `filename()`: the last segment, or empty. */
  function FileName(p: Path): (name: string)
    ensures WellFormed(p) ==> Lacks(name, '/')
  {
    if p.segments == [] then "" else p.segments[|p.segments| - 1]
  }

  /** Index of the last '.' of `s`, or -1 when `s` has none. */
  function LastDot(s: string): (k: int)
    ensures -1 <= k < |s|
    ensures 0 <= k ==> s[k] == '.' && Lacks(s[k + 1..], '.')
    ensures k == -1 ==> Lacks(s, '.')
    decreases |s|
  {
    if s == [] then -1
    else if s[|s| - 1] == '.' then |s| - 1
    else
      var k := LastDot(s[..|s| - 1]);
      assert 0 <= k ==> s[k + 1..] == s[..|s| - 1][k + 1..] + [s[|s| - 1]];
      k
  }

  /** The file name without its extension (the part from the last '.' on,
      unless that '.' is the first character or the name is ".."). */
  function StemOf(name: string): (stem: string)
    ensures |stem| <= |name| && stem == name[..|stem|]
    ensures Lacks(name, '/') ==> Lacks(stem, '/')
  {
    if name == ".." then name
    else
      var k := LastDot(name);
      if k <= 0 then name else name[..k]
  }

  /** `stem()` */
  function Stem(p: Path): (stem: string)
    ensures WellFormed(p) ==> Lacks(stem, '/')
  {
    StemOf(FileName(p))
  }

  lemma {:induction false} LastDotSuffix(s: string, t: string)
    requires Lacks(t, '.')
    ensures LastDot(s + t) == LastDot(s)
    decreases |t|
  {
    if t == [] {
      assert s + t == s;
    } else {
      var u := t[..|t| - 1];
      assert (s + t)[..|s + t| - 1] == s + u;
      LastDotSuffix(s, u);
    }
  }

  /** Removing an extension that has no '.' of its own yields the base. */
  lemma StemOfExtension(base: string, ext: string)
    requires base != [] && Lacks(ext, '.')
    requires base + "." + ext != ".."
    ensures StemOf(base + "." + ext) == base
  {
    var dotted := base + ".";
    assert LastDot(dotted) == |base|;
    LastDotSuffix(dotted, ext);
    assert (dotted + ext)[..|base|] == base;
  }

  // ---------------------------------------------------------------------
  // Composition: operator/ and lexically_relative
  // ---------------------------------------------------------------------

  /** `base / p`: an absolute `p` replaces `base`, a relative one is appended. */
  function Join(base: Path, p: Path): (q: Path)
    ensures WellFormed(base) && WellFormed(p) ==> WellFormed(q)
  {
    if p.absolute then p else Path(base.absolute, base.segments + p.segments)
  }

  /** `dir / name` for a single file name. */
  function Child(dir: Path, name: string): (p: Path)
    ensures Parent(p) == dir && FileName(p) == name
    ensures WellFormed(dir) && IsSegment(name) ==> WellFormed(p)
  {
    var p := Join(dir, Path(false, [name]));
    assert p.segments[..|p.segments| - 1] == dir.segments;
    p
  }

  /** Length of the longest common prefix of two segment sequences. */
  function CommonPrefix(a: seq<string>, b: seq<string>): (k: nat)
    ensures k <= |a| && k <= |b|
    ensures a[..k] == b[..k]
    ensures k < |a| && k < |b| ==> a[k] != b[k]
  {
    if a == [] || b == [] || a[0] != b[0] then 0
    else
      var k := CommonPrefix(a[1..], b[1..]) + 1;
      assert a[..k] == [a[0]] + a[1..][..k - 1];
      assert b[..k] == [b[0]] + b[1..][..k - 1];
      k
  }

  /** `p.lexically_relative(base)`: empty when exactly one of them is
      absolute, "." when they are equal, otherwise one ".." per segment of
      `base` past the common prefix followed by the rest of `p`. */
  function LexicallyRelative(p: Path, base: Path): (r: Path)
    ensures !r.absolute
    ensures WellFormed(p) ==> WellFormed(r)
  {
    if p.absolute != base.absolute then Path(false, [])
    else
      var k := CommonPrefix(p.segments, base.segments);
      var up := |base.segments| - k;
      if up == 0 && k == |p.segments| then Path(false, ["."])
      else
        var r := Path(false, seq(up, _ => "..") + p.segments[k..]);
        assert IsSegment("..") && IsSegment(".");
        r
  }

  /** When `b` is a prefix of `a`, the common prefix is all of `b`. */
  lemma {:induction false} CommonPrefixOfPrefix(a: seq<string>, b: seq<string>)
    requires |b| <= |a| && a[..|b|] == b
    ensures CommonPrefix(a, b) == |b|
  {
    if b != [] {
      assert a[0] == b[0];
      assert a[1..][..|b| - 1] == b[1..];
      CommonPrefixOfPrefix(a[1..], b[1..]);
    }
  }

  /** A path below `base`, taken relative to `base` and joined back onto it,
      is the path itself; the relative part is exactly the segments below `base`. */
  lemma RelativeInverse(p: Path, base: Path)
    requires p.absolute == base.absolute
    requires |base.segments| < |p.segments|
    requires p.segments[..|base.segments|] == base.segments
    ensures LexicallyRelative(p, base) == Path(false, p.segments[|base.segments|..])
    ensures Join(base, LexicallyRelative(p, base)) == p
  {
    var n := |base.segments|;
    CommonPrefixOfPrefix(p.segments, base.segments);
    assert seq(0, _ => "..") + p.segments[n..] == p.segments[n..];
    assert base.segments + p.segments[n..] == p.segments;
  }
}
