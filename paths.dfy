/** POSIX `pathlib` paths as the code uses them: a path is its `.parts`
    tuple, `Path(s)` parses a string, `/` joins and `.name` is the last
    component. */
module Paths {

  /** The `.parts` of a path: an optional root ("/" or "//") followed by
      components that are non-empty, not "." and free of '/'. */
  type Path = seq<string>

  predicate IsRoot(part: string) {
    part == "/" || part == "//"
  }

  predicate IsAbsolute(p: Path) {
    |p| > 0 && IsRoot(p[0])
  }

  predicate IsComponent(c: string) {
    c != "" && c != "." && '/' !in c
  }

  /** The shape of every `.parts` tuple `pathlib` builds. */
  predicate WellFormed(p: Path) {
    forall i :: 0 <= i < |p| ==> (i == 0 && IsRoot(p[i])) || IsComponent(p[i])
  }

  /** Index of the first '/' in `s`, or `|s|` when there is none. */
  function SlashIndex(s: string): (k: nat)
    ensures k <= |s|
    ensures '/' !in s[..k]
    ensures k < |s| ==> s[k] == '/'
  {
    if s == [] || s[0] == '/' then 0
    else
      var k := 1 + SlashIndex(s[1..]);
      assert s[..k] == [s[0]] + s[1..][..k - 1];
      k
  }

  /** A segment between two slashes: empty segments and "." vanish. */
  function Segment(seg: string): Path {
    if seg == "" || seg == "." then [] else [seg]
  }

  /** The components of a relative path string. */
  function Segments(s: string): (p: Path)
    ensures forall i :: 0 <= i < |p| ==> IsComponent(p[i])
    decreases |s|
  {
    if s == [] then []
    else
      var k := SlashIndex(s);
      Segment(s[..k]) + (if k < |s| then Segments(s[k + 1..]) else [])
  }

  /** `Path(s).parts`: exactly two leading slashes form the root "//",
      one or more than two form the root "/". */
  function ParsePath(s: string): (p: Path)
    ensures WellFormed(p)
    ensures IsAbsolute(p) <==> |s| > 0 && s[0] == '/'
  {
    if |s| >= 2 && s[0] == '/' && s[1] == '/' && (|s| == 2 || s[2] != '/') then
      ["//"] + Segments(s[2..])
    else if |s| >= 1 && s[0] == '/' then
      ["/"] + Segments(s[1..])
    else
      var p := Segments(s);
      assert |p| > 0 ==> IsComponent(p[0]);
      p
  }

  /** `a / b`: an absolute right operand replaces the left one. */
  function Join(a: Path, b: Path): (p: Path)
    ensures !IsAbsolute(b) ==> p == a + b
    ensures IsAbsolute(b) ==> p == b
  {
    if IsAbsolute(b) then b else a + b
  }

  /** `.name`: the last component, or "" for an empty path or a bare root. */
  function Name(p: Path): (n: string)
    ensures WellFormed(p) ==> n == "" || IsComponent(n)
    ensures n != "" ==> |p| > 0 && n == p[|p| - 1]
    ensures WellFormed(p) ==> (n == "" <==> |p| == 0 || (|p| == 1 && IsRoot(p[0])))
  {
    if |p| == 0 || (|p| == 1 && IsRoot(p[0])) then "" else p[|p| - 1]
  }

  /** A single component parses back to itself. */
  lemma ParseComponent(c: string)
    requires IsComponent(c)
    ensures ParsePath(c) == [c]
  {
    var k := SlashIndex(c);
    assert k == |c|;
    assert c[..k] == c;
  }

  /** Parsing a path's name gives the path of that one component, or the
      empty path when there is no name. */
  lemma ParseName(p: Path)
    requires WellFormed(p)
    ensures ParsePath(Name(p)) == if Name(p) == "" then [] else [Name(p)]
  {
    if Name(p) != "" {
      ParseComponent(Name(p));
    }
  }
}
