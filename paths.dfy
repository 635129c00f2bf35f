/** Path strings as `NPath.Combine`, `System.IO.Path.Combine` and `NPath.Parent` build them. */
module Paths {
  import opened Wrappers

  /** Appends one segment, adding the separator unless `base` is empty or already ends with it. */
  function Append(base: string, segment: string, sep: char): string
  {
    if base == "" then segment
    else if base[|base| - 1] == sep then base + segment
    else base + [sep] + segment
  }

  /** `base.Combine(s1, s2, ...)`: the segments appended in order. */
  function Combine(base: string, segments: seq<string>, sep: char): string
    decreases |segments|
  {
    if segments == [] then base
    else Combine(Append(base, segments[0], sep), segments[1..], sep)
  }

  /** `s` ends with `suffix`. */
  predicate EndsWith(s: string, suffix: string)
  {
    |suffix| <= |s| && s[|s| - |suffix|..] == suffix
  }

  /** Combining keeps the base as a prefix and ends with the last segment. */
  lemma {:induction false} CombineBounds(base: string, segments: seq<string>, sep: char)
    ensures var r := Combine(base, segments, sep);
      |base| <= |r| && r[..|base|] == base
    ensures var r := Combine(base, segments, sep);
      segments != [] ==> |segments[|segments| - 1]| <= |r| && r[|r| - |segments[|segments| - 1]|..] == segments[|segments| - 1]
    decreases |segments|
  {
    if segments != [] {
      var next := Append(base, segments[0], sep);
      CombineBounds(next, segments[1..], sep);
      var r := Combine(base, segments, sep);
      assert r == Combine(next, segments[1..], sep);
      assert r[..|next|][..|base|] == r[..|base|];
    }
  }

  /** The position of the last `c` in `s`. */
  function LastIndexOf(s: string, c: char): (r: Option<nat>)
    ensures r.Some? ==> r.value < |s| && s[r.value] == c
    ensures r.Some? ==> forall j :: r.value < j < |s| ==> s[j] != c
    ensures r.None? ==> c !in s
    decreases |s|
  {
    if s == [] then None
    else if s[|s| - 1] == c then Some(|s| - 1)
    else
      var r := LastIndexOf(s[..|s| - 1], c);
      assert s == s[..|s| - 1] + [s[|s| - 1]];
      r
  }

  /** `NPath.Parent`: the path without its last segment; the root is its own parent's prefix. */
  function Parent(p: string, sep: char): (r: string)
    ensures |r| <= |p| && r == p[..|r|]
    ensures sep !in p ==> r == ""
  {
    match LastIndexOf(p, sep)
    case None => ""
    case Some(i) => if i == 0 then [sep] else p[..i]
  }

  /** The parent of `q + [sep] + name` is `q` when `name` has no separator and `q` is not empty. */
  lemma ParentOf(q: string, sep: char, name: string)
    requires q != "" && sep !in name
    ensures Parent(q + [sep] + name, sep) == q
  {
    var p := q + [sep] + name;
    assert p[|q|] == sep;
    assert forall j :: |q| < j < |p| ==> p[j] == name[j - |q| - 1];
    assert p[..|q|] == q;
  }
}
