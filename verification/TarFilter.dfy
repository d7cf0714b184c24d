/** Which archive-relative names a filter lets through. */
module TarFilter {
  import opened PathNames
  import opened GlobMatch

  datatype Filter = Filter(glob: Glob, includes: seq<string>, excludes: seq<string>)

  /** The filter that lets everything through. */
  function Everything(glob: Glob): Filter {
    Filter(glob, [], [])
  }

  ghost predicate MatchesGlob(glob: Glob, pattern: string, name: seq<string>) {
    Matches(glob, Split(pattern), name)
  }

  /** The pattern matches the ancestor of `depth` segments, or the path itself. */
  ghost predicate HitsAt(f: Filter, pattern: string, path: seq<string>, depth: int)
    requires 1 <= depth <= |path|
  {
    MatchesGlob(f.glob, pattern, path[..depth])
  }

  ghost predicate HitsUpTo(f: Filter, pattern: string, path: seq<string>, depth: int)
    requires depth <= |path|
  {
    exists k :: 1 <= k <= depth && HitsAt(f, pattern, path, k)
  }

  ghost predicate ExcludesPrefix(f: Filter, pattern: string, path: seq<string>) {
    HitsUpTo(f, pattern, path, |path|)
  }

  /** The path, or one of its ancestors, matches an exclude pattern. */
  ghost predicate Excluded(f: Filter, path: seq<string>) {
    exists pattern :: pattern in f.excludes && ExcludesPrefix(f, pattern, path)
  }

  ghost predicate Included(f: Filter, path: seq<string>) {
    && !Excluded(f, path)
    && (f.includes == [] || exists pattern :: pattern in f.includes && MatchesGlob(f.glob, pattern, path))
  }

  /** What a path names, as the filter reads it. */
  function PathOf(name: string): seq<string> {
    Split(Trimmed(name))
  }

  lemma PathOfJoin(path: seq<string>)
    requires path != [] && Segments(path)
    ensures PathOf(Join(path)) == path && PathOf(Join(path) + "/") == path
  {
    TrimmedJoin(path);
    SplitJoin(path);
  }

  /** A leading "./", as tar itself writes it, makes no difference. */
  lemma PathOfDotted(path: seq<string>)
    requires path != [] && Segments(path)
    ensures PathOf("./" + Join(path)) == path && PathOf("./" + (Join(path) + "/")) == path
  {
    var s := Join(path);
    JoinEnds(path);
    SplitJoin(path);
    assert s[|s| - 1..][0] == s[|s| - 1];
    TrimmedMeans(s);
  }

  /** Excluding a directory excludes everything beneath it. */
  lemma ExclusionIsInherited(f: Filter, path: seq<string>, below: seq<string>)
    requires Excluded(f, path)
    ensures Excluded(f, path + below)
  {
    var pattern :| pattern in f.excludes && ExcludesPrefix(f, pattern, path);
    var k :| 1 <= k <= |path| && HitsAt(f, pattern, path, k);
    assert (path + below)[..k] == path[..k];
    assert HitsAt(f, pattern, path + below, k);
    assert ExcludesPrefix(f, pattern, path + below);
  }

  method MatchGlob(glob: Glob, pattern: string, name: string) returns (matched: bool)
    ensures matched == MatchesGlob(glob, pattern, Split(name))
  {
    matched := MatchSegments(glob, Split(pattern), Split(name));
  }

  lemma CutStep(n: string, path: seq<string>, left: nat)
    requires 1 <= left <= |path| && Split(n) == path[..left]
    ensures LastSlash(n) < 0 ==> left == 1
    ensures LastSlash(n) >= 0 ==> left >= 2 && Split(n[..LastSlash(n)]) == path[..left - 1]
  {
    CutAtLastSlash(n);
    assert path[..left][..left - 1] == path[..left - 1];
  }

  /** What one round of the ancestor loop decides. */
  lemma RoundDecides(f: Filter, pattern: string, path: seq<string>, left: nat)
    requires 1 <= left <= |path|
    ensures HitsUpTo(f, pattern, path, left)
            <==> HitsAt(f, pattern, path, left) || (left >= 2 && HitsUpTo(f, pattern, path, left - 1))
  {
    if left >= 2 && HitsUpTo(f, pattern, path, left - 1) {
      var k :| 1 <= k <= left - 1 && HitsAt(f, pattern, path, k);
      assert 1 <= k <= left && HitsAt(f, pattern, path, k);
    }
  }

  /** The ancestor loop of one exclude pattern. */
  method ExcludesAncestor(f: Filter, pattern: string, name: string) returns (excluded: bool)
    ensures excluded == ExcludesPrefix(f, pattern, Split(name))
  {
    var n := name;
    ghost var path := Split(name);
    ghost var left := |path|;
    while true
      invariant 1 <= left <= |path| && Split(n) == path[..left]
      invariant HitsUpTo(f, pattern, path, left) <==> ExcludesPrefix(f, pattern, path)
      decreases |n|
    {
      RoundDecides(f, pattern, path, left);
      var matched := MatchGlob(f.glob, pattern, n);
      if matched { return true; }
      var i := LastSlash(n);
      CutStep(n, path, left);
      if i < 0 { return false; }
      left := left - 1;
      n := n[..i];
    }
  }

  /** The exclude rule on an archive name. */
  method IsExcluded(f: Filter, name: string) returns (excluded: bool)
    ensures excluded == Excluded(f, PathOf(name))
  {
    for i := 0 to |f.excludes|
      invariant forall pattern :: pattern in f.excludes[..i] ==> !ExcludesPrefix(f, pattern, PathOf(name))
    {
      assert f.excludes[..i + 1] == f.excludes[..i] + [f.excludes[i]];
      excluded := ExcludesAncestor(f, f.excludes[i], Trimmed(name));
      if excluded { return; }
    }
    assert f.excludes[..|f.excludes|] == f.excludes;
    return false;
  }

  /** The whole filter on an archive name. */
  method IsIncluded(f: Filter, name: string) returns (included: bool)
    ensures included == Included(f, PathOf(name))
  {
    var excluded := IsExcluded(f, name);
    if excluded { return false; }
    if |f.includes| == 0 { return true; }
    for i := 0 to |f.includes|
      invariant forall pattern :: pattern in f.includes[..i] ==> !MatchesGlob(f.glob, pattern, PathOf(name))
    {
      assert f.includes[..i + 1] == f.includes[..i] + [f.includes[i]];
      included := MatchGlob(f.glob, f.includes[i], Trimmed(name));
      if included { return; }
    }
    assert f.includes[..|f.includes|] == f.includes;
    return false;
  }
}
