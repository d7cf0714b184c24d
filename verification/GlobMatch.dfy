/** Matching a segmented name against a pattern with "**" segments. */
module GlobMatch {
  import opened Basics

  /** path.Match on one segment: None is a malformed pattern. */
  type Glob = (string, string) -> Option<bool>

  const STAR := "**"

  /** Pattern segment `k` takes the name segments from cut `k` to cut `k + 1`. */
  predicate TakesPiece(glob: Glob, pat: seq<string>, name: seq<string>, cuts: seq<nat>, k: nat)
    requires |cuts| == |pat| + 1 && k < |pat|
  {
    && cuts[k] <= cuts[k + 1] <= |name|
    && (pat[k] == STAR || (cuts[k + 1] == cuts[k] + 1 && glob(pat[k], name[cuts[k]]) == Some(true)))
  }

  /** `cuts` splits `name` among the pattern segments: "**" takes any number of
      name segments, every other pattern segment matches exactly one. */
  ghost predicate Splits(glob: Glob, pat: seq<string>, name: seq<string>, cuts: seq<nat>) {
    && |cuts| == |pat| + 1 && cuts[0] == 0 && cuts[|pat|] == |name|
    && forall k :: 0 <= k < |pat| ==> TakesPiece(glob, pat, name, cuts, k)
  }

  ghost predicate Matches(glob: Glob, pat: seq<string>, name: seq<string>) {
    exists cuts :: Splits(glob, pat, name, cuts)
  }

  lemma MatchesEmpty(glob: Glob, name: seq<string>)
    ensures Matches(glob, [], name) <==> name == []
  {
    if name == [] { assert Splits(glob, [], name, [0]); }
  }

  lemma ConsCut(glob: Glob, pat: seq<string>, name: seq<string>, i: nat, rest: seq<nat>)
    requires pat != [] && i <= |name| && Splits(glob, pat[1..], name[i..], rest)
    requires pat[0] == STAR || (i == 1 && glob(pat[0], name[0]) == Some(true))
    ensures Matches(glob, pat, name)
  {
    var cuts := [0] + seq(|rest|, k requires 0 <= k < |rest| => rest[k] + i);
    forall k | 0 <= k < |pat| ensures TakesPiece(glob, pat, name, cuts, k) {
      if k > 0 { assert TakesPiece(glob, pat[1..], name[i..], rest, k - 1) && pat[k] == pat[1..][k - 1]; }
    }
    assert Splits(glob, pat, name, cuts);
  }

  lemma TailCut(glob: Glob, pat: seq<string>, name: seq<string>, cuts: seq<nat>)
    requires pat != [] && Splits(glob, pat, name, cuts)
    ensures cuts[1] <= |name| && Matches(glob, pat[1..], name[cuts[1]..])
  {
    assert TakesPiece(glob, pat, name, cuts, 0);
    CutsGrow(glob, pat, name, cuts);
    var i := cuts[1];
    var rest := seq(|pat|, k requires 0 <= k < |pat| => (cuts[k + 1] - i) as nat);
    forall k | 0 <= k < |pat| - 1 ensures TakesPiece(glob, pat[1..], name[i..], rest, k) {
      assert TakesPiece(glob, pat, name, cuts, k + 1) && pat[1..][k] == pat[k + 1];
    }
    assert Splits(glob, pat[1..], name[i..], rest);
  }

  lemma CutsGrow(glob: Glob, pat: seq<string>, name: seq<string>, cuts: seq<nat>)
    requires pat != [] && Splits(glob, pat, name, cuts)
    ensures forall k :: 1 <= k < |cuts| ==> cuts[1] <= cuts[k]
  {
    var k := 1;
    while k < |pat|
      invariant 1 <= k <= |pat|
      invariant forall j :: 1 <= j <= k ==> cuts[1] <= cuts[j]
    {
      assert TakesPiece(glob, pat, name, cuts, k);
      k := k + 1;
    }
  }

  lemma MatchesStar(glob: Glob, pat: seq<string>, name: seq<string>)
    requires pat != [] && pat[0] == STAR
    ensures Matches(glob, pat, name) <==> exists i :: 0 <= i <= |name| && Matches(glob, pat[1..], name[i..])
  {
    if Matches(glob, pat, name) {
      var cuts :| Splits(glob, pat, name, cuts);
      TailCut(glob, pat, name, cuts);
    }
    if i :| 0 <= i <= |name| && Matches(glob, pat[1..], name[i..]) {
      var rest :| Splits(glob, pat[1..], name[i..], rest);
      ConsCut(glob, pat, name, i, rest);
    }
  }

  lemma MatchesOne(glob: Glob, pat: seq<string>, name: seq<string>)
    requires pat != [] && pat[0] != STAR
    ensures Matches(glob, pat, name) <==>
              name != [] && glob(pat[0], name[0]) == Some(true) && Matches(glob, pat[1..], name[1..])
  {
    if Matches(glob, pat, name) {
      var cuts :| Splits(glob, pat, name, cuts);
      TailCut(glob, pat, name, cuts);
      assert TakesPiece(glob, pat, name, cuts, 0);
    }
    if name != [] && glob(pat[0], name[0]) == Some(true) && Matches(glob, pat[1..], name[1..]) {
      var rest :| Splits(glob, pat[1..], name[1..], rest);
      ConsCut(glob, pat, name, 1, rest);
    }
  }

  /** The backtracking matcher decides exactly the existence of a split. */
  method MatchSegments(glob: Glob, pattern: seq<string>, segments: seq<string>) returns (matched: bool)
    ensures matched == Matches(glob, pattern, segments)
    decreases |pattern|
  {
    var pat, name := pattern, segments;
    while pat != []
      invariant |pat| <= |pattern|
      invariant Matches(glob, pattern, segments) == Matches(glob, pat, name)
      decreases |pat|
    {
      if pat[0] == STAR {
        MatchesStar(glob, pat, name);
        for i := 0 to |name| + 1
          invariant forall j :: 0 <= j < i ==> !Matches(glob, pat[1..], name[j..])
        {
          var rest := MatchSegments(glob, pat[1..], name[i..]);
          if rest { return true; }
        }
        return false;
      }
      MatchesOne(glob, pat, name);
      if name == [] { return false; }
      var one := glob(pat[0], name[0]);
      if one.None? || !one.value { return false; }
      pat, name := pat[1..], name[1..];
    }
    MatchesEmpty(glob, name);
    return name == [];
  }
}
