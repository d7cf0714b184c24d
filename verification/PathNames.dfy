/** Slash-separated names as strings and as segments. */
module PathNames {

  /** A name of one directory level. */
  predicate Segment(s: string) {
    s != "" && '/' !in s && s != "." && s != ".."
  }

  predicate Segments(path: seq<string>) {
    forall s :: s in path ==> Segment(s)
  }

  /** The pieces between slashes; always at least one. */
  function Split(s: string): (r: seq<string>)
    ensures |r| >= 1
  {
    if s == "" then [""]
    else
      var rest := Split(s[1..]);
      if s[0] == '/' then [""] + rest else [[s[0]] + rest[0]] + rest[1..]
  }

  function Join(path: seq<string>): string {
    if path == [] then ""
    else if |path| == 1 then path[0]
    else path[0] + "/" + Join(path[1..])
  }

  lemma {:induction false} SplitNoSlash(s: string)
    requires '/' !in s
    ensures Split(s) == [s]
  {
    if s != "" {
      SplitNoSlash(s[1..]);
      assert s == [s[0]] + s[1..];
    }
  }

  lemma {:induction false} SplitAppend(a: string, b: string)
    ensures Split(a + "/" + b) == Split(a) + Split(b)
  {
    var s := a + "/" + b;
    if a == "" {
      assert s == "/" + b && s[1..] == b;
    } else {
      assert s[1..] == a[1..] + "/" + b && s[0] == a[0];
      SplitAppend(a[1..], b);
    }
  }

  lemma {:induction false} SplitJoin(path: seq<string>)
    requires path != [] && Segments(path)
    ensures Split(Join(path)) == path
  {
    assert path[0] in path;
    if |path| == 1 {
      SplitNoSlash(path[0]);
    } else {
      forall s | s in path[1..] ensures Segment(s) { assert s in path; }
      SplitJoin(path[1..]);
      SplitNoSlash(path[0]);
      SplitAppend(path[0], Join(path[1..]));
      assert path[0] + "/" + Join(path[1..]) == Join(path);
    }
  }

  lemma {:induction false} JoinAppend(a: seq<string>, b: seq<string>)
    requires a != [] && b != []
    ensures Join(a + b) == Join(a) + "/" + Join(b)
  {
    if |a| == 1 {
      assert (a + b)[1..] == b;
    } else {
      assert (a + b)[1..] == a[1..] + b && (a + b)[0] == a[0];
      JoinAppend(a[1..], b);
      assert a[0] + "/" + (Join(a[1..]) + "/" + Join(b)) == (a[0] + "/" + Join(a[1..])) + "/" + Join(b);
    }
  }

  /** The position of the last slash, or -1. */
  function LastSlash(s: string): (i: int)
    ensures -1 <= i < |s|
    ensures i >= 0 ==> s[i] == '/'
    ensures forall k :: i < k < |s| ==> s[k] != '/'
  {
    if s == "" then -1
    else if s[|s| - 1] == '/' then |s| - 1
    else LastSlash(s[..|s| - 1])
  }

  lemma DropLastPiece(a: string, b: string)
    requires '/' !in b
    ensures var pieces := Split(a + "/" + b); |pieces| >= 2 && pieces[..|pieces| - 1] == Split(a)
  {
    SplitAppend(a, b);
    SplitNoSlash(b);
    assert (Split(a) + [b])[..|Split(a)|] == Split(a);
  }

  /** Cutting a name at its last slash drops its last segment. */
  lemma CutAtLastSlash(s: string)
    ensures LastSlash(s) < 0 ==> Split(s) == [s]
    ensures LastSlash(s) >= 0 ==> |Split(s)| >= 2 && Split(s[..LastSlash(s)]) == Split(s)[..|Split(s)| - 1]
  {
    var i := LastSlash(s);
    if i < 0 {
      assert s[0..] == s;
      SplitNoSlash(s);
    } else {
      var a, b := s[..i], s[i + 1..];
      assert s == a + "/" + b;
      DropLastPiece(a, b);
    }
  }

  function TrimPrefix(s: string, p: string): string {
    if p <= s then s[|p|..] else s
  }

  predicate HasSuffix(s: string, suffix: string) {
    |suffix| <= |s| && s[|s| - |suffix|..] == suffix
  }

  function TrimSuffix(s: string, suffix: string): string {
    if HasSuffix(s, suffix) then s[..|s| - |suffix|] else s
  }

  /** An archive-relative name without a leading "./" and a trailing "/". */
  function Trimmed(name: string): string {
    TrimSuffix(TrimPrefix(name, "./"), "/")
  }

  lemma {:induction false} JoinEnds(path: seq<string>)
    requires path != [] && Segments(path)
    ensures Join(path) != "" && Join(path)[|Join(path)| - 1] != '/'
    ensures !("./" <= Join(path)) && Join(path)[0] != '/'
  {
    var s, first := Join(path), path[0];
    assert first in path && first[0] in first;
    assert |first| >= 2 ==> first[1] in first;
    assert |first| == 1 ==> first == [first[0]];
    if |path| == 1 {
      assert s[|s| - 1] in s;
    } else {
      forall r | r in path[1..] ensures Segment(r) { assert r in path; }
      JoinEnds(path[1..]);
      var rest := Join(path[1..]);
      assert s == first + "/" + rest;
      assert s[|s| - 1] == rest[|rest| - 1] && s[0] == first[0];
      assert |first| >= 2 ==> s[1] == first[1];
    }
  }

  lemma NoDotSlash(path: seq<string>)
    requires path != [] && Segments(path)
    ensures !("./" <= Join(path) + "/")
  {
    var s := Join(path);
    var t := s + "/";
    JoinEnds(path);
    assert s != "." by {
      SplitJoin(path);
      SplitNoSlash(".");
      assert path[0] in path;
    }
    assert t[0] == s[0];
    assert |s| == 1 ==> s == [s[0]];
    assert |s| >= 2 ==> t[1] == s[1] && s[..2] == [s[0], s[1]];
  }

  lemma TrimPlain(s: string)
    requires s != "" && !("./" <= s) && s[|s| - 1] != '/'
    ensures Trimmed(s) == s
  {
    assert s[|s| - 1..][0] == s[|s| - 1];
  }

  lemma TrimDirectory(s: string)
    requires !("./" <= s + "/")
    ensures Trimmed(s + "/") == s
  {
    var t := s + "/";
    assert t[|t| - 1..] == "/" && t[..|t| - 1] == s;
  }

  /** Trimming leaves a clean name alone and takes the slash off a directory's. */
  lemma TrimmedJoin(path: seq<string>)
    requires path != [] && Segments(path)
    ensures Trimmed(Join(path)) == Join(path) && Trimmed(Join(path) + "/") == Join(path)
  {
    JoinEnds(path);
    NoDotSlash(path);
    TrimPlain(Join(path));
    TrimDirectory(Join(path));
  }

  /** Exactly one leading "./" and one trailing "/" go. */
  lemma TrimmedMeans(s: string)
    requires !("./" <= s) && !HasSuffix(s, "/")
    ensures Trimmed(s) == s && Trimmed("./" + s) == s && Trimmed("./" + (s + "/")) == s
    ensures s != "." ==> Trimmed(s + "/") == s
  {
    TrimDots(s);
    TrimDots(s + "/");
    TrimSlash(s);
    if s != "." { NotDotted(s); }
  }

  lemma TrimDots(s: string)
    ensures TrimPrefix("./" + s, "./") == s
  {
    assert ("./" + s)[2..] == s;
  }

  lemma NotDotted(s: string)
    requires !("./" <= s) && s != "."
    ensures !("./" <= s + "/")
  {
    var t := s + "/";
    assert |s| == 1 ==> s == [s[0]] && t[0] == s[0];
    assert |s| >= 2 ==> t[0] == s[0] && t[1] == s[1] && s[..2] == [s[0], s[1]];
  }

  lemma TrimSlash(s: string)
    requires !HasSuffix(s, "/")
    ensures TrimSuffix(s, "/") == s && TrimSuffix(s + "/", "/") == s
  {
    var t := s + "/";
    assert t[|t| - 1..] == "/" && t[..|t| - 1] == s;
  }
}
