/** Sorting by a strict order, and the byte order of names. */
module Sorting {

  /** `a` comes strictly before `b`, as Go compares strings. */
  predicate NameLess(a: string, b: string) {
    if b == "" then false
    else if a == "" then true
    else if a[0] != b[0] then a[0] < b[0]
    else NameLess(a[1..], b[1..])
  }

  /** `a` and `b` agree on their first `i` characters, where `a` ends or differs. */
  predicate PartAt(a: string, b: string, i: nat) {
    i <= |a| && i < |b| && a[..i] == b[..i] && (i == |a| || a[i] < b[i])
  }

  /** That is the lexicographic order: where the two first differ, `a` has the
      smaller character or has ended. */
  lemma {:induction false} NameLessMeans(a: string, b: string)
    ensures NameLess(a, b) <==> exists i: nat :: PartAt(a, b, i)
  {
    if b != "" && a != "" && a[0] == b[0] {
      NameLessMeans(a[1..], b[1..]);
      if i: nat :| PartAt(a[1..], b[1..], i) {
        assert a[..i + 1] == [a[0]] + a[1..][..i] && b[..i + 1] == [b[0]] + b[1..][..i];
        assert PartAt(a, b, i + 1);
      }
      if i: nat :| PartAt(a, b, i) {
        assert i > 0 && a[1..][..i - 1] == a[..i][1..] && b[1..][..i - 1] == b[..i][1..];
        assert PartAt(a[1..], b[1..], i - 1);
      }
    } else {
      assert NameLess(a, b) ==> PartAt(a, b, 0);
      if i: nat :| PartAt(a, b, i) { PartsAtStart(a, b, i); }
    }
  }

  lemma PartsAtStart(a: string, b: string, i: nat)
    requires PartAt(a, b, i)
    ensures if i == 0 then NameLess(a, b) else a != "" && b != "" && a[0] == b[0]
  {
    if i > 0 { assert a[..i][0] == b[..i][0]; }
  }

  lemma {:induction false} NameLessIsTotal(a: string, b: string)
    ensures !NameLess(a, a)
    ensures NameLess(a, b) ==> !NameLess(b, a)
    ensures NameLess(a, b) || NameLess(b, a) || a == b
  {
    if a != "" { NameLessIsTotal(a[1..], a[1..]); }
    if a != "" && b != "" && a[0] == b[0] {
      NameLessIsTotal(a[1..], b[1..]);
      assert a == [a[0]] + a[1..] && b == [b[0]] + b[1..];
    }
  }

  lemma {:induction false} NameLessIsTransitive(a: string, b: string, c: string)
    requires NameLess(a, b) && NameLess(b, c)
    ensures NameLess(a, c)
  {
    if a != "" && b != "" && c != "" && a[0] == b[0] == c[0] {
      NameLessIsTransitive(a[1..], b[1..], c[1..]);
    }
  }

  /** No element comes before an earlier one. */
  ghost predicate SortedBy<T>(s: seq<T>, less: (T, T) -> bool) {
    forall i, j :: 0 <= i < j < |s| ==> !less(s[j], s[i])
  }

  ghost predicate StrictOrder<T(!new)>(less: (T, T) -> bool) {
    && (forall x, y :: less(x, y) ==> !less(y, x))
    && (forall x, y, z :: less(x, y) && !less(z, y) ==> less(x, z))
  }

  function Insert<T>(x: T, s: seq<T>, less: (T, T) -> bool): seq<T> {
    if s == [] || !less(s[0], x) then [x] + s else [s[0]] + Insert(x, s[1..], less)
  }

  function Sort<T>(s: seq<T>, less: (T, T) -> bool): seq<T> {
    if s == [] then [] else Insert(s[0], Sort(s[1..], less), less)
  }

  lemma {:induction false} InsertKeeps<T(!new)>(x: T, s: seq<T>, less: (T, T) -> bool)
    ensures multiset(Insert(x, s, less)) == multiset([x] + s)
  {
    if s != [] && less(s[0], x) {
      InsertKeeps(x, s[1..], less);
      assert s == [s[0]] + s[1..];
      assert [x] + s == [x, s[0]] + s[1..];
    }
  }

  /** Nothing in `s` comes before `x`. */
  ghost predicate First<T>(x: T, s: seq<T>, less: (T, T) -> bool) {
    forall j :: 0 <= j < |s| ==> !less(s[j], x)
  }

  lemma FirstSorts<T>(x: T, s: seq<T>, less: (T, T) -> bool)
    requires First(x, s, less) && SortedBy(s, less)
    ensures SortedBy([x] + s, less)
  {
    var all := [x] + s;
    forall i, j | 0 <= i < j < |all| ensures !less(all[j], all[i]) {
      assert all[j] == s[j - 1] && (i > 0 ==> all[i] == s[i - 1]);
    }
  }

  lemma InsertIsAfter<T(!new)>(y: T, x: T, s: seq<T>, less: (T, T) -> bool)
    requires First(y, s, less) && !less(x, y)
    ensures First(y, Insert(x, s, less), less)
  {
    var r := Insert(x, s, less);
    InsertKeeps(x, s, less);
    forall j | 0 <= j < |r| ensures !less(r[j], y) {
      assert r[j] in multiset(r);
      assert r[j] == x || r[j] in s;
    }
  }

  lemma {:induction false} InsertSorts<T(!new)>(x: T, s: seq<T>, less: (T, T) -> bool)
    requires StrictOrder(less) && SortedBy(s, less)
    ensures SortedBy(Insert(x, s, less), less)
  {
    if s == [] {
    } else if !less(s[0], x) {
      forall j | 0 <= j < |s| ensures !less(s[j], x) {
        assert j > 0 ==> !less(s[j], s[0]);
      }
      FirstSorts(x, s, less);
    } else {
      InsertSorts(x, s[1..], less);
      InsertIsAfter(s[0], x, s[1..], less);
      FirstSorts(s[0], Insert(x, s[1..], less), less);
    }
  }

  lemma {:induction false} SortKeeps<T(!new)>(s: seq<T>, less: (T, T) -> bool)
    ensures multiset(Sort(s, less)) == multiset(s) && |Sort(s, less)| == |s|
  {
    if s != [] {
      SortKeeps(s[1..], less);
      InsertKeeps(s[0], Sort(s[1..], less), less);
      assert s == [s[0]] + s[1..];
    }
    assert |multiset(Sort(s, less))| == |multiset(s)|;
  }

  lemma {:induction false} SortSorts<T(!new)>(s: seq<T>, less: (T, T) -> bool)
    requires StrictOrder(less)
    ensures multiset(Sort(s, less)) == multiset(s) && SortedBy(Sort(s, less), less)
    ensures |Sort(s, less)| == |s|
  {
    SortKeeps(s, less);
    if s != [] {
      SortSorts(s[1..], less);
      InsertSorts(s[0], Sort(s[1..], less), less);
    }
  }

  // ---------------------------------------------------------------- sorted names

  predicate NoRepeats<T(==)>(s: seq<T>) {
    forall i, j :: 0 <= i < j < |s| ==> s[i] != s[j]
  }

  lemma TwiceInSeq<T>(s: seq<T>, i: nat, j: nat)
    requires i < j < |s| && s[i] == s[j]
    ensures multiset(s)[s[i]] >= 2
  {
    assert s == s[..j] + s[j..] && s[j..] == [s[j]] + s[j + 1..];
    assert s[i] in s[..j];
    assert multiset(s) == multiset(s[..j]) + multiset{s[j]} + multiset(s[j + 1..]);
  }

  lemma {:induction false} OnceInSeq<T>(s: seq<T>, x: T)
    requires NoRepeats(s)
    ensures multiset(s)[x] <= 1
  {
    if s != [] {
      OnceInSeq(s[1..], x);
      assert s == [s[0]] + s[1..];
      if s[0] == x { assert x !in s[1..]; }
    }
  }

  lemma RepeatsStayAway<T>(s: seq<T>, sorted: seq<T>)
    requires NoRepeats(s) && multiset(sorted) == multiset(s)
    ensures NoRepeats(sorted)
  {
    forall i, j | 0 <= i < j < |sorted| ensures sorted[i] != sorted[j] {
      if sorted[i] == sorted[j] {
        TwiceInSeq(sorted, i, j);
        OnceInSeq(s, sorted[i]);
      }
    }
  }

  lemma NameOrderIsStrict()
    ensures StrictOrder(NameLess)
  {
    forall x, y | NameLess(x, y) ensures !NameLess(y, x) { NameLessIsTotal(x, y); }
    forall x, y, z | NameLess(x, y) && !NameLess(z, y) ensures NameLess(x, z) {
      NameLessIsTotal(y, z);
      if y != z { NameLessIsTransitive(x, y, z); }
    }
  }

  /** Names in strictly ascending order. */
  predicate Ascending(names: seq<string>) {
    forall i, j :: 0 <= i < j < |names| ==> NameLess(names[i], names[j])
  }

  /** The names of a set, sorted. */
  method SortedNames(names: set<string>) returns (out: seq<string>)
    ensures Ascending(out) && |out| == |names| && forall n :: n in out <==> n in names
  {
    var todo, all := names, [];
    while todo != {}
      invariant todo <= names && NoRepeats(all) && |all| + |todo| == |names|
      invariant forall n :: n in all <==> n in names && n !in todo
    {
      var n :| n in todo;
      all, todo := all + [n], todo - {n};
    }
    NameOrderIsStrict();
    SortSorts(all, NameLess);
    out := Sort(all, NameLess);
    RepeatsStayAway(all, out);
    forall n ensures n in out <==> n in names {
      assert n in out <==> n in multiset(out);
      assert n in all <==> n in multiset(all);
    }
    forall i, j | 0 <= i < j < |out| ensures NameLess(out[i], out[j]) {
      NameLessIsTotal(out[i], out[j]);
    }
  }
}
