/** The environment of a command: overrides laid over a base list, and the
    snapshot read back afterwards. */
module EnvOverlay {
  import opened Basics
  import opened JsonText

  type Vars = map<Text, Text>

  const EQ: Unit := Scalar('=')
  const NUL: Unit := Scalar('\0')

  /** The position of the first `u`, or the length. */
  function IndexOf(s: Text, u: Unit): (n: nat)
    ensures n <= |s|
    ensures n < |s| ==> s[n] == u
    ensures forall i :: 0 <= i < n ==> s[i] != u
  {
    if s == [] || s[0] == u then 0 else 1 + IndexOf(s[1..], u)
  }

  function Key(e: Text): (k: Text)
    ensures EQ !in k
  {
    e[..IndexOf(e, EQ)]
  }

  predicate HasValue(e: Text) {
    IndexOf(e, EQ) < |e|
  }

  function Value(e: Text): Text
    requires HasValue(e)
  {
    e[IndexOf(e, EQ) + 1..]
  }

  /** What one entry of an environment list says: a later entry wins. */
  function Say(vars: Vars, e: Text): Vars {
    if HasValue(e) then vars[Key(e) := Value(e)] else vars
  }

  /** What a whole environment list says. */
  function Meaning(list: seq<Text>): Vars {
    if list == [] then map[] else Say(Meaning(list[..|list| - 1]), list[|list| - 1])
  }

  lemma IndexIs(s: Text, u: Unit, n: nat)
    requires n <= |s| && (n < |s| ==> s[n] == u) && forall i :: 0 <= i < n ==> s[i] != u
    ensures IndexOf(s, u) == n
  {
  }

  /** Key and value of an entry put together from them. */
  lemma EntryParts(k: Text, v: Text)
    requires EQ !in k
    ensures HasValue(k + [EQ] + v) && Key(k + [EQ] + v) == k && Value(k + [EQ] + v) == v
  {
    var e := k + [EQ] + v;
    forall i | 0 <= i < |k| ensures e[i] != EQ { assert e[i] == k[i] && k[i] in k; }
    IndexIs(e, EQ, |k|);
  }

  // ---------------------------------------------------------------- overrides

  /** The prefix test of the loop: an entry with a value under the override's key. */
  predicate Replaces(o: Text, e: Text) {
    Key(o) + [EQ] <= e
  }

  lemma ReplacesSameKey(o: Text, e: Text)
    ensures Replaces(o, e) <==> HasValue(e) && Key(e) == Key(o)
  {
    var k := Key(o);
    if Replaces(o, e) {
      assert e == k + [EQ] + e[|k| + 1..];
      EntryParts(k, e[|k| + 1..]);
    }
    if HasValue(e) && Key(e) == k {
      assert e == k + [EQ] + Value(e);
    }
  }

  function ReplaceAll(list: seq<Text>, o: Text): (r: seq<Text>)
    ensures |r| == |list|
    ensures forall i :: 0 <= i < |list| ==> r[i] == if Replaces(o, list[i]) then o else list[i]
  {
    seq(|list|, i requires 0 <= i < |list| => if Replaces(o, list[i]) then o else list[i])
  }

  ghost predicate Mentions(list: seq<Text>, o: Text) {
    exists i :: 0 <= i < |list| && Replaces(o, list[i])
  }

  ghost function OverlayOne(list: seq<Text>, o: Text): seq<Text> {
    if Mentions(list, o) then ReplaceAll(list, o) else list + [o]
  }

  ghost function Overlay(base: seq<Text>, overrides: seq<Text>): seq<Text> {
    if overrides == [] then base
    else OverlayOne(Overlay(base, overrides[..|overrides| - 1]), overrides[|overrides| - 1])
  }

  method ApplyEnvOverrides(base: seq<Text>, overrides: seq<Text>) returns (list: seq<Text>)
    ensures list == Overlay(base, overrides)
  {
    list := base;
    for j := 0 to |overrides|
      invariant list == Overlay(base, overrides[..j])
    {
      var o := overrides[j];
      assert overrides[..j + 1][..j] == overrides[..j];
      var before := list;
      var prefix := Key(o) + [EQ];
      var found := false;
      for i := 0 to |before|
        invariant |list| == |before|
        invariant forall k :: 0 <= k < i ==> list[k] == if Replaces(o, before[k]) then o else before[k]
        invariant forall k :: i <= k < |list| ==> list[k] == before[k]
        invariant found <==> exists k :: 0 <= k < i && Replaces(o, before[k])
      {
        if prefix <= list[i] {
          list := list[i := o];
          found := true;
        }
      }
      if found {
        assert list == ReplaceAll(before, o);
      } else {
        assert list == before;
        list := list + [o];
      }
    }
    assert overrides[..|overrides|] == overrides;
  }

  /** What an override does to the variables: it sets its key; without a value it
      takes the key out if it was there. */
  function Override(vars: Vars, o: Text): Vars {
    if HasValue(o) then vars[Key(o) := Value(o)] else vars - {Key(o)}
  }

  function OverrideAll(vars: Vars, overrides: seq<Text>): Vars {
    if overrides == [] then vars
    else Override(OverrideAll(vars, overrides[..|overrides| - 1]), overrides[|overrides| - 1])
  }

  /** What rewriting all entries of the override's key does to the variables. */
  function Rewritten(vars: Vars, o: Text): Vars {
    if !HasValue(o) then vars - {Key(o)}
    else if Key(o) in vars then vars[Key(o) := Value(o)]
    else vars
  }

  lemma RewriteStep(vars: Vars, o: Text, e: Text)
    ensures Say(Rewritten(vars, o), if Replaces(o, e) then o else e) == Rewritten(Say(vars, e), o)
  {
    ReplacesSameKey(o, e);
  }

  lemma {:induction false} MeaningOfReplaced(list: seq<Text>, o: Text)
    ensures Meaning(ReplaceAll(list, o)) == Rewritten(Meaning(list), o)
    decreases |list|
  {
    if list != [] {
      var n := |list| - 1;
      MeaningOfReplaced(list[..n], o);
      assert ReplaceAll(list, o)[..n] == ReplaceAll(list[..n], o);
      RewriteStep(Meaning(list[..n]), o, list[n]);
    }
  }

  /** The last entry that gives the key a value. */
  predicate SaysLast(list: seq<Text>, k: Text, i: int) {
    && 0 <= i < |list| && HasValue(list[i]) && Key(list[i]) == k
    && forall j :: i < j < |list| ==> !(HasValue(list[j]) && Key(list[j]) == k)
  }

  lemma {:induction false} LastEntrySays(list: seq<Text>, k: Text, i: int)
    requires SaysLast(list, k, i)
    ensures k in Meaning(list) && Meaning(list)[k] == Value(list[i])
  {
    var n := |list| - 1;
    if i < n { LastEntrySays(list[..n], k, i); }
  }

  lemma {:induction false} MentionedKeys(list: seq<Text>, k: Text)
    ensures k in Meaning(list) <==> exists i :: 0 <= i < |list| && HasValue(list[i]) && Key(list[i]) == k
  {
    if list != [] {
      var n := |list| - 1;
      MentionedKeys(list[..n], k);
      if i :| 0 <= i < |list| && HasValue(list[i]) && Key(list[i]) == k {
        assert i < n ==> list[..n][i] == list[i];
      }
    }
  }

  lemma OverlayOneMeans(list: seq<Text>, o: Text)
    ensures Meaning(OverlayOne(list, o)) == Override(Meaning(list), o)
  {
    forall i | 0 <= i < |list| ensures Replaces(o, list[i]) <==> HasValue(list[i]) && Key(list[i]) == Key(o) {
      ReplacesSameKey(o, list[i]);
    }
    MentionedKeys(list, Key(o));
    if Mentions(list, o) {
      MeaningOfReplaced(list, o);
    } else {
      assert (list + [o])[..|list|] == list;
    }
  }

  /** The list says what the base says, overlaid by the overrides in order. */
  lemma {:induction false} OverlayMeans(base: seq<Text>, overrides: seq<Text>)
    ensures Meaning(Overlay(base, overrides)) == OverrideAll(Meaning(base), overrides)
    decreases |overrides|
  {
    if overrides != [] {
      var n := |overrides| - 1;
      OverlayMeans(base, overrides[..n]);
      OverlayOneMeans(Overlay(base, overrides[..n]), overrides[n]);
    }
  }

  predicate Wellformed(overrides: seq<Text>) {
    forall o :: o in overrides ==> HasValue(o)
  }

  lemma SayOnTop(vars: Vars, more: Vars, e: Text)
    requires HasValue(e)
    ensures Override(vars + more, e) == vars + Say(more, e)
  {
  }

  /** With KEY=VALUE overrides, that is the base map with the overrides' map on
      top: the last override of a key wins. */
  lemma {:induction false} OverridesOnTop(vars: Vars, overrides: seq<Text>)
    requires Wellformed(overrides)
    ensures OverrideAll(vars, overrides) == vars + Meaning(overrides)
    decreases |overrides|
  {
    if overrides != [] {
      var n := |overrides| - 1;
      forall x | x in overrides[..n] ensures x in overrides { }
      OverridesOnTop(vars, overrides[..n]);
      assert overrides[n] in overrides;
      SayOnTop(vars, Meaning(overrides[..n]), overrides[n]);
    }
  }

  ghost predicate Touched(overrides: seq<Text>, e: Text) {
    exists j :: 0 <= j < |overrides| && Replaces(overrides[j], e)
  }

  /** The last override of the entry's key. */
  predicate IsLast(overrides: seq<Text>, e: Text, j: int) {
    && 0 <= j < |overrides| && Replaces(overrides[j], e)
    && forall k :: j < k < |overrides| ==> !Replaces(overrides[k], e)
  }

  function Winner(overrides: seq<Text>, e: Text): Text {
    if overrides == [] then e
    else if Replaces(overrides[|overrides| - 1], e) then overrides[|overrides| - 1]
    else Winner(overrides[..|overrides| - 1], e)
  }

  lemma LastBefore(overrides: seq<Text>, e: Text, j: int)
    requires overrides != [] && !Replaces(overrides[|overrides| - 1], e) && IsLast(overrides, e, j)
    ensures IsLast(overrides[..|overrides| - 1], e, j)
  {
  }

  lemma {:induction false} WinnerIs(overrides: seq<Text>, e: Text)
    ensures !Touched(overrides, e) ==> Winner(overrides, e) == e
    ensures forall j :: IsLast(overrides, e, j) ==> Winner(overrides, e) == overrides[j]
  {
    if overrides != [] && !Replaces(overrides[|overrides| - 1], e) {
      var before := overrides[..|overrides| - 1];
      WinnerIs(before, e);
      if Touched(before, e) {
        var j :| 0 <= j < |before| && Replaces(before[j], e);
        assert Replaces(overrides[j], e);
      }
      forall j | IsLast(overrides, e, j) ensures Winner(overrides, e) == overrides[j] {
        LastBefore(overrides, e, j);
      }
    }
  }

  predicate SameKey(a: Text, b: Text) {
    HasValue(a) == HasValue(b) && (HasValue(a) ==> Key(a) == Key(b))
  }

  lemma {:induction false} WinnerKeepsKey(overrides: seq<Text>, e: Text)
    requires Wellformed(overrides)
    ensures SameKey(Winner(overrides, e), e)
  {
    if overrides != [] {
      var n := |overrides| - 1;
      assert overrides[n] in overrides;
      forall x | x in overrides[..n] ensures x in overrides { }
      ReplacesSameKey(overrides[n], e);
      WinnerKeepsKey(overrides[..n], e);
    }
  }

  lemma {:induction false} OverlayWinner(base: seq<Text>, overrides: seq<Text>, i: nat)
    requires i < |base| && Wellformed(overrides)
    ensures |Overlay(base, overrides)| >= |base| && Overlay(base, overrides)[i] == Winner(overrides, base[i])
    decreases |overrides|
  {
    if overrides != [] {
      var n := |overrides| - 1;
      forall x | x in overrides[..n] ensures x in overrides { }
      OverlayWinner(base, overrides[..n], i);
      var before := Overlay(base, overrides[..n]);
      WinnerKeepsKey(overrides[..n], base[i]);
      ReplacesSameKey(overrides[n], base[i]);
      ReplacesSameKey(overrides[n], before[i]);
    }
  }

  /** Entries no override touches stay where they are, and a touched entry becomes
      the last override of its key. */
  lemma OverlayInPlace(base: seq<Text>, overrides: seq<Text>, i: nat)
    requires i < |base| && Wellformed(overrides)
    ensures |Overlay(base, overrides)| >= |base|
    ensures !Touched(overrides, base[i]) ==> Overlay(base, overrides)[i] == base[i]
    ensures forall j :: IsLast(overrides, base[i], j) ==> Overlay(base, overrides)[i] == overrides[j]
  {
    OverlayWinner(base, overrides, i);
    WinnerIs(overrides, base[i]);
  }

  // ---------------------------------------------------------------- the snapshot

  function SplitNul(data: Text): seq<Text>
    decreases |data|
  {
    var n := IndexOf(data, NUL);
    if n == |data| then [data] else [data[..n]] + SplitNul(data[n + 1..])
  }

  method ParseEnvDump(data: Text) returns (vars: Vars)
    ensures vars == Meaning(SplitNul(data))
  {
    var entries := SplitNul(data);
    vars := map[];
    for i := 0 to |entries|
      invariant vars == Meaning(entries[..i])
    {
      assert entries[..i + 1][..i] == entries[..i];
      if HasValue(entries[i]) {
        vars := vars[Key(entries[i]) := Value(entries[i])];
      }
    }
    assert entries[..|entries|] == entries;
  }

  /** The snapshot a command leaves: each entry, then a NUL. */
  function Dump(list: seq<Text>): Text {
    if list == [] then [] else list[0] + [NUL] + Dump(list[1..])
  }

  predicate NulFree(list: seq<Text>) {
    forall e :: e in list ==> NUL !in e
  }

  lemma SplitFirst(e: Text, rest: Text)
    requires NUL !in e
    ensures SplitNul(e + [NUL] + rest) == [e] + SplitNul(rest)
  {
    var s := e + [NUL] + rest;
    forall i | 0 <= i < |e| ensures s[i] != NUL { assert s[i] == e[i] && e[i] in e; }
    IndexIs(s, NUL, |e|);
    assert s[..|e|] == e && s[|e| + 1..] == rest;
  }

  lemma SplitRegroups(list: seq<Text>)
    requires list != []
    ensures [list[0]] + (list[1..] + [[]]) == list + [[]]
  {
  }

  lemma {:induction false} DumpSplits(list: seq<Text>)
    requires NulFree(list)
    ensures SplitNul(Dump(list)) == list + [[]]
  {
    if list == [] {
      assert SplitNul([]) == [[]];
    } else {
      var e, rest := list[0], list[1..];
      assert e in list;
      forall x | x in rest ensures x in list { }
      SplitFirst(e, Dump(rest));
      DumpSplits(rest);
      SplitRegroups(list);
    }
  }

  /** Reading a snapshot back gives what the list says. */
  lemma DumpRoundTrip(list: seq<Text>)
    requires NulFree(list)
    ensures Meaning(SplitNul(Dump(list))) == Meaning(list)
  {
    DumpSplits(list);
    assert (list + [[]])[..|list|] == list;
  }

  predicate NulFreeVars(vars: Vars) {
    forall k :: k in vars ==> NUL !in k && NUL !in vars[k]
  }

  lemma {:induction false} SplitNulIsNulFree(data: Text)
    ensures NulFree(SplitNul(data))
    decreases |data|
  {
    var n := IndexOf(data, NUL);
    if n < |data| { SplitNulIsNulFree(data[n + 1..]); }
  }

  // ---------------------------------------------------------------- the loop between calls

  /** The entries a client feeds back for the reported variables. */
  function EntriesFor(vars: Vars, keys: seq<Text>): (entries: seq<Text>)
    requires forall k :: k in keys ==> k in vars
    ensures |entries| == |keys|
    ensures forall i :: 0 <= i < |keys| ==> entries[i] == keys[i] + [EQ] + vars[keys[i]]
  {
    seq(|keys|, i requires 0 <= i < |keys| => keys[i] + [EQ] + vars[keys[i]])
  }

  /** The handler's check of the env parameters. */
  predicate Acceptable(e: Text) {
    HasValue(e) && Key(e) != []
  }

  predicate PlainKeys(vars: Vars) {
    forall k :: k in vars ==> EQ !in k
  }

  lemma {:induction false} EntriesMean(vars: Vars, keys: seq<Text>)
    requires PlainKeys(vars) && forall k :: k in keys ==> k in vars
    ensures forall k :: k in Meaning(EntriesFor(vars, keys)) <==> k in keys
    ensures forall k :: k in keys ==> Meaning(EntriesFor(vars, keys))[k] == vars[k]
    decreases |keys|
  {
    if keys != [] {
      var n := |keys| - 1;
      var k := keys[n];
      assert k in keys;
      forall x | x in keys[..n] ensures x in keys { }
      EntriesMean(vars, keys[..n]);
      EntryParts(k, vars[k]);
      assert EntriesFor(vars, keys)[..n] == EntriesFor(vars, keys[..n]);
      assert keys == keys[..n] + [k];
    }
  }

  lemma {:induction false} MeaningHasPlainKeys(list: seq<Text>)
    ensures PlainKeys(Meaning(list))
  {
    if list != [] { MeaningHasPlainKeys(list[..|list| - 1]); }
  }

  lemma AcceptedWhenNoEmptyKey(vars: Vars, keys: seq<Text>, entries: seq<Text>)
    requires |entries| == |keys| && forall k :: k in keys <==> k in vars
    requires forall i :: 0 <= i < |keys| ==> HasValue(entries[i]) && Key(entries[i]) == keys[i]
    ensures (forall e :: e in entries ==> Acceptable(e)) <==> [] !in vars
  {
    if [] in vars {
      var i :| 0 <= i < |keys| && keys[i] == [];
      assert entries[i] in entries;
    }
  }

  lemma EntriesAreKeyed(vars: Vars, keys: seq<Text>)
    requires PlainKeys(vars) && forall k :: k in keys ==> k in vars
    ensures var entries := EntriesFor(vars, keys);
            forall i :: 0 <= i < |keys| ==> HasValue(entries[i]) && Key(entries[i]) == keys[i]
  {
    forall i | 0 <= i < |keys|
      ensures HasValue(EntriesFor(vars, keys)[i]) && Key(EntriesFor(vars, keys)[i]) == keys[i]
    {
      assert keys[i] in keys;
      EntryParts(keys[i], vars[keys[i]]);
    }
  }

  lemma EntriesMeanAll(vars: Vars, keys: seq<Text>)
    requires PlainKeys(vars) && forall k :: k in keys <==> k in vars
    ensures Meaning(EntriesFor(vars, keys)) == vars
  {
    EntriesMean(vars, keys);
  }

  lemma EntriesOverlay(vars: Vars, keys: seq<Text>)
    requires PlainKeys(vars) && forall k :: k in keys <==> k in vars
    ensures Meaning(Overlay([], EntriesFor(vars, keys))) == vars
  {
    var entries := EntriesFor(vars, keys);
    assert Wellformed(entries) by { EntriesAreKeyed(vars, keys); }
    EntriesMeanAll(vars, keys);
    OverlayMeans([], entries);
    OverridesOnTop(map[], entries);
  }

  lemma {:induction false} MeaningHasNoNul(list: seq<Text>)
    requires NulFree(list)
    ensures NulFreeVars(Meaning(list))
  {
    if list != [] {
      var n := |list| - 1;
      forall x | x in list[..n] ensures x in list { }
      MeaningHasNoNul(list[..n]);
      var e := list[n];
      assert e in list;
      forall c | c in Key(e) ensures c in e { }
    }
  }

  lemma {:induction false} OverlayMembers(base: seq<Text>, overrides: seq<Text>)
    ensures forall e :: e in Overlay(base, overrides) ==> e in base || e in overrides
    decreases |overrides|
  {
    if overrides != [] {
      var n := |overrides| - 1;
      OverlayMembers(base, overrides[..n]);
      forall x | x in overrides[..n] ensures x in overrides { }
    }
  }

  lemma EntriesAreNulFree(vars: Vars, keys: seq<Text>)
    requires forall k :: k in keys ==> k in vars
    requires NulFreeVars(vars)
    ensures NulFree(Overlay([], EntriesFor(vars, keys)))
  {
    forall i | 0 <= i < |keys| ensures NUL !in EntriesFor(vars, keys)[i] {
      assert keys[i] in keys;
    }
    OverlayMembers([], EntriesFor(vars, keys));
  }

  /** Variables fed back over an empty base, in any order: every entry is accepted
      exactly when no key is empty, the command then runs with the same variables,
      and a snapshot of them reads back the same again. */
  lemma VarsComeBack(vars: Vars, keys: seq<Text>)
    requires PlainKeys(vars) && NulFreeVars(vars) && forall k :: k in keys <==> k in vars
    ensures var entries := EntriesFor(vars, keys);
            && ((forall e :: e in entries ==> Acceptable(e)) <==> [] !in vars)
            && Meaning(Overlay([], entries)) == vars
            && Meaning(SplitNul(Dump(Overlay([], entries)))) == vars
  {
    EntriesAreKeyed(vars, keys);
    AcceptedWhenNoEmptyKey(vars, keys, EntriesFor(vars, keys));
    EntriesOverlay(vars, keys);
    EntriesAreNulFree(vars, keys);
    DumpRoundTrip(Overlay([], EntriesFor(vars, keys)));
  }

  // ---------------------------------------------------------------- the report

  /** A text encoded by the agent and decoded by the client. */
  function Through(text: Text): Text {
    match UnmarshalString(Quote(text))
    case Some(s) => Valid(s)
    case None => []
  }

  /** The variables a client reads from the report, whose fields come in the order
      of `keys`; among keys that become equal the last field stands. */
  function Reported(vars: Vars, keys: seq<Text>): Vars
    requires forall k :: k in keys ==> k in vars
  {
    if keys == [] then map[]
    else
      var k := keys[|keys| - 1];
      Reported(vars, keys[..|keys| - 1])[Through(k) := Through(vars[k])]
  }

  predicate StrayFree(vars: Vars) {
    forall k :: k in vars ==> StrayByte !in k && StrayByte !in vars[k]
  }

  lemma {:induction false} ValidHasNoStray(s: string)
    ensures StrayByte !in Valid(s)
  {
    if s != "" { ValidHasNoStray(s[1..]); }
  }

  lemma {:induction false} ScrubKeeps(text: Text, c: char)
    requires c != REPLACEMENT
    ensures Scalar(c) in Valid(Scrub(text)) <==> Scalar(c) in text
    ensures Scrub(text) == "" <==> text == []
  {
    if text != [] {
      ScrubKeeps(text[1..], c);
      assert text == [text[0]] + text[1..];
      assert Scrub(text)[1..] == Scrub(text[1..]);
    }
  }

  lemma ThroughKeeps(text: Text)
    ensures Through(text) == text <==> StrayByte !in text
    ensures StrayByte !in Through(text)
    ensures (EQ in Through(text) <==> EQ in text) && (NUL in Through(text) <==> NUL in text)
    ensures Through(text) == [] <==> text == []
  {
    QuoteRoundTrip(text);
    ScrubIsExact(text);
    ValidHasNoStray(Scrub(text));
    ScrubKeeps(text, '=');
    ScrubKeeps(text, '\0');
  }

  lemma {:induction false} KeysArrive(vars: Vars, keys: seq<Text>, k: Text)
    requires (forall x :: x in keys ==> x in vars) && k in keys
    ensures Through(k) in Reported(vars, keys)
  {
    var n := |keys| - 1;
    forall x | x in keys[..n] ensures x in keys { }
    if k != keys[n] { KeysArrive(vars, keys[..n], k); }
  }

  /** A reported variable and the key it comes from. */
  lemma {:induction false} ReportedFrom(vars: Vars, keys: seq<Text>, t: Text) returns (k: Text)
    requires (forall x :: x in keys ==> x in vars) && t in Reported(vars, keys)
    ensures k in keys && t == Through(k) && Reported(vars, keys)[t] == Through(vars[k])
  {
    var n := |keys| - 1;
    forall x | x in keys[..n] ensures x in keys { }
    k := keys[n];
    if t != Through(k) { k := ReportedFrom(vars, keys[..n], t); }
  }

  lemma CleanReports(vars: Vars, keys: seq<Text>)
    requires (forall k :: k in keys <==> k in vars) && StrayFree(vars)
    ensures Reported(vars, keys) == vars
  {
    var got := Reported(vars, keys);
    forall k | k in vars ensures k in got {
      KeysArrive(vars, keys, k);
      ThroughKeeps(k);
    }
    forall t | t in got ensures t in vars && got[t] == vars[t] {
      var k := ReportedFrom(vars, keys, t);
      ThroughKeeps(k);
      ThroughKeeps(vars[k]);
    }
  }

  lemma ReportsAreClean(vars: Vars, keys: seq<Text>)
    requires forall k :: k in keys ==> k in vars
    ensures StrayFree(Reported(vars, keys))
  {
    forall t | t in Reported(vars, keys) ensures StrayByte !in t && StrayByte !in Reported(vars, keys)[t] {
      var k := ReportedFrom(vars, keys, t);
      ThroughKeeps(k);
      ThroughKeeps(vars[k]);
    }
  }

  /** The report says what the snapshot said exactly when it has no stray byte. */
  lemma ReportIsExact(vars: Vars, keys: seq<Text>)
    requires forall k :: k in keys <==> k in vars
    ensures Reported(vars, keys) == vars <==> StrayFree(vars)
  {
    ReportsAreClean(vars, keys);
    if StrayFree(vars) { CleanReports(vars, keys); }
  }

  lemma ReportKeepsShape(vars: Vars, keys: seq<Text>)
    requires forall k :: k in keys <==> k in vars
    requires PlainKeys(vars) && NulFreeVars(vars)
    ensures PlainKeys(Reported(vars, keys)) && NulFreeVars(Reported(vars, keys))
    ensures [] in Reported(vars, keys) <==> [] in vars
  {
    var got := Reported(vars, keys);
    forall t | t in got ensures EQ !in t && NUL !in t && NUL !in got[t] && (t == [] ==> [] in vars) {
      var k := ReportedFrom(vars, keys, t);
      ThroughKeeps(k);
      ThroughKeeps(vars[k]);
    }
    if [] in vars {
      ThroughKeeps([]);
      KeysArrive(vars, keys, []);
    }
  }

  /** The variables of a snapshot, reported as JSON with fields in any order and
      fed back over an empty base in any order: every entry is accepted exactly when
      the snapshot has no empty key; the command then runs with the variables as
      reported, and a snapshot of them reads back the same. Those are the variables
      of the first snapshot exactly when no key or value of it has a stray byte. */
  lemma FeedingBack(data: Text, keys: seq<Text>, again: seq<Text>)
    requires forall k :: k in keys <==> k in Meaning(SplitNul(data))
    requires forall k :: k in again <==> k in Reported(Meaning(SplitNul(data)), keys)
    ensures var vars := Meaning(SplitNul(data));
            var got := Reported(vars, keys);
            var entries := EntriesFor(got, again);
            && ((forall e :: e in entries ==> Acceptable(e)) <==> [] !in vars)
            && Meaning(Overlay([], entries)) == got
            && Meaning(SplitNul(Dump(Overlay([], entries)))) == got
            && (got == vars <==> StrayFree(vars))
  {
    var vars := Meaning(SplitNul(data));
    MeaningHasPlainKeys(SplitNul(data));
    SplitNulIsNulFree(data);
    MeaningHasNoNul(SplitNul(data));
    ReportKeepsShape(vars, keys);
    ReportIsExact(vars, keys);
    VarsComeBack(Reported(vars, keys), again);
  }
}
