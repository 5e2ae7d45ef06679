/** The configuration tree: merging updates into it with a record of the changes, and the dotted
keys the changes are reported under. */
module ConfigMerge {
  import opened Json
  import opened Wrappers

  type Path = seq<string>

  /** One recorded change: the dotted key, the value before (null if there was none), the value
      after. `path` is where it happened, which the program keeps only as the dotted key. */
  datatype Change = Change(path: Path, key: string, before: Json, after: Json)

  // ------------------------------------------------------------------ paths in a tree

  function Get(tree: Json, path: Path): Option<Json> {
    if path == [] then Some(tree)
    else if tree.Object? && path[0] in tree.fields then Get(tree.fields[path[0]], path[1..])
    else None
  }

  /** The fields of an object; nothing of anything else. */
  function FieldsOf(tree: Json): map<string, Json> {
    if tree.Object? then tree.fields else map[]
  }

  /** Puts a value at a path, making objects on the way where there are none. */
  function Assign(tree: Json, path: Path, v: Json): Json
    decreases path
  {
    if path == [] then v
    else
      var fields := FieldsOf(tree);
      var child := if path[0] in fields then fields[path[0]] else Object(map[]);
      Object(fields[path[0] := Assign(child, path[1..], v)])
  }

  /** Assigning the new values of a list of changes, one after the other. */
  function Replay(tree: Json, changes: seq<Change>): Json {
    if changes == [] then tree
    else
      var last := changes[|changes| - 1];
      Assign(Replay(tree, changes[..|changes| - 1]), last.path, last.after)
  }

  // --------------------------------------------------------------------- merging

  /** What merging leaves: objects on both sides are merged, everything else in the update
      replaces. */
  function Merged(target: Json, source: Json): (r: Json)
    requires target.Object? && source.Object?
    ensures r.Object?
    decreases source
  {
    Object(map k | k in target.fields.Keys + source.fields.Keys ::
      if k !in source.fields then target.fields[k]
      else if Descends(target, source, k) then Merged(target.fields[k], source.fields[k])
      else source.fields[k])
  }

  function MergedChild(target: Json, source: Json, k: string): Json
    requires target.Object? && source.Object? && k in source.fields
  {
    if Descends(target, source, k) then Merged(target.fields[k], source.fields[k]) else source.fields[k]
  }

  predicate Descends(target: Json, source: Json, k: string)
    requires target.Object? && source.Object? && k in source.fields
  {
    source.fields[k].Object? && k in target.fields && target.fields[k].Object?
  }

  /** Every leaf of the update is set. */
  lemma {:induction false} LeavesAreSet(target: Json, source: Json, path: Path, v: Json)
    requires target.Object? && source.Object? && path != []
    requires Get(source, path) == Some(v) && !v.Object?
    ensures Get(Merged(target, source), path) == Some(v)
    decreases path
  {
    var k := path[0];
    if Descends(target, source, k) {
      LeavesAreSet(target.fields[k], source.fields[k], path[1..], v);
    }
  }

  /** The update says nothing about a path: on the way it lacks a key, in an object. */
  predicate Untouched(source: Json, path: Path)
    requires source.Object?
  {
    path != [] &&
    (path[0] !in source.fields
     || (source.fields[path[0]].Object? && Untouched(source.fields[path[0]], path[1..])))
  }

  lemma {:induction false} UntouchedIsAbsent(source: Json, path: Path)
    requires source.Object? && Untouched(source, path)
    ensures Get(source, path) == None
    decreases path
  {
    if path[0] in source.fields {
      UntouchedIsAbsent(source.fields[path[0]], path[1..]);
    }
  }

  /** Whatever the update says nothing about stays: present values, and absences. */
  lemma {:induction false} UntouchedIsKept(target: Json, source: Json, path: Path)
    requires target.Object? && source.Object? && Untouched(source, path)
    ensures Get(Merged(target, source), path) == Get(target, path)
    decreases path
  {
    var k := path[0];
    if k in source.fields {
      if Descends(target, source, k) {
        UntouchedIsKept(target.fields[k], source.fields[k], path[1..]);
      } else {
        UntouchedIsAbsent(source.fields[k], path[1..]);
        assert Get(target, path) == None;
      }
    }
  }

  /** An update merged into itself, or into nothing, is itself. */
  lemma {:induction false} MergedWithItself(source: Json)
    requires source.Object?
    ensures Merged(source, source) == source
    decreases source
  {
    forall k | k in source.fields ensures MergedChild(source, source, k) == source.fields[k] {
      if source.fields[k].Object? {
        MergedWithItself(source.fields[k]);
      }
    }
    assert Merged(source, source).fields == source.fields;
  }

  /** Applying an update again changes nothing. */
  lemma {:induction false} MergeIsIdempotent(target: Json, source: Json)
    requires target.Object? && source.Object?
    ensures Merged(Merged(target, source), source) == Merged(target, source)
    decreases source
  {
    var once := Merged(target, source);
    forall k | k in source.fields ensures MergedChild(once, source, k) == once.fields[k] {
      if Descends(target, source, k) {
        MergeIsIdempotent(target.fields[k], source.fields[k]);
      } else if source.fields[k].Object? {
        MergedWithItself(source.fields[k]);
      }
    }
    assert Merged(once, source).fields == once.fields;
  }

  // ----------------------------------------------------------- the recorded changes

  function Under(k: string, c: Change): Change {
    c.(path := [k] + c.path)
  }

  function AllUnder(k: string, cs: seq<Change>): (r: seq<Change>)
    ensures |r| == |cs|
  {
    seq(|cs|, i requires 0 <= i < |cs| => Under(k, cs[i]))
  }

  lemma {:induction false} ReplayAppends(tree: Json, a: seq<Change>, b: seq<Change>)
    ensures Replay(tree, a + b) == Replay(Replay(tree, a), b)
  {
    if b == [] {
      assert a + b == a;
    } else {
      assert (a + b)[..|a + b| - 1] == a + b[..|b| - 1];
      ReplayAppends(tree, a, b[..|b| - 1]);
    }
  }

  /** Replaying the changes of a child happens inside that child. */
  lemma {:induction false} ReplayUnder(tree: Json, k: string, cs: seq<Change>)
    requires tree.Object? && k in tree.fields
    ensures Replay(tree, AllUnder(k, cs)) == Object(tree.fields[k := Replay(tree.fields[k], cs)])
  {
    if cs == [] {
      assert tree.fields[k := tree.fields[k]] == tree.fields;
    } else {
      var init, last := cs[..|cs| - 1], cs[|cs| - 1];
      assert AllUnder(k, cs)[..|cs| - 1] == AllUnder(k, init);
      ReplayUnder(tree, k, init);
      assert Under(k, last).path[1..] == last.path;
    }
  }

  /** A change is recorded truthfully: its values are those at its path in the old tree, and in
      the update and the new tree. */
  predicate Truthful(target: Json, source: Json, c: Change)
    requires target.Object? && source.Object?
  {
    && c.path != []
    && c.before == (var v := Get(target, c.path); if v.Some? then v.value else Null)
    && Get(source, c.path) == Some(c.after) == Get(Merged(target, source), c.path)
  }

  function FullKey(prefix: string, k: string): string {
    if prefix == "" then k else prefix + "." + k
  }

  /** The dotted key of a path, as it is built on the way down. */
  function Dotted(prefix: string, path: Path): string
    decreases path
  {
    if path == [] then prefix
    else Dotted(FullKey(prefix, path[0]), path[1..])
  }

  predicate Recorded(target: Json, source: Json, prefix: string, changes: seq<Change>)
    requires target.Object? && source.Object?
  {
    forall i :: 0 <= i < |changes| ==>
      Truthful(target, source, changes[i]) && changes[i].key == Dotted(prefix, changes[i].path)
  }

  lemma RecordedAppends(target: Json, source: Json, prefix: string, a: seq<Change>, b: seq<Change>)
    requires target.Object? && source.Object?
    requires Recorded(target, source, prefix, a) && Recorded(target, source, prefix, b)
    ensures Recorded(target, source, prefix, a + b)
  {
  }

  /** The tree when the keys in `done` have been merged. */
  function PartlyMerged(target: Json, source: Json, done: set<string>): (r: Json)
    requires target.Object? && source.Object? && done <= source.fields.Keys
    ensures r.Object?
  {
    Object(map k | k in target.fields.Keys + done ::
      if k !in done then target.fields[k] else MergedChild(target, source, k))
  }

  /** How far merging has got: the fields so far, and a record that leads to them. */
  ghost predicate Progress(target: Json, source: Json, prefix: string, done: set<string>,
                           fields: map<string, Json>, changes: seq<Change>)
    requires target.Object? && source.Object? && done <= source.fields.Keys
  {
    && Object(fields) == PartlyMerged(target, source, done) && Replay(target, changes) == Object(fields)
    && Recorded(target, source, prefix, changes)
  }

  lemma OneKeyPath(tree: Json, k: string, v: Json, prefix: string)
    ensures Assign(tree, [k], v) == Object(FieldsOf(tree)[k := v])
    ensures Get(tree, [k]) == if tree.Object? && k in tree.fields then Some(tree.fields[k]) else None
    ensures Dotted(prefix, [k]) == FullKey(prefix, k)
  {
    assert [k][0] == k && [k][1..] == [];
  }

  /** Merging one more key that is replaced. */
  lemma ReplaceOne(target: Json, source: Json, prefix: string, done: set<string>, k: string,
                   fields: map<string, Json>, changes: seq<Change>, c: Change)
    requires target.Object? && source.Object? && done <= source.fields.Keys
    requires Progress(target, source, prefix, done, fields, changes)
    requires k in source.fields && k !in done && !Descends(target, source, k)
    requires c == Change([k], FullKey(prefix, k), if k in target.fields then target.fields[k] else Null, source.fields[k])
    ensures Progress(target, source, prefix, done + {k}, fields[k := source.fields[k]], changes + [c])
  {
    assert (changes + [c])[..|changes|] == changes;
    var further := PartlyMerged(target, source, done + {k});
    assert further.fields == fields[k := source.fields[k]];
    OneKeyPath(Object(fields), k, source.fields[k], prefix);
    OneKeyPath(target, k, Null, prefix);
    OneKeyPath(Merged(target, source), k, Null, prefix);
    OneKeyPath(source, k, Null, prefix);
    assert Truthful(target, source, c);
  }

  /** Changes recorded inside a child are truthful for the whole tree. */
  lemma RecordedUnder(target: Json, source: Json, k: string, prefix: string, inner: string, cs: seq<Change>)
    requires target.Object? && source.Object? && k in source.fields && Descends(target, source, k)
    requires inner == FullKey(prefix, k)
    requires Recorded(target.fields[k], source.fields[k], inner, cs)
    ensures Recorded(target, source, prefix, AllUnder(k, cs))
  {
    var merged := Merged(target, source);
    forall i | 0 <= i < |cs|
      ensures Truthful(target, source, Under(k, cs[i])) && cs[i].key == Dotted(prefix, Under(k, cs[i]).path)
    {
      assert Under(k, cs[i]).path[1..] == cs[i].path;
      assert merged.fields[k] == Merged(target.fields[k], source.fields[k]);
    }
  }

  /** Merging one more key that is an object on both sides. */
  lemma DescendOne(target: Json, source: Json, prefix: string, done: set<string>, k: string,
                   fields: map<string, Json>, changes: seq<Change>, cs: seq<Change>)
    requires target.Object? && source.Object? && done <= source.fields.Keys
    requires Progress(target, source, prefix, done, fields, changes)
    requires k in source.fields && k !in done && Descends(target, source, k)
    requires Recorded(target.fields[k], source.fields[k], FullKey(prefix, k), cs)
    requires Replay(target.fields[k], cs) == Merged(target.fields[k], source.fields[k])
    ensures Progress(target, source, prefix, done + {k}, fields[k := Merged(target.fields[k], source.fields[k])],
                     changes + AllUnder(k, cs))
  {
    RecordedUnder(target, source, k, prefix, FullKey(prefix, k), cs);
    RecordedAppends(target, source, prefix, changes, AllUnder(k, cs));
    FieldSoFar(target, source, prefix, done, k, fields, changes);
    ReplayInChild(target, fields, k, changes, cs);
    OneMoreMerged(target, source, done, k);
  }

  lemma ReplayInChild(target: Json, fields: map<string, Json>, k: string, changes: seq<Change>, cs: seq<Change>)
    requires Replay(target, changes) == Object(fields) && k in fields
    ensures Replay(target, changes + AllUnder(k, cs)) == Object(fields[k := Replay(fields[k], cs)])
  {
    ReplayAppends(target, changes, AllUnder(k, cs));
    ReplayUnder(Object(fields), k, cs);
  }

  lemma OneMoreMerged(target: Json, source: Json, done: set<string>, k: string)
    requires target.Object? && source.Object? && done <= source.fields.Keys && k in source.fields && k !in done
    ensures PartlyMerged(target, source, done + {k})
         == Object(PartlyMerged(target, source, done).fields[k := MergedChild(target, source, k)])
  {
    assert PartlyMerged(target, source, done + {k}).fields
        == PartlyMerged(target, source, done).fields[k := MergedChild(target, source, k)];
  }

  lemma FieldSoFar(target: Json, source: Json, prefix: string, done: set<string>, k: string,
                   fields: map<string, Json>, changes: seq<Change>)
    requires target.Object? && source.Object? && done <= source.fields.Keys && k in source.fields && k !in done
    requires Progress(target, source, prefix, done, fields, changes)
    ensures k in fields <==> k in target.fields
    ensures k in fields ==> fields[k] == target.fields[k]
  {
  }

  lemma MergingStarts(target: Json, source: Json, prefix: string)
    requires target.Object? && source.Object?
    ensures Progress(target, source, prefix, {}, target.fields, [])
  {
    assert PartlyMerged(target, source, {}).fields == target.fields;
  }

  lemma MergingEnds(target: Json, source: Json, prefix: string, fields: map<string, Json>, changes: seq<Change>)
    requires target.Object? && source.Object?
    requires Progress(target, source, prefix, source.fields.Keys, fields, changes)
    ensures Object(fields) == Merged(target, source)
  {
    assert PartlyMerged(target, source, source.fields.Keys).fields == Merged(target, source).fields;
  }

  /** Merges an update into a tree, key by key in some order, recording the changes. */
  method Merge(target: Json, source: Json, prefix: string) returns (merged: Json, changes: seq<Change>)
    requires target.Object? && source.Object?
    ensures merged == Merged(target, source)
    ensures Replay(target, changes) == merged
    ensures Recorded(target, source, prefix, changes)
    decreases source
  {
    var fields, todo := target.fields, source.fields.Keys;
    ghost var done := {};
    changes := [];
    MergingStarts(target, source, prefix);
    while todo != {}
      invariant todo <= source.fields.Keys && done == source.fields.Keys - todo
      invariant Progress(target, source, prefix, done, fields, changes)
      decreases todo
    {
      var k :| k in todo;
      FieldSoFar(target, source, prefix, done, k, fields, changes);
      if source.fields[k].Object? && k in fields && fields[k].Object? {
        var child, inner := Merge(fields[k], source.fields[k], FullKey(prefix, k));
        DescendOne(target, source, prefix, done, k, fields, changes, inner);
        fields := fields[k := child];
        changes := changes + AllUnder(k, inner);
      } else {
        var c := Change([k], FullKey(prefix, k), if k in fields then fields[k] else Null, source.fields[k]);
        ReplaceOne(target, source, prefix, done, k, fields, changes, c);
        fields := fields[k := source.fields[k]];
        changes := changes + [c];
      }
      todo, done := todo - {k}, done + {k};
      assert done == source.fields.Keys - todo;
    }
    assert done == source.fields.Keys;
    MergingEnds(target, source, prefix, fields, changes);
    merged := Object(fields);
  }

  /** Whether an update that is not an object, or a tree that is not one, can be handled at all. */
  predicate Acceptable(data: Json, updates: Json) {
    match updates
    case Object(fields) => fields == map[] || data.Object? || data.Null?
    case Array(items) => items == []
    case Null => true
    case _ => false
  }

  /** An absent tree counts as an empty object. */
  function Root(data: Json): (r: Json)
    requires data.Object? || data.Null?
    ensures r.Object?
  {
    if data.Object? then data else Object(map[])
  }

  /** The tree after an acceptable update. */
  function Updated(data: Json, updates: Json): Json
    requires Acceptable(data, updates)
  {
    if !updates.Object? || updates.fields == map[] then data else Merged(Root(data), updates)
  }

  class Configuration {
    var configData: Json
    var monitoring: bool

    constructor ()
      ensures configData == Object(map[]) && monitoring
    {
      configData, monitoring := Object(map[]), true;
    }

    /** Applies an update; `changes` is what the callbacks are told afterwards. */
    method ApplyUpdates(updates: Json) returns (ok: bool, changes: seq<Change>)
      modifies this`configData
      ensures ok <==> Acceptable(old(configData), updates)
      ensures configData == if ok then Updated(old(configData), updates) else old(configData)
      ensures ok && monitoring ==> Replay(old(configData), changes) == configData
      ensures changes != [] ==> (old(configData).Object? || old(configData).Null?) && updates.Object?
                                && Recorded(Root(old(configData)), updates, "", changes)
      ensures !ok || !monitoring ==> changes == []
    {
      changes := [];
      match updates {
        case Null => return true, [];
        case Array(items) => return items == [], [];
        case Object(fields) =>
          if fields == map[] {
            return true, [];
          }
          if !configData.Object? && !configData.Null? {
            return false, [];
          }
          var target := Root(configData);
          var merged, recorded := Merge(target, updates, "");
          NullTakesChanges(configData, updates, recorded);
          ok, configData := true, merged;
          changes := if monitoring then recorded else [];
        case _ => return false, [];
      }
    }
  }

  /** A null tree takes the recorded changes as an empty object does. */
  lemma NullTakesChanges(data: Json, updates: Json, changes: seq<Change>)
    requires (data.Object? || data.Null?) && updates.Object? && updates.fields != map[]
    requires Replay(Root(data), changes) == Merged(Root(data), updates)
    requires Recorded(Root(data), updates, "", changes)
    ensures Replay(data, changes) == Merged(Root(data), updates)
  {
    if data.Null? {
      var k :| k in updates.fields;
      assert k in Merged(Root(data), updates).fields;
      assert changes != [];
      forall i | 0 <= i < |changes| ensures changes[i].path != [] {
        assert Truthful(Root(data), updates, changes[i]);
      }
      ReplayOntoNull(changes);
    }
  }

  lemma {:induction false} ReplayOntoNull(changes: seq<Change>)
    requires changes != [] && forall i :: 0 <= i < |changes| ==> changes[i].path != []
    ensures Replay(Null, changes) == Replay(Object(map[]), changes)
  {
    var n := |changes| - 1;
    if n == 0 {
      assert changes[..n] == [];
    } else {
      ReplayOntoNull(changes[..n]);
    }
  }

  // ------------------------------------------------------------------- dotted keys

  /** The non-empty parts between dots; `part` is what has been read of the current one. */
  function SplitFrom(s: string, part: string): seq<string> {
    if s == "" then (if part == "" then [] else [part])
    else if s[0] == '.' then (if part == "" then [] else [part]) + SplitFrom(s[1..], "")
    else SplitFrom(s[1..], part + [s[0]])
  }

  method SplitKey(key: string) returns (parts: seq<string>)
    ensures parts == SplitFrom(key, "")
  {
    parts := [];
    var part, i := "", 0;
    while i < |key|
      invariant 0 <= i <= |key|
      invariant SplitFrom(key, "") == parts + SplitFrom(key[i..], part)
    {
      assert key[i..][1..] == key[i + 1..] && key[i..][0] == key[i];
      if key[i] == '.' {
        if part != "" {
          parts := parts + [part];
        }
        part := "";
      } else {
        part := part + [key[i]];
      }
      i := i + 1;
    }
    assert key[i..] == "";
    if part != "" {
      parts := parts + [part];
    }
  }

  predicate CleanKey(k: string) {
    k != "" && '.' !in k
  }

  predicate Clean(path: Path) {
    forall i :: 0 <= i < |path| ==> CleanKey(path[i])
  }

  lemma {:induction false} SplitGivesCleanKeys(s: string, part: string)
    requires '.' !in part
    ensures Clean(SplitFrom(s, part))
    decreases s
  {
    if s != "" {
      if s[0] == '.' {
        SplitGivesCleanKeys(s[1..], "");
      } else {
        SplitGivesCleanKeys(s[1..], part + [s[0]]);
      }
    }
  }

  lemma {:induction false} SplitWord(k: string, part: string)
    requires '.' !in k
    ensures SplitFrom(k, part) == if part + k == "" then [] else [part + k]
    decreases k
  {
    if k == "" {
      assert part + k == part;
    } else {
      SplitWord(k[1..], part + [k[0]]);
      assert part + [k[0]] + k[1..] == part + k;
    }
  }

  lemma {:induction false} SplitLastKey(s: string, part: string, k: string)
    requires CleanKey(k)
    ensures SplitFrom(s + "." + k, part) == SplitFrom(s, part) + [k]
    decreases s
  {
    if s == "" {
      assert s + "." + k == "." + k && ("." + k)[1..] == k;
      SplitWord(k, "");
      assert "" + k == k;
    } else {
      assert (s + "." + k)[1..] == s[1..] + "." + k;
      if s[0] == '.' {
        SplitLastKey(s[1..], "", k);
      } else {
        SplitLastKey(s[1..], part + [s[0]], k);
      }
    }
  }

  lemma HeadThenRest(parts: seq<string>, path: Path)
    requires path != []
    ensures parts + [path[0]] + path[1..] == parts + path
  {
  }

  lemma {:induction false} SplitDotted(prefix: string, path: Path)
    requires prefix != "" && Clean(path)
    ensures SplitFrom(Dotted(prefix, path), "") == SplitFrom(prefix, "") + path
    decreases path
  {
    if path != [] {
      SplitLastKey(prefix, "", path[0]);
      SplitDotted(prefix + "." + path[0], path[1..]);
      HeadThenRest(SplitFrom(prefix, ""), path);
    }
  }

  /** The dotted key of a change leads back to where it happened exactly if no key on the way is
      empty or has a dot in it. */
  lemma DottedKeyLeadsBack(path: Path)
    requires path != []
    ensures SplitFrom(Dotted("", path), "") == path <==> Clean(path)
  {
    SplitGivesCleanKeys(Dotted("", path), "");
    if Clean(path) {
      SplitWord(path[0], "");
      assert "" + path[0] == path[0] && path == [path[0]] + path[1..];
      SplitDotted(path[0], path[1..]);
    }
  }

  /** Replaying by dotted keys, as a listener could. */
  function ReplayByKey(tree: Json, changes: seq<Change>): Json {
    if changes == [] then tree
    else
      var last := changes[|changes| - 1];
      Assign(ReplayByKey(tree, changes[..|changes| - 1]), SplitFrom(last.key, ""), last.after)
  }

  /** With clean keys, the reported keys and values rebuild the new tree. */
  lemma {:induction false} CleanKeysReplay(tree: Json, target: Json, source: Json, changes: seq<Change>)
    requires target.Object? && source.Object? && Recorded(target, source, "", changes)
    requires forall i :: 0 <= i < |changes| ==> Clean(changes[i].path)
    ensures ReplayByKey(tree, changes) == Replay(tree, changes)
  {
    if changes != [] {
      CleanKeysReplay(tree, target, source, changes[..|changes| - 1]);
      DottedKeyLeadsBack(changes[|changes| - 1].path);
    }
  }

  /** A key with a dot in it: the tree gets a field of that name, the reported key names a
      nested one. */
  lemma DottedNameMisleads()
    ensures var tree, update := Object(map[]), Object(map["a.b" := Integer(1)]);
            var c := Change(["a.b"], "a.b", Null, Integer(1));
            Recorded(tree, update, "", [c]) && Replay(tree, [c]) == Merged(tree, update)
            && ReplayByKey(tree, [c]) != Merged(tree, update)
  {
    var tree, update := Object(map[]), Object(map["a.b" := Integer(1)]);
    var c := Change(["a.b"], "a.b", Null, Integer(1));
    var merged := Merged(tree, update);
    OneKeyPath(update, "a.b", Integer(1), "");
    OneKeyPath(tree, "a.b", Integer(1), "");
    OneKeyPath(merged, "a.b", Integer(1), "");
    assert Truthful(tree, update, c);
    assert [c][..0] == [];
    assert merged.fields == map["a.b" := Integer(1)];
    assert Replay(tree, [c]) == Assign(tree, ["a.b"], Integer(1));
    SplitGivesCleanKeys("a.b", "");
    var path := SplitFrom("a.b", "");
    var s := "a.b";
    assert s[1..] == ".b" && s[1..][1..] == "b";
    assert path != [] && path[0] != "a.b" by {
      assert CleanKey(path[0]);
      assert s[1] == '.';
    }
    assert Assign(tree, path, Integer(1)).fields.Keys == {path[0]};
  }
}
