/**
 * What check_paths finds: only an absent or empty `model-paths` is a
 * problem, and each listed path that is not a directory is warned about
 * once per listing, under the key that lists it.
 */
module PathFacts {
  import opened Yaml
  import opened Seqs
  import opened Findings
  import opened Rules
  import opened Appending

  /** The key names of a key list are pairwise distinct. */
  predicate DistinctNames(keys: seq<(string, bool)>) {
    forall i, j | 0 <= i < j < |keys| :: keys[i].0 != keys[j].0
  }

  /** Some entry of the key list is named `key`. */
  predicate Listed(keys: seq<(string, bool)>, key: string) {
    exists i | 0 <= i < |keys| :: keys[i].0 == key
  }

  // ---- one key ----

  /** Every warning of one key's loop is a not-found path listed under that
      key. */
  lemma {:induction false} PathListWarningsShape(ps: seq<Value>, key: string, dirs: set<string>)
    ensures forall w | w in PathListAudit(NoFindings, ps, key, dirs).warnings ::
      w.PathNotFound? && w.key == key && w.path in ps && !IsDir(dirs, w.path)
  {
    if ps != [] {
      var init := ps[..|ps| - 1];
      PathListWarningsShape(init, key, dirs);
      assert forall v | v in init :: v in ps;
    }
  }

  /** A listed path gets one warning per time it is listed, unless it is a
      directory. */
  lemma {:induction false} PathListWarningCount(ps: seq<Value>, key: string, dirs: set<string>, p: Value)
    ensures Count(PathNotFound(p, key), PathListAudit(NoFindings, ps, key, dirs).warnings) ==
      if IsDir(dirs, p) then 0 else Count(p, ps)
  {
    if ps != [] {
      var init, last := ps[..|ps| - 1], ps[|ps| - 1];
      PathListWarningCount(init, key, dirs, p);
      var before := PathListAudit(NoFindings, init, key, dirs).warnings;
      var mine := if IsDir(dirs, last) then [] else [PathNotFound(last, key)];
      assert PathListAudit(NoFindings, ps, key, dirs).warnings == before + mine;
      CountConcat(PathNotFound(p, key), before, mine);
      assert ps == init + [last];
      CountConcat(p, init, [last]);
    }
  }

  // ---- the key loop ----

  lemma {:induction false} PathKeysCompose(r: Report, project: Value, dirs: set<string>, a: seq<(string, bool)>, b: seq<(string, bool)>)
    ensures PathKeysAudit(r, project, dirs, a + b) == PathKeysAudit(PathKeysAudit(r, project, dirs, a), project, dirs, b)
  {
    if b == [] {
      assert a + b == a;
    } else {
      var init := b[..|b| - 1];
      assert (a + b)[..|a + b| - 1] == a + init;
      PathKeysCompose(r, project, dirs, a, init);
    }
  }

  /** Optional keys never record a problem. */
  lemma {:induction false} OptionalKeysNoProblems(r: Report, project: Value, dirs: set<string>, keys: seq<(string, bool)>)
    requires forall i | 0 <= i < |keys| :: !keys[i].1
    ensures PathKeysAudit(r, project, dirs, keys).problems == r.problems
  {
    if keys != [] {
      var init, pk := keys[..|keys| - 1], keys[|keys| - 1];
      OptionalKeysNoProblems(r, project, dirs, init);
      PathListAppends(PathKeysAudit(r, project, dirs, init), Iter(PathsOf(project, pk.0)), pk.0, dirs);
    }
  }

  /** The warnings of the key loop are those of the earlier keys followed by
      those of the last key's paths. */
  lemma PathKeysWarningsLast(project: Value, dirs: set<string>, keys: seq<(string, bool)>)
    requires keys != []
    ensures var pk := keys[|keys| - 1];
      PathKeysAudit(NoFindings, project, dirs, keys).warnings ==
        PathKeysAudit(NoFindings, project, dirs, keys[..|keys| - 1]).warnings +
        PathListAudit(NoFindings, Iter(PathsOf(project, pk.0)), pk.0, dirs).warnings
  {
    var pk := keys[|keys| - 1];
    var x := PathKeysAudit(NoFindings, project, dirs, keys[..|keys| - 1]);
    var paths := PathsOf(project, pk.0);
    var x1 := if pk.1 && !Truthy(paths) then x.AddProblem(PathKeyMissing(pk.0)) else x;
    PathListAppends(x1, Iter(paths), pk.0, dirs);
  }

  lemma {:induction false} PathKeysWarningCount(project: Value, dirs: set<string>, keys: seq<(string, bool)>, p: Value, key: string)
    requires DistinctNames(keys)
    ensures Count(PathNotFound(p, key), PathKeysAudit(NoFindings, project, dirs, keys).warnings) ==
      if Listed(keys, key) && !IsDir(dirs, p) then Count(p, Iter(PathsOf(project, key))) else 0
  {
    if keys != [] {
      var init, pk := keys[..|keys| - 1], keys[|keys| - 1];
      assert DistinctNames(init);
      PathKeysWarningCount(project, dirs, init, p, key);
      PathKeysWarningsLast(project, dirs, keys);
      var w := PathNotFound(p, key);
      var ps := Iter(PathsOf(project, pk.0));
      CountConcat(w, PathKeysAudit(NoFindings, project, dirs, init).warnings, PathListAudit(NoFindings, ps, pk.0, dirs).warnings);
      assert Listed(keys, key) <==> Listed(init, key) || pk.0 == key by {
        if Listed(init, key) {
          var i :| 0 <= i < |init| && init[i].0 == key;
          assert keys[i].0 == key;
        }
      }
      if pk.0 == key {
        PathListWarningCount(ps, key, dirs, p);
        assert !Listed(init, key) by {
          assert forall i | 0 <= i < |init| :: keys[i].0 != pk.0;
        }
      } else {
        PathListWarningsShape(ps, pk.0, dirs);
        CountAbsent(w, PathListAudit(NoFindings, ps, pk.0, dirs).warnings);
      }
    }
  }

  // ---- check_paths ----

  /** The path keys of dbt_project.yml are distinct. */
  lemma PathKeysDistinct()
    ensures DistinctNames(PathKeys)
  {
  }

  /** The loads aside, check_paths records one problem exactly when the
      project is non-empty and `model-paths` is absent or empty; no other
      key can block. */
  lemma PathProblems(ws: Workspace)
    ensures var project := LoadDoc(ws.project);
      PathsAudit(NoFindings, ws).problems ==
        LoadAudit(NoFindings, DbtProject, ws.project).problems +
        (if Truthy(project) && !Truthy(Get(project, Str("model-paths"))) then [PathKeyMissing("model-paths")] else [])
  {
    var l := LoadAudit(NoFindings, DbtProject, ws.project);
    var project := LoadDoc(ws.project);
    if Truthy(project) {
      assert PathKeys == [PathKeys[0]] + PathKeys[1..];
      PathKeysCompose(l, project, ws.dirs, [PathKeys[0]], PathKeys[1..]);
      var first := PathKeysAudit(l, project, ws.dirs, [PathKeys[0]]);
      assert [PathKeys[0]][..0] == [];
      PathListAppends(if !Truthy(PathsOf(project, "model-paths")) then l.AddProblem(PathKeyMissing("model-paths")) else l,
        Iter(PathsOf(project, "model-paths")), "model-paths", ws.dirs);
      OptionalKeysNoProblems(first, project, ws.dirs, PathKeys[1..]);
    }
  }

  /** For a non-empty project: a path listed under one of the six keys is
      warned about once per listing under that key when it is not a
      directory, and never otherwise; keys outside the six get no warning. */
  lemma PathWarnings(ws: Workspace, p: Value, key: string)
    requires Truthy(LoadDoc(ws.project))
    ensures Count(PathNotFound(p, key), PathsAudit(NoFindings, ws).warnings) ==
      if Listed(PathKeys, key) && !IsDir(ws.dirs, p) then Count(p, Iter(PathsOf(LoadDoc(ws.project), key))) else 0
  {
    var l := LoadAudit(NoFindings, DbtProject, ws.project);
    PathKeysAppend(l, LoadDoc(ws.project), ws.dirs, PathKeys);
    PathKeysDistinct();
    PathKeysWarningCount(LoadDoc(ws.project), ws.dirs, PathKeys, p, key);
  }
}
