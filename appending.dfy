/**
 * The checks only ever append: running a step after some earlier findings
 * gives those findings followed by what the step finds on its own. The
 * advisory-only loops (outputs, paths, sources) also never add a problem,
 * and the accepted_values loops never add a warning.
 */
module Appending {
  import opened Yaml
  import opened Findings
  import opened Rules

  lemma ThenNothing(r: Report)
    ensures r.Then(NoFindings) == r
  {
    assert r.problems + [] == r.problems;
    assert r.warnings + [] == r.warnings;
  }

  lemma ThenAddProblem(r: Report, x: Report, p: Problem)
    ensures r.Then(x).AddProblem(p) == r.Then(x.AddProblem(p))
  {
    assert (r.problems + x.problems) + [p] == r.problems + (x.problems + [p]);
  }

  lemma ThenAddWarning(r: Report, x: Report, w: Warning)
    ensures r.Then(x).AddWarning(w) == r.Then(x.AddWarning(w))
  {
    assert (r.warnings + x.warnings) + [w] == r.warnings + (x.warnings + [w]);
  }

  lemma ThenThen(r: Report, x: Report, y: Report)
    ensures r.Then(x).Then(y) == r.Then(x.Then(y))
  {
    assert (r.problems + x.problems) + y.problems == r.problems + (x.problems + y.problems);
    assert (r.warnings + x.warnings) + y.warnings == r.warnings + (x.warnings + y.warnings);
  }

  // ---- load_yaml ----

  lemma LoadAppends(r: Report, f: ConfigFile, l: Loaded)
    ensures LoadAudit(r, f, l) == r.Then(LoadAudit(NoFindings, f, l))
  {
    ThenNothing(r);
    match l
    case Missing => ThenAddProblem(r, NoFindings, MissingFile(f));
    case Unparsable => ThenAddProblem(r, NoFindings, ParseFailed(f));
    case Parsed(_) =>
  }

  // ---- check_project_and_profile ----

  lemma OutputAppends(r: Report, x: Report, e: Entry)
    ensures OutputAudit(r.Then(x), e) == r.Then(OutputAudit(x, e))
    ensures OutputAudit(x, e).problems == x.problems
  {
    var out := e.val;
    var x1 := if TypeOf(out) != Str("bigquery") then x.AddWarning(OutputNotBigQuery(e.key, TypeOf(out))) else x;
    ThenAddWarning(r, x, OutputNotBigQuery(e.key, TypeOf(out)));
    ThenAddWarning(r, x1, KeyfileEmpty(e.key));
  }

  lemma {:induction false} OutputsAppend(r: Report, es: seq<Entry>)
    ensures OutputsAudit(r, es) == r.Then(OutputsAudit(NoFindings, es))
    ensures OutputsAudit(r, es).problems == r.problems
  {
    if es == [] {
      ThenNothing(r);
    } else {
      var init, last := es[..|es| - 1], es[|es| - 1];
      OutputsAppend(r, init);
      OutputAppends(r, OutputsAudit(NoFindings, init), last);
      OutputAppends(NoFindings, OutputsAudit(r, init), last);
    }
  }

  lemma TargetsAppend(r: Report, profile: Value, prof: Value)
    ensures TargetsAudit(r, profile, prof) == r.Then(TargetsAudit(NoFindings, profile, prof))
  {
    var target := Get(prof, Str("target"));
    var outputs := OutputsOf(prof);
    ThenNothing(r);
    ThenAddProblem(r, NoFindings, NoOutputs(profile));
    var x1 := if !Truthy(outputs) then NoFindings.AddProblem(NoOutputs(profile)) else NoFindings;
    ThenAddProblem(r, x1, TargetNotDefined(target, profile));
    var x2 := if Truthy(target) && !HasKey(outputs, target) then x1.AddProblem(TargetNotDefined(target, profile)) else x1;
    OutputsAppend(r.Then(x2), Entries(outputs));
    OutputsAppend(x2, Entries(outputs));
    ThenThen(r, x2, OutputsAudit(NoFindings, Entries(outputs)));
  }

  lemma LinkageAppends(r: Report, project: Value, profiles: Value)
    ensures LinkageAudit(r, project, profiles) == r.Then(LinkageAudit(NoFindings, project, profiles))
  {
    var name := Get(project, Str("name"));
    var profile := Get(project, Str("profile"));
    ThenNothing(r);
    ThenAddProblem(r, NoFindings, NameRequired);
    var x1 := if !Truthy(name) then NoFindings.AddProblem(NameRequired) else NoFindings;
    ThenAddProblem(r, x1, ProfileRequired);
    var x2 := if !Truthy(profile) then x1.AddProblem(ProfileRequired) else x1;
    ThenAddProblem(r, x2, ProfileNotFound(profile, Keys(profiles)));
    var x3 := if Truthy(profile) && !HasKey(profiles, profile) then x2.AddProblem(ProfileNotFound(profile, Keys(profiles))) else x2;
    if Truthy(profile) && HasKey(profiles, profile) {
      var prof := Get(profiles, profile);
      TargetsAppend(r.Then(x3), profile, prof);
      TargetsAppend(x3, profile, prof);
      ThenThen(r, x3, TargetsAudit(NoFindings, profile, prof));
    }
  }

  lemma ProjectAndProfileAppends(r: Report, ws: Workspace)
    ensures ProjectAndProfileAudit(r, ws) == r.Then(ProjectAndProfileAudit(NoFindings, ws))
  {
    var x1 := LoadAudit(NoFindings, DbtProject, ws.project);
    var x2 := LoadAudit(x1, Profiles, ws.profiles);
    LoadAppends(r, DbtProject, ws.project);
    LoadAppends(r.Then(x1), Profiles, ws.profiles);
    LoadAppends(x1, Profiles, ws.profiles);
    ThenThen(r, x1, LoadAudit(NoFindings, Profiles, ws.profiles));
    LinkageAppends(r.Then(x2), LoadDoc(ws.project), LoadDoc(ws.profiles));
    LinkageAppends(x2, LoadDoc(ws.project), LoadDoc(ws.profiles));
    ThenThen(r, x2, LinkageAudit(NoFindings, LoadDoc(ws.project), LoadDoc(ws.profiles)));
  }

  // ---- check_paths ----

  lemma {:induction false} PathListAppends(r: Report, ps: seq<Value>, key: string, dirs: set<string>)
    ensures PathListAudit(r, ps, key, dirs) == r.Then(PathListAudit(NoFindings, ps, key, dirs))
    ensures PathListAudit(r, ps, key, dirs).problems == r.problems
  {
    if ps == [] {
      ThenNothing(r);
    } else {
      var init, p := ps[..|ps| - 1], ps[|ps| - 1];
      PathListAppends(r, init, key, dirs);
      ThenAddWarning(r, PathListAudit(NoFindings, init, key, dirs), PathNotFound(p, key));
    }
  }

  lemma PathKeyAppends(r: Report, x: Report, project: Value, dirs: set<string>, pk: (string, bool))
    ensures PathKeyAudit(r.Then(x), project, dirs, pk) == r.Then(PathKeyAudit(x, project, dirs, pk))
  {
    var paths := PathsOf(project, pk.0);
    ThenAddProblem(r, x, PathKeyMissing(pk.0));
    var x1 := if pk.1 && !Truthy(paths) then x.AddProblem(PathKeyMissing(pk.0)) else x;
    PathListAppends(r.Then(x1), Iter(paths), pk.0, dirs);
    PathListAppends(x1, Iter(paths), pk.0, dirs);
    ThenThen(r, x1, PathListAudit(NoFindings, Iter(paths), pk.0, dirs));
  }

  lemma {:induction false} PathKeysAppend(r: Report, project: Value, dirs: set<string>, keys: seq<(string, bool)>)
    ensures PathKeysAudit(r, project, dirs, keys) == r.Then(PathKeysAudit(NoFindings, project, dirs, keys))
  {
    if keys == [] {
      ThenNothing(r);
    } else {
      var init := keys[..|keys| - 1];
      PathKeysAppend(r, project, dirs, init);
      PathKeyAppends(r, PathKeysAudit(NoFindings, project, dirs, init), project, dirs, keys[|keys| - 1]);
    }
  }

  lemma PathsAppend(r: Report, ws: Workspace)
    ensures PathsAudit(r, ws) == r.Then(PathsAudit(NoFindings, ws))
  {
    var x1 := LoadAudit(NoFindings, DbtProject, ws.project);
    LoadAppends(r, DbtProject, ws.project);
    PathKeysAppend(r.Then(x1), LoadDoc(ws.project), ws.dirs, PathKeys);
    PathKeysAppend(x1, LoadDoc(ws.project), ws.dirs, PathKeys);
    ThenThen(r, x1, PathKeysAudit(NoFindings, LoadDoc(ws.project), ws.dirs, PathKeys));
  }

  // ---- check_models_yaml ----

  lemma {:induction false} TestListAppends(r: Report, x: Report, ts: seq<Value>)
    ensures TestListAudit(r.Then(x), ts) == r.Then(TestListAudit(x, ts))
    ensures TestListAudit(x, ts).warnings == x.warnings
  {
    if ts != [] {
      TestListAppends(r, x, ts[..|ts| - 1]);
      ThenAddProblem(r, TestListAudit(x, ts[..|ts| - 1]), AcceptedValuesUnderArguments);
    }
  }

  lemma {:induction false} ColumnListAppends(r: Report, x: Report, cs: seq<Value>)
    ensures ColumnListAudit(r.Then(x), cs) == r.Then(ColumnListAudit(x, cs))
    ensures ColumnListAudit(x, cs).warnings == x.warnings
  {
    if cs != [] {
      ColumnListAppends(r, x, cs[..|cs| - 1]);
      TestListAppends(r, ColumnListAudit(x, cs[..|cs| - 1]), TestsOf(cs[|cs| - 1]));
    }
  }

  lemma {:induction false} ModelListAppends(r: Report, x: Report, ms: seq<Value>)
    ensures ModelListAudit(r.Then(x), ms) == r.Then(ModelListAudit(x, ms))
    ensures ModelListAudit(x, ms).warnings == x.warnings
  {
    if ms != [] {
      ModelListAppends(r, x, ms[..|ms| - 1]);
      ColumnListAppends(r, ModelListAudit(x, ms[..|ms| - 1]), ColumnsOf(ms[|ms| - 1]));
    }
  }

  lemma ModelsAppend(r: Report, ws: Workspace)
    ensures ModelsAudit(r, ws) == r.Then(ModelsAudit(NoFindings, ws))
  {
    var x1 := LoadAudit(NoFindings, SchemaYml, ws.schema);
    LoadAppends(r, SchemaYml, ws.schema);
    ThenAddWarning(r, x1, SchemaVersion);
    var data := LoadDoc(ws.schema);
    var x2 := if VersionTwo(Get(data, Str("version"))) then x1 else x1.AddWarning(SchemaVersion);
    ThenAddProblem(r, x2, ModelsNotList);
    var models := Get(data, Str("models"));
    if models.List? {
      ModelListAppends(r, x2, models.items);
    }
  }

  // ---- check_sources_yaml ----

  lemma {:induction false} SourceListAppends(r: Report, x: Report, ss: seq<Value>)
    ensures SourceListAudit(r.Then(x), ss) == r.Then(SourceListAudit(x, ss))
    ensures SourceListAudit(x, ss).problems == x.problems
  {
    if ss != [] {
      var s := ss[|ss| - 1];
      SourceListAppends(r, x, ss[..|ss| - 1]);
      ThenAddWarning(r, SourceListAudit(x, ss[..|ss| - 1]), SourceWithoutDatabase(Get(s, Str("name"))));
    }
  }

  lemma SourcesAppend(r: Report, ws: Workspace)
    ensures SourcesAudit(r, ws) == r.Then(SourcesAudit(NoFindings, ws))
  {
    var x1 := LoadAudit(NoFindings, SourcesYml, ws.sources);
    LoadAppends(r, SourcesYml, ws.sources);
    ThenAddWarning(r, x1, SourcesVersion);
    var data := LoadDoc(ws.sources);
    var x2 := if VersionTwo(Get(data, Str("version"))) then x1 else x1.AddWarning(SourcesVersion);
    ThenAddProblem(r, x2, NoSources);
    var sources := Get(data, Str("sources"));
    if sources.List? {
      SourceListAppends(r, x2, sources.items);
    }
  }

  // ---- the whole run ----

  /** Each check leaves the findings before it in place and appends its own
      after them. */
  lemma ChecksOnlyAppend(r: Report, ws: Workspace)
    ensures ProjectAndProfileAudit(r, ws) == r.Then(ProjectAndProfileAudit(NoFindings, ws))
    ensures PathsAudit(r, ws) == r.Then(PathsAudit(NoFindings, ws))
    ensures ModelsAudit(r, ws) == r.Then(ModelsAudit(NoFindings, ws))
    ensures SourcesAudit(r, ws) == r.Then(SourcesAudit(NoFindings, ws))
  {
    ProjectAndProfileAppends(r, ws);
    PathsAppend(r, ws);
    ModelsAppend(r, ws);
    SourcesAppend(r, ws);
  }

  /** A run's findings are those of project/profile, then paths, then
      models, then sources, each check's own findings kept in order. */
  lemma AuditOrder(ws: Workspace)
    ensures FullAudit(ws) ==
      ProjectAndProfileAudit(NoFindings, ws)
        .Then(PathsAudit(NoFindings, ws))
        .Then(ModelsAudit(NoFindings, ws))
        .Then(SourcesAudit(NoFindings, ws))
  {
    var p := ProjectAndProfileAudit(NoFindings, ws);
    ChecksOnlyAppend(p, ws);
    var q := PathsAudit(p, ws);
    ChecksOnlyAppend(q, ws);
    ChecksOnlyAppend(ModelsAudit(q, ws), ws);
  }
}
