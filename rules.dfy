/**
 * What each step of the audit does to the two accumulators, as a function
 * from the report so far (and the workspace) to the report afterwards. Each
 * function appends findings in the order the script appends them; functions
 * over a list are defined from the end of the list, so that they follow a
 * loop that appends as it goes.
 */
module Rules {
  import opened Yaml
  import opened Findings

  // ---- load_yaml ----

  /** The document `load_yaml` returns: the parsed value, or an empty mapping
      when the file is missing, unparsable or parses to a false value. */
  function LoadDoc(l: Loaded): Value {
    if l.Parsed? && Truthy(l.doc) then l.doc else EmptyMap
  }

  /** The problem `load_yaml` records for one file, if any. */
  function LoadAudit(r: Report, f: ConfigFile, l: Loaded): Report {
    match l
    case Missing => r.AddProblem(MissingFile(f))
    case Unparsable => r.AddProblem(ParseFailed(f))
    case Parsed(_) => r
  }

  // ---- check_project_and_profile ----

  function TypeOf(out: Value): Value { Get(out, Str("type")) }

  /** A service-account output whose keyfile is a blank string. */
  predicate BlankKeyfile(out: Value) {
    var keyfile := Get(out, Str("keyfile"));
    Get(out, Str("method")) == Str("service-account") && keyfile.Str? && Strip(keyfile.s) == ""
  }

  /** One round of the loop over `outputs.items()`. */
  function OutputAudit(r: Report, e: Entry): Report {
    var r := if TypeOf(e.val) != Str("bigquery") then r.AddWarning(OutputNotBigQuery(e.key, TypeOf(e.val))) else r;
    if BlankKeyfile(e.val) then r.AddWarning(KeyfileEmpty(e.key)) else r
  }

  /** The loop over `outputs.items()`. */
  function OutputsAudit(r: Report, es: seq<Entry>): Report {
    if es == [] then r else OutputAudit(OutputsAudit(r, es[..|es| - 1]), es[|es| - 1])
  }

  /** The `outputs` mapping of a profile, `{}` when absent or empty. */
  function OutputsOf(prof: Value): Value { Or(Get(prof, Str("outputs")), EmptyMap) }

  /** The target and output checks of an existing profile. */
  function TargetsAudit(r: Report, profile: Value, prof: Value): Report {
    var target := Get(prof, Str("target"));
    var outputs := OutputsOf(prof);
    var r := if !Truthy(outputs) then r.AddProblem(NoOutputs(profile)) else r;
    var r := if Truthy(target) && !HasKey(outputs, target) then r.AddProblem(TargetNotDefined(target, profile)) else r;
    OutputsAudit(r, Entries(outputs))
  }

  /** The name and profile linkage checks on two non-empty documents. */
  function LinkageAudit(r: Report, project: Value, profiles: Value): Report {
    var name := Get(project, Str("name"));
    var profile := Get(project, Str("profile"));
    var r := if !Truthy(name) then r.AddProblem(NameRequired) else r;
    var r := if !Truthy(profile) then r.AddProblem(ProfileRequired) else r;
    var r := if Truthy(profile) && !HasKey(profiles, profile) then r.AddProblem(ProfileNotFound(profile, Keys(profiles))) else r;
    if Truthy(profile) && HasKey(profiles, profile) then TargetsAudit(r, profile, Get(profiles, profile)) else r
  }

  function ProjectAndProfileAudit(r: Report, ws: Workspace): Report {
    var r := LoadAudit(LoadAudit(r, DbtProject, ws.project), Profiles, ws.profiles);
    var project := LoadDoc(ws.project);
    var profiles := LoadDoc(ws.profiles);
    if !Truthy(project) || !Truthy(profiles) then r else LinkageAudit(r, project, profiles)
  }

  // ---- check_paths ----

  /** The directory keys of dbt_project.yml, in the order the script visits
      them, each with whether it is required. */
  const PathKeys: seq<(string, bool)> := [
    ("model-paths", true),
    ("analysis-paths", false),
    ("test-paths", false),
    ("seed-paths", false),
    ("macro-paths", false),
    ("snapshot-paths", false)
  ]

  /** `os.path.isdir` on a listed path. A path that is not a string names no
      directory. */
  predicate IsDir(dirs: set<string>, p: Value) { p.Str? && p.s in dirs }

  /** The value of a path key, `[]` when absent or empty. */
  function PathsOf(project: Value, key: string): Value { Or(Get(project, Str(key)), EmptyList) }

  /** The loop over the paths listed under one key. */
  function PathListAudit(r: Report, ps: seq<Value>, key: string, dirs: set<string>): Report {
    if ps == [] then r
    else
      var r := PathListAudit(r, ps[..|ps| - 1], key, dirs);
      var p := ps[|ps| - 1];
      if IsDir(dirs, p) then r else r.AddWarning(PathNotFound(p, key))
  }

  /** One round of the loop over the path keys. */
  function PathKeyAudit(r: Report, project: Value, dirs: set<string>, pk: (string, bool)): Report {
    var paths := PathsOf(project, pk.0);
    var r := if pk.1 && !Truthy(paths) then r.AddProblem(PathKeyMissing(pk.0)) else r;
    PathListAudit(r, Iter(paths), pk.0, dirs)
  }

  /** The loop over the path keys. */
  function PathKeysAudit(r: Report, project: Value, dirs: set<string>, keys: seq<(string, bool)>): Report {
    if keys == [] then r
    else PathKeyAudit(PathKeysAudit(r, project, dirs, keys[..|keys| - 1]), project, dirs, keys[|keys| - 1])
  }

  function PathsAudit(r: Report, ws: Workspace): Report {
    var r := LoadAudit(r, DbtProject, ws.project);
    var project := LoadDoc(ws.project);
    if !Truthy(project) then r else PathKeysAudit(r, project, ws.dirs, PathKeys)
  }

  // ---- check_models_yaml ----

  /** `version` is 2 or "2". */
  predicate VersionTwo(v: Value) { v == Int(2) || v == Str("2") }

  /** The columns of a model entry: `(m or {}).get("columns") or []`. */
  function ColumnsOf(m: Value): seq<Value> { Iter(Or(Get(Or(m, EmptyMap), Str("columns")), EmptyList)) }

  /** The tests of a column entry: `(c or {}).get("tests") or []`. */
  function TestsOf(c: Value): seq<Value> { Iter(Or(Get(Or(c, EmptyMap), Str("tests")), EmptyList)) }

  /** An `accepted_values` test whose values sit under `arguments`. */
  predicate MisplacedValues(t: Value) {
    t.Map? && HasKey(t, Str("accepted_values")) &&
    var av := Get(t, Str("accepted_values"));
    av.Map? && HasKey(av, Str("arguments")) && !HasKey(av, Str("values"))
  }

  /** The loop over the tests of one column. */
  function TestListAudit(r: Report, ts: seq<Value>): Report {
    if ts == [] then r
    else
      var r := TestListAudit(r, ts[..|ts| - 1]);
      if MisplacedValues(ts[|ts| - 1]) then r.AddProblem(AcceptedValuesUnderArguments) else r
  }

  /** The loop over the columns of one model. */
  function ColumnListAudit(r: Report, cs: seq<Value>): Report {
    if cs == [] then r else TestListAudit(ColumnListAudit(r, cs[..|cs| - 1]), TestsOf(cs[|cs| - 1]))
  }

  /** The loop over the models. */
  function ModelListAudit(r: Report, ms: seq<Value>): Report {
    if ms == [] then r else ColumnListAudit(ModelListAudit(r, ms[..|ms| - 1]), ColumnsOf(ms[|ms| - 1]))
  }

  function ModelsAudit(r: Report, ws: Workspace): Report {
    var r := LoadAudit(r, SchemaYml, ws.schema);
    var data := LoadDoc(ws.schema);
    if !Truthy(data) then r
    else
      var r := if VersionTwo(Get(data, Str("version"))) then r else r.AddWarning(SchemaVersion);
      var models := Get(data, Str("models"));
      if !models.List? then r.AddProblem(ModelsNotList) else ModelListAudit(r, models.items)
  }

  // ---- check_sources_yaml ----

  /** The loop over the sources. */
  function SourceListAudit(r: Report, ss: seq<Value>): Report {
    if ss == [] then r
    else
      var r := SourceListAudit(r, ss[..|ss| - 1]);
      var s := ss[|ss| - 1];
      if HasKey(s, Str("database")) then r else r.AddWarning(SourceWithoutDatabase(Get(s, Str("name"))))
  }

  function SourcesAudit(r: Report, ws: Workspace): Report {
    var r := LoadAudit(r, SourcesYml, ws.sources);
    var data := LoadDoc(ws.sources);
    if !Truthy(data) then r
    else
      var r := if VersionTwo(Get(data, Str("version"))) then r else r.AddWarning(SourcesVersion);
      var sources := Get(data, Str("sources"));
      if !sources.List? || sources.items == [] then r.AddProblem(NoSources) else SourceListAudit(r, sources.items)
  }

  // ---- main ----

  /** All findings of one run: the four checks in order, on lists that start
      empty. */
  function FullAudit(ws: Workspace): Report {
    SourcesAudit(ModelsAudit(PathsAudit(ProjectAndProfileAudit(NoFindings, ws), ws), ws), ws)
  }

  /** `1 if PROBLEMS else 0`. */
  function ExitCode(r: Report): int {
    if r.problems != [] then 1 else 0
  }
}
