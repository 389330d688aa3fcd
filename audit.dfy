/**
 * The audit script itself: the two module-level accumulators, `load_yaml`,
 * the four checks that append to the accumulators, and `main`. Each method
 * changes the accumulators exactly as the matching function of `Rules`
 * says.
 */
module Audit {
  import opened Yaml
  import opened Findings
  import opened Rules

  /** The module-level PROBLEMS and WARNINGS lists. */
  class Auditor {
    var problems: seq<Problem>
    var warnings: seq<Warning>

    /** Both accumulators as one report. */
    ghost function Recorded(): Report
      reads this
    {
      Report(problems, warnings)
    }

    /** Both lists start empty when the script is loaded. */
    constructor ()
      ensures Recorded() == NoFindings
    {
      problems := [];
      warnings := [];
    }

    /** Load one file; a missing or unparsable file is recorded as a problem
        and reads as an empty mapping. */
    method LoadYaml(file: ConfigFile, outcome: Loaded) returns (doc: Value)
      modifies this
      ensures doc == LoadDoc(outcome)
      ensures Recorded() == LoadAudit(old(Recorded()), file, outcome)
    {
      match outcome
      case Missing =>
        problems := problems + [MissingFile(file)];
        doc := EmptyMap;
      case Unparsable =>
        problems := problems + [ParseFailed(file)];
        doc := EmptyMap;
      case Parsed(v) =>
        doc := Or(v, EmptyMap);
    }

    method CheckProjectAndProfile(ws: Workspace)
      modifies this
      ensures Recorded() == ProjectAndProfileAudit(old(Recorded()), ws)
    {
      var project := LoadYaml(DbtProject, ws.project);
      var profiles := LoadYaml(Profiles, ws.profiles);
      // basic existence
      if !Truthy(project) {
        return;
      }
      if !Truthy(profiles) {
        return;
      }
      CheckLinkage(project, profiles);
    }

    /** The project name and profile linkage checks. */
    method CheckLinkage(project: Value, profiles: Value)
      modifies this
      ensures Recorded() == LinkageAudit(old(Recorded()), project, profiles)
    {
      var projName := Get(project, Str("name"));
      var profileName := Get(project, Str("profile"));
      if !Truthy(projName) {
        problems := problems + [NameRequired];
      }
      if !Truthy(profileName) {
        problems := problems + [ProfileRequired];
      }
      if Truthy(profileName) && !HasKey(profiles, profileName) {
        problems := problems + [ProfileNotFound(profileName, Keys(profiles))];
      }
      if Truthy(profileName) && HasKey(profiles, profileName) {
        CheckTargets(profileName, Get(profiles, profileName));
      }
    }

    /** The target and output checks of an existing profile. */
    method CheckTargets(profileName: Value, prof: Value)
      modifies this
      ensures Recorded() == TargetsAudit(old(Recorded()), profileName, prof)
    {
      var target := Get(prof, Str("target"));
      var outputs := OutputsOf(prof);
      if !Truthy(outputs) {
        problems := problems + [NoOutputs(profileName)];
      }
      if Truthy(target) && !HasKey(outputs, target) {
        problems := problems + [TargetNotDefined(target, profileName)];
      }
      // BigQuery specifics (non-blocking)
      var es := Entries(outputs);
      ghost var before := Recorded();
      var i := 0;
      while i < |es|
        invariant 0 <= i <= |es|
        invariant Recorded() == OutputsAudit(before, es[..i])
      {
        assert es[..i + 1][..i] == es[..i];
        var outName, out := es[i].key, es[i].val;
        if TypeOf(out) != Str("bigquery") {
          warnings := warnings + [OutputNotBigQuery(outName, TypeOf(out))];
        }
        if Get(out, Str("method")) == Str("service-account") {
          var keyfile := Get(out, Str("keyfile"));
          if keyfile.Str? && Strip(keyfile.s) == "" {
            warnings := warnings + [KeyfileEmpty(outName)];
          }
        }
        i := i + 1;
      }
      assert es[..|es|] == es;
    }

    method CheckPaths(ws: Workspace)
      modifies this
      ensures Recorded() == PathsAudit(old(Recorded()), ws)
    {
      var project := LoadYaml(DbtProject, ws.project);
      if !Truthy(project) {
        return;
      }
      var keys := PathKeys;
      ghost var before := Recorded();
      var k := 0;
      while k < |keys|
        invariant 0 <= k <= |keys|
        invariant Recorded() == PathKeysAudit(before, project, ws.dirs, keys[..k])
      {
        assert keys[..k + 1][..k] == keys[..k];
        var (key, required) := keys[k];
        CheckPathKey(project, ws.dirs, key, required);
        k := k + 1;
      }
      assert keys[..|keys|] == keys;
    }

    /** One round of the loop over the path keys. */
    method CheckPathKey(project: Value, dirs: set<string>, key: string, required: bool)
      modifies this
      ensures Recorded() == PathKeyAudit(old(Recorded()), project, dirs, (key, required))
    {
      var paths := PathsOf(project, key);
      if required && !Truthy(paths) {
        problems := problems + [PathKeyMissing(key)];
      }
      var ps := Iter(paths);
      ghost var before := Recorded();
      var i := 0;
      while i < |ps|
        invariant 0 <= i <= |ps|
        invariant Recorded() == PathListAudit(before, ps[..i], key, dirs)
      {
        assert ps[..i + 1][..i] == ps[..i];
        if !IsDir(dirs, ps[i]) {
          warnings := warnings + [PathNotFound(ps[i], key)];
        }
        i := i + 1;
      }
      assert ps[..|ps|] == ps;
    }

    method CheckModelsYaml(ws: Workspace)
      modifies this
      ensures Recorded() == ModelsAudit(old(Recorded()), ws)
    {
      var data := LoadYaml(SchemaYml, ws.schema);
      if !Truthy(data) {
        return;
      }
      if !VersionTwo(Get(data, Str("version"))) {
        warnings := warnings + [SchemaVersion];
      }
      var models := Get(data, Str("models"));
      if !models.List? {
        problems := problems + [ModelsNotList];
        return;
      }
      // light validation of accepted_values syntax
      var ms := models.items;
      ghost var before := Recorded();
      var i := 0;
      while i < |ms|
        invariant 0 <= i <= |ms|
        invariant Recorded() == ModelListAudit(before, ms[..i])
      {
        assert ms[..i + 1][..i] == ms[..i];
        CheckColumns(ColumnsOf(ms[i]));
        i := i + 1;
      }
      assert ms[..|ms|] == ms;
    }

    /** The loop over the columns of one model. */
    method CheckColumns(cols: seq<Value>)
      modifies this
      ensures Recorded() == ColumnListAudit(old(Recorded()), cols)
    {
      var j := 0;
      while j < |cols|
        invariant 0 <= j <= |cols|
        invariant Recorded() == ColumnListAudit(old(Recorded()), cols[..j])
      {
        assert cols[..j + 1][..j] == cols[..j];
        CheckTests(TestsOf(cols[j]));
        j := j + 1;
      }
      assert cols[..|cols|] == cols;
    }

    /** The loop over the tests of one column. */
    method CheckTests(tests: seq<Value>)
      modifies this
      ensures Recorded() == TestListAudit(old(Recorded()), tests)
    {
      var k := 0;
      while k < |tests|
        invariant 0 <= k <= |tests|
        invariant Recorded() == TestListAudit(old(Recorded()), tests[..k])
      {
        assert tests[..k + 1][..k] == tests[..k];
        var t := tests[k];
        if t.Map? && HasKey(t, Str("accepted_values")) {
          var av := Get(t, Str("accepted_values"));
          if av.Map? && HasKey(av, Str("arguments")) && !HasKey(av, Str("values")) {
            problems := problems + [AcceptedValuesUnderArguments];
          }
        }
        k := k + 1;
      }
      assert tests[..|tests|] == tests;
    }

    method CheckSourcesYaml(ws: Workspace)
      modifies this
      ensures Recorded() == SourcesAudit(old(Recorded()), ws)
    {
      var data := LoadYaml(SourcesYml, ws.sources);
      if !Truthy(data) {
        return;
      }
      if !VersionTwo(Get(data, Str("version"))) {
        warnings := warnings + [SourcesVersion];
      }
      var sources := Get(data, Str("sources"));
      if !sources.List? || sources.items == [] {
        problems := problems + [NoSources];
        return;
      }
      // suggest a database key for BigQuery (non-blocking)
      var ss := sources.items;
      ghost var before := Recorded();
      var i := 0;
      while i < |ss|
        invariant 0 <= i <= |ss|
        invariant Recorded() == SourceListAudit(before, ss[..i])
      {
        assert ss[..i + 1][..i] == ss[..i];
        var s := ss[i];
        if !HasKey(s, Str("database")) {
          warnings := warnings + [SourceWithoutDatabase(Get(s, Str("name")))];
        }
        i := i + 1;
      }
      assert ss[..|ss|] == ss;
    }
  }

  /** `main`: run the four checks in order on fresh accumulators. `report`
      holds the two lists the script prints; the exit code is 1 exactly when
      a blocking problem was recorded, whatever the warnings. */
  method RunAudit(ws: Workspace) returns (code: int, report: Report)
    ensures report == FullAudit(ws)
    ensures code == 1 <==> report.problems != []
    ensures code == 0 <==> report.problems == []
  {
    var audit := new Auditor();
    audit.CheckProjectAndProfile(ws);
    audit.CheckPaths(ws);
    audit.CheckModelsYaml(ws);
    audit.CheckSourcesYaml(ws);
    report := Report(audit.problems, audit.warnings);
    code := if audit.problems != [] then 1 else 0;
  }
}
