/**
 * Facts about a whole run of the audit: when it records no problem (and so
 * exits 0), how often a missing or unparsable file is reported, and what an
 * empty dbt_project.yml lets through.
 */
module RunFacts {
  import opened Yaml
  import opened Seqs
  import opened Findings
  import opened Rules
  import opened Appending
  import opened ProfileFacts
  import opened PathFacts
  import opened ModelFacts
  import opened SourceFacts

  // ---- when the audit passes ----

  /** The project names itself and a profile that profiles.yml defines; the
      profile has outputs, and its target, when set, is one of them. */
  predicate LinkOk(project: Value, profiles: Value) {
    var profile := Get(project, Str("profile"));
    var prof := Get(profiles, profile);
    var outputs := Get(prof, Str("outputs"));
    var target := Get(prof, Str("target"));
    Truthy(Get(project, Str("name"))) && Truthy(profile) && HasKey(profiles, profile) &&
    Truthy(outputs) && (Truthy(target) ==> HasKey(outputs, target))
  }

  /** A workspace the audit accepts, stated file by file: every file is
      present and parses; a non-empty project and profiles are linked; a
      non-empty project lists model paths; a non-empty schema.yml lists its
      models with every accepted_values test well placed; a non-empty
      sources.yml lists at least one source. */
  ghost predicate Sound(ws: Workspace) {
    var project := LoadDoc(ws.project);
    var profiles := LoadDoc(ws.profiles);
    var schema := LoadDoc(ws.schema);
    var sources := LoadDoc(ws.sources);
    && ws.project.Parsed? && ws.profiles.Parsed? && ws.schema.Parsed? && ws.sources.Parsed?
    && (Truthy(project) && Truthy(profiles) ==> LinkOk(project, profiles))
    && (Truthy(project) ==> Truthy(Get(project, Str("model-paths"))))
    && (Truthy(schema) ==>
          Get(schema, Str("models")).List? &&
          forall t | t in ModelTests(Get(schema, Str("models")).items) :: !MisplacedValues(t))
    && (Truthy(sources) ==>
          Get(sources, Str("sources")).List? && Get(sources, Str("sources")).items != [])
  }

  /** A non-empty document was parsed. */
  lemma TruthyDocParsed(l: Loaded)
    ensures Truthy(LoadDoc(l)) ==> l.Parsed? && LoadDoc(l) == l.doc
  {
  }

  /** The project/profile check records no problem exactly when both files
      load and, when both are non-empty, they are linked. */
  lemma ProjectPasses(ws: Workspace)
    ensures ProjectReport(ws).problems == [] <==>
      ws.project.Parsed? && ws.profiles.Parsed? &&
      (Truthy(LoadDoc(ws.project)) && Truthy(LoadDoc(ws.profiles)) ==> LinkOk(LoadDoc(ws.project), LoadDoc(ws.profiles)))
  {
    var project, profiles := LoadDoc(ws.project), LoadDoc(ws.profiles);
    if Truthy(project) && Truthy(profiles) {
      TruthyDocParsed(ws.project);
      TruthyDocParsed(ws.profiles);
      if ProfileFound(ws) {
        FoundProfileReport(ws);
        var t := TargetsAudit(NoFindings, ProfileName(ws), ChosenProfile(ws));
        TargetsProblems(ProfileName(ws), ChosenProfile(ws));
        assert ProjectReport(ws).problems == BeforeTargets(ws).problems + t.problems;
      }
    }
  }

  /** The paths check records no problem exactly when dbt_project.yml loads
      and, when it is non-empty, lists model paths. */
  lemma PathsPass(ws: Workspace)
    ensures PathsAudit(NoFindings, ws).problems == [] <==>
      ws.project.Parsed? && (Truthy(LoadDoc(ws.project)) ==> Truthy(Get(LoadDoc(ws.project), Str("model-paths"))))
  {
    PathProblems(ws);
  }

  /** The audit records no blocking problem exactly when the workspace is
      sound. */
  lemma AuditPasses(ws: Workspace)
    ensures FullAudit(ws).problems == [] <==> Sound(ws)
  {
    AuditOrder(ws);
    ProjectPasses(ws);
    PathsPass(ws);
    ModelsPass(ws);
    SourcesPass(ws);
  }

  /** `main` exits 0 exactly for a sound workspace; warnings never change
      the exit code. */
  lemma ExitCodeZeroIffSound(ws: Workspace)
    ensures ExitCode(FullAudit(ws)) == 0 <==> Sound(ws)
    ensures ExitCode(FullAudit(ws)) == 1 <==> !Sound(ws)
    ensures forall w: seq<Warning> :: ExitCode(Report(FullAudit(ws).problems, w)) == ExitCode(FullAudit(ws))
  {
    AuditPasses(ws);
  }

  // ---- load failures ----

  /** 1 when loading `g` with outcome `l` records `p`, else 0. */
  function LoadHits(p: Problem, g: ConfigFile, l: Loaded): nat {
    if (p == MissingFile(g) && l.Missing?) || (p == ParseFailed(g) && l.Unparsable?) then 1 else 0
  }

  /** How many times each check loads a file: dbt_project.yml twice (the
      project/profile check and the paths check), the others once. */
  function Loads(f: ConfigFile): nat {
    if f == DbtProject then 2 else 1
  }

  lemma LoadCount(p: Problem, g: ConfigFile, l: Loaded)
    ensures Count(p, LoadAudit(NoFindings, g, l).problems) == LoadHits(p, g, l)
  {
  }

  lemma ProjectLoadCount(ws: Workspace, p: Problem)
    requires IsLoadProblem(p)
    ensures Count(p, ProjectReport(ws).problems) ==
      LoadHits(p, DbtProject, ws.project) + LoadHits(p, Profiles, ws.profiles)
  {
    var l1 := LoadAudit(NoFindings, DbtProject, ws.project);
    var l2 := LoadAudit(NoFindings, Profiles, ws.profiles);
    LoadAppends(l1, Profiles, ws.profiles);
    LoadCount(p, DbtProject, ws.project);
    LoadCount(p, Profiles, ws.profiles);
    CountConcat(p, l1.problems, l2.problems);
    var project, profiles := LoadDoc(ws.project), LoadDoc(ws.profiles);
    if Truthy(project) && Truthy(profiles) {
      TruthyDocParsed(ws.project);
      TruthyDocParsed(ws.profiles);
      var rest := LinkageAudit(NoFindings, project, profiles);
      assert ProjectReport(ws) == rest;
      if ProfileFound(ws) {
        FoundProfileReport(ws);
        var t := TargetsAudit(NoFindings, ProfileName(ws), ChosenProfile(ws));
        TargetsProblems(ProfileName(ws), ChosenProfile(ws));
        assert rest.problems == BeforeTargets(ws).problems + t.problems;
      }
      CountAbsent(p, rest.problems);
    }
  }

  lemma PathsLoadCount(ws: Workspace, p: Problem)
    requires IsLoadProblem(p)
    ensures Count(p, PathsAudit(NoFindings, ws).problems) == LoadHits(p, DbtProject, ws.project)
  {
    PathProblems(ws);
    var l := LoadAudit(NoFindings, DbtProject, ws.project);
    var project := LoadDoc(ws.project);
    var missing := if Truthy(project) && !Truthy(Get(project, Str("model-paths"))) then [PathKeyMissing("model-paths")] else [];
    LoadCount(p, DbtProject, ws.project);
    CountConcat(p, l.problems, missing);
    CountAbsent(p, missing);
  }

  lemma ModelsLoadCount(ws: Workspace, p: Problem)
    requires IsLoadProblem(p)
    ensures Count(p, ModelsReport(ws).problems) == LoadHits(p, SchemaYml, ws.schema)
  {
    var data := LoadDoc(ws.schema);
    TruthyDocParsed(ws.schema);
    if Truthy(data) {
      if Get(data, Str("models")).List? {
        MisplacedTestsCounted(ws);
      } else {
        ModelsNotListStops(ws);
      }
      CountAbsent(p, ModelsReport(ws).problems);
    }
  }

  lemma SourcesLoadCount(ws: Workspace, p: Problem)
    requires IsLoadProblem(p)
    ensures Count(p, SourcesReport(ws).problems) == LoadHits(p, SourcesYml, ws.sources)
  {
    var data := LoadDoc(ws.sources);
    TruthyDocParsed(ws.sources);
    if Truthy(data) {
      var sources := Get(data, Str("sources"));
      if sources.List? && sources.items != [] {
        SourceWarnings(ws);
      } else {
        NoSourcesStops(ws);
      }
      CountAbsent(p, SourcesReport(ws).problems);
    }
  }

  /** Each load problem of a run is counted once per load of its file. */
  lemma LoadProblemCount(ws: Workspace, p: Problem)
    requires IsLoadProblem(p)
    ensures Count(p, FullAudit(ws).problems) ==
      2 * LoadHits(p, DbtProject, ws.project) + LoadHits(p, Profiles, ws.profiles) +
      LoadHits(p, SchemaYml, ws.schema) + LoadHits(p, SourcesYml, ws.sources)
  {
    AuditOrder(ws);
    var a, b, c, d := ProjectReport(ws).problems, PathsAudit(NoFindings, ws).problems,
      ModelsReport(ws).problems, SourcesReport(ws).problems;
    assert FullAudit(ws).problems == ((a + b) + c) + d;
    CountConcat(p, (a + b) + c, d);
    CountConcat(p, a + b, c);
    CountConcat(p, a, b);
    ProjectLoadCount(ws, p);
    PathsLoadCount(ws, p);
    ModelsLoadCount(ws, p);
    SourcesLoadCount(ws, p);
  }

  /** A missing file is reported once per load, so a missing
      dbt_project.yml twice and any other missing file once; the same holds
      for a file that does not parse. A file that loads is never reported. */
  lemma LoadFailuresCounted(ws: Workspace, f: ConfigFile)
    ensures Count(MissingFile(f), FullAudit(ws).problems) ==
      if Outcome(ws, f).Missing? then Loads(f) else 0
    ensures Count(ParseFailed(f), FullAudit(ws).problems) ==
      if Outcome(ws, f).Unparsable? then Loads(f) else 0
  {
    LoadProblemCount(ws, MissingFile(f));
    LoadProblemCount(ws, ParseFailed(f));
  }

  // ---- an empty project file ----

  /** A dbt_project.yml that is present but parses to nothing (an empty
      file) is reported neither by the project/profile check nor by the
      paths check: no name, profile or model-paths problem is recorded. */
  lemma EmptyProjectFileRaisesNothing(ws: Workspace)
    requires ws.project.Parsed? && !Truthy(ws.project.doc)
    ensures ProjectReport(ws) == LoadAudit(NoFindings, Profiles, ws.profiles)
    ensures PathsAudit(NoFindings, ws) == NoFindings
  {
  }
}
