/**
 * What check_project_and_profile finds, stated on the workspace: when the
 * checks stop early, the one problem of a missing profile, and for an
 * existing profile its target problems and one warning per non-BigQuery
 * output or blank service-account keyfile.
 */
module ProfileFacts {
  import opened Yaml
  import opened Seqs
  import opened Findings
  import opened Rules
  import opened Appending

  /** The findings of the project/profile check on fresh lists. */
  function ProjectReport(ws: Workspace): Report {
    ProjectAndProfileAudit(NoFindings, ws)
  }

  predicate IsLoadProblem(p: Problem) { p.MissingFile? || p.ParseFailed? }

  /** Both documents are non-empty and the project names a profile that
      profiles.yml defines. */
  predicate ProfileFound(ws: Workspace) {
    var project := LoadDoc(ws.project);
    var profiles := LoadDoc(ws.profiles);
    var profile := Get(project, Str("profile"));
    Truthy(project) && Truthy(profiles) && Truthy(profile) && HasKey(profiles, profile)
  }

  function ProfileName(ws: Workspace): Value { Get(LoadDoc(ws.project), Str("profile")) }

  /** The profile entry the project names. */
  function ChosenProfile(ws: Workspace): Value { Get(LoadDoc(ws.profiles), ProfileName(ws)) }

  /** A service-account output whose keyfile is a string of white space only. */
  predicate ServiceAccountBlankKeyfile(out: Value) {
    var keyfile := Get(out, Str("keyfile"));
    Get(out, Str("method")) == Str("service-account") && keyfile.Str? && Blank(keyfile.s)
  }

  /** The loads record only load problems and no warnings. */
  lemma LoadsRecordLoadProblems(ws: Workspace)
    ensures var l := LoadAudit(LoadAudit(NoFindings, DbtProject, ws.project), Profiles, ws.profiles);
      l.warnings == [] && (forall p | p in l.problems :: IsLoadProblem(p))
  {
  }

  /** With an empty (or missing, or unparsable) dbt_project.yml or
      profiles.yml, only the load problems are recorded: no linkage, target
      or output check runs. */
  lemma EmptyDocumentStopsProjectChecks(ws: Workspace)
    requires !Truthy(LoadDoc(ws.project)) || !Truthy(LoadDoc(ws.profiles))
    ensures ProjectReport(ws).warnings == []
    ensures forall p | p in ProjectReport(ws).problems :: IsLoadProblem(p)
  {
    LoadsRecordLoadProblems(ws);
  }

  /** A profile name that is set but not defined gives exactly one
      profile-not-found problem, no target problem and no warning. */
  lemma ProfileNotFoundStops(ws: Workspace)
    requires Truthy(LoadDoc(ws.project)) && Truthy(LoadDoc(ws.profiles))
    requires Truthy(ProfileName(ws)) && !HasKey(LoadDoc(ws.profiles), ProfileName(ws))
    ensures Count(ProfileNotFound(ProfileName(ws), Keys(LoadDoc(ws.profiles))), ProjectReport(ws).problems) == 1
    ensures forall p | p in ProjectReport(ws).problems :: !p.NoOutputs? && !p.TargetNotDefined?
    ensures ProjectReport(ws).warnings == []
  {
    var project, profiles := LoadDoc(ws.project), LoadDoc(ws.profiles);
    var nf := ProfileNotFound(ProfileName(ws), Keys(profiles));
    var l := LoadAudit(LoadAudit(NoFindings, DbtProject, ws.project), Profiles, ws.profiles);
    LoadsRecordLoadProblems(ws);
    var named := if !Truthy(Get(project, Str("name"))) then [NameRequired] else [];
    assert ProjectReport(ws).problems == l.problems + (named + [nf]);
    CountAbsent(nf, l.problems);
    CountAbsent(nf, named);
    CountConcat(nf, named, [nf]);
    CountConcat(nf, l.problems, named + [nf]);
  }

  /** The findings of the loads and the name check, which come before those
      of the target checks. */
  function BeforeTargets(ws: Workspace): Report {
    var l := LoadAudit(LoadAudit(NoFindings, DbtProject, ws.project), Profiles, ws.profiles);
    if !Truthy(Get(LoadDoc(ws.project), Str("name"))) then l.AddProblem(NameRequired) else l
  }

  /** For a profile that exists, the findings after the loads and the name
      check are those of the target checks. */
  lemma FoundProfileReport(ws: Workspace)
    requires ProfileFound(ws)
    ensures ProjectReport(ws) == BeforeTargets(ws).Then(TargetsAudit(NoFindings, ProfileName(ws), ChosenProfile(ws)))
    ensures BeforeTargets(ws).warnings == []
    ensures forall p | p in BeforeTargets(ws).problems :: !p.NoOutputs? && !p.TargetNotDefined?
  {
    LoadsRecordLoadProblems(ws);
    TargetsAppend(BeforeTargets(ws), ProfileName(ws), ChosenProfile(ws));
  }

  /** The problems the target checks record, in order. */
  lemma TargetsProblems(profile: Value, prof: Value)
    ensures var target := Get(prof, Str("target"));
            var outputs := Get(prof, Str("outputs"));
      TargetsAudit(NoFindings, profile, prof).problems ==
        (if !Truthy(outputs) then [NoOutputs(profile)] else []) +
        (if Truthy(target) && !HasKey(outputs, target) then [TargetNotDefined(target, profile)] else [])
  {
    var target := Get(prof, Str("target"));
    var outputs := OutputsOf(prof);
    var r1 := if !Truthy(outputs) then NoFindings.AddProblem(NoOutputs(profile)) else NoFindings;
    var r := if Truthy(target) && !HasKey(outputs, target) then r1.AddProblem(TargetNotDefined(target, profile)) else r1;
    OutputsAppend(r, Entries(outputs));
  }

  /** For a profile that exists: empty outputs is a problem, a target that is
      set but not among the outputs is a problem, and nothing else related to
      the profile is. */
  lemma TargetProblems(ws: Workspace)
    requires ProfileFound(ws)
    ensures var outputs := Get(ChosenProfile(ws), Str("outputs"));
      NoOutputs(ProfileName(ws)) in ProjectReport(ws).problems <==> !Truthy(outputs)
    ensures var target := Get(ChosenProfile(ws), Str("target"));
            var outputs := Get(ChosenProfile(ws), Str("outputs"));
      TargetNotDefined(target, ProfileName(ws)) in ProjectReport(ws).problems <==>
        Truthy(target) && !HasKey(outputs, target)
  {
    FoundProfileReport(ws);
    var t := TargetsAudit(NoFindings, ProfileName(ws), ChosenProfile(ws));
    TargetsProblems(ProfileName(ws), ChosenProfile(ws));
    assert ProjectReport(ws).problems == BeforeTargets(ws).problems + t.problems;
  }

  /** The warnings of a found profile are those of its outputs loop; the
      loop itself never adds a problem. */
  lemma FoundProfileWarnings(ws: Workspace)
    requires ProfileFound(ws)
    ensures ProjectReport(ws).warnings ==
      OutputsAudit(NoFindings, Entries(Get(ChosenProfile(ws), Str("outputs")))).warnings
  {
    FoundProfileReport(ws);
    var prof := ChosenProfile(ws);
    var outputs := OutputsOf(prof);
    var r1 := if !Truthy(outputs) then NoFindings.AddProblem(NoOutputs(ProfileName(ws))) else NoFindings;
    var r := if Truthy(Get(prof, Str("target"))) && !HasKey(outputs, Get(prof, Str("target")))
      then r1.AddProblem(TargetNotDefined(Get(prof, Str("target")), ProfileName(ws))) else r1;
    OutputsAppend(r, Entries(outputs));
    assert r.warnings == [];
  }

  /** Some output is named `n` and has type `t`. */
  predicate HasTypedOutput(es: seq<Entry>, n: Value, t: Value) {
    exists i | 0 <= i < |es| :: es[i].key == n && TypeOf(es[i].val) == t
  }

  /** Some output named `n` is a service account with a blank keyfile. */
  predicate HasBlankKeyfileOutput(es: seq<Entry>, n: Value) {
    exists i | 0 <= i < |es| :: es[i].key == n && ServiceAccountBlankKeyfile(es[i].val)
  }

  lemma DistinctKeysInit(es: seq<Entry>)
    requires es != [] && DistinctKeys(es)
    ensures DistinctKeys(es[..|es| - 1])
    ensures forall i | 0 <= i < |es| - 1 :: es[i].key != es[|es| - 1].key
  {
  }

  lemma HasTypedOutputInit(es: seq<Entry>, n: Value, t: Value)
    requires es != []
    ensures HasTypedOutput(es, n, t) <==>
      HasTypedOutput(es[..|es| - 1], n, t) || (es[|es| - 1].key == n && TypeOf(es[|es| - 1].val) == t)
  {
    var init := es[..|es| - 1];
    if HasTypedOutput(init, n, t) {
      var i :| 0 <= i < |init| && init[i].key == n && TypeOf(init[i].val) == t;
      assert es[i] == init[i];
    }
  }

  lemma HasBlankKeyfileOutputInit(es: seq<Entry>, n: Value)
    requires es != []
    ensures HasBlankKeyfileOutput(es, n) <==>
      HasBlankKeyfileOutput(es[..|es| - 1], n) || (es[|es| - 1].key == n && ServiceAccountBlankKeyfile(es[|es| - 1].val))
  {
    var init := es[..|es| - 1];
    if HasBlankKeyfileOutput(init, n) {
      var i :| 0 <= i < |init| && init[i].key == n && ServiceAccountBlankKeyfile(init[i].val);
      assert es[i] == init[i];
    }
  }

  /** The warnings one output gets: a type warning, then a keyfile warning. */
  lemma OneOutputWarnings(e: Entry)
    ensures OutputAudit(NoFindings, e).warnings ==
      (if TypeOf(e.val) != Str("bigquery") then [OutputNotBigQuery(e.key, TypeOf(e.val))] else []) +
      (if ServiceAccountBlankKeyfile(e.val) then [KeyfileEmpty(e.key)] else [])
  {
    var keyfile := Get(e.val, Str("keyfile"));
    if keyfile.Str? {
      StripEmptyIffBlank(keyfile.s);
    }
  }

  lemma OneOutputCounts(e: Entry, n: Value, t: Value)
    ensures Count(OutputNotBigQuery(n, t), OutputAudit(NoFindings, e).warnings) ==
      if e.key == n && TypeOf(e.val) == t && t != Str("bigquery") then 1 else 0
    ensures Count(KeyfileEmpty(n), OutputAudit(NoFindings, e).warnings) ==
      if e.key == n && ServiceAccountBlankKeyfile(e.val) then 1 else 0
  {
    OneOutputWarnings(e);
    var first := if TypeOf(e.val) != Str("bigquery") then [OutputNotBigQuery(e.key, TypeOf(e.val))] else [];
    var second := if ServiceAccountBlankKeyfile(e.val) then [KeyfileEmpty(e.key)] else [];
    CountConcat(OutputNotBigQuery(n, t), first, second);
    CountConcat(KeyfileEmpty(n), first, second);
  }

  /** The outputs loop warns about the last output after the others. */
  lemma OutputsAuditLast(es: seq<Entry>)
    requires es != []
    ensures OutputsAudit(NoFindings, es).warnings ==
      OutputsAudit(NoFindings, es[..|es| - 1]).warnings + OutputAudit(NoFindings, es[|es| - 1]).warnings
  {
    var x := OutputsAudit(NoFindings, es[..|es| - 1]);
    ThenNothing(x);
    OutputAppends(x, NoFindings, es[|es| - 1]);
  }

  /** Each output whose type is not bigquery gets exactly one type warning. */
  lemma {:induction false} NonBigQueryWarnedOnce(es: seq<Entry>, n: Value, t: Value)
    requires DistinctKeys(es)
    ensures Count(OutputNotBigQuery(n, t), OutputsAudit(NoFindings, es).warnings) ==
      if t != Str("bigquery") && HasTypedOutput(es, n, t) then 1 else 0
  {
    if es != [] {
      var init, e := es[..|es| - 1], es[|es| - 1];
      DistinctKeysInit(es);
      NonBigQueryWarnedOnce(init, n, t);
      HasTypedOutputInit(es, n, t);
      OutputsAuditLast(es);
      OneOutputCounts(e, n, t);
      CountConcat(OutputNotBigQuery(n, t), OutputsAudit(NoFindings, init).warnings, OutputAudit(NoFindings, e).warnings);
    }
  }

  /** Each service-account output with a blank keyfile gets exactly one
      keyfile warning. */
  lemma {:induction false} BlankKeyfileWarnedOnce(es: seq<Entry>, n: Value)
    requires DistinctKeys(es)
    ensures Count(KeyfileEmpty(n), OutputsAudit(NoFindings, es).warnings) ==
      if HasBlankKeyfileOutput(es, n) then 1 else 0
  {
    if es != [] {
      var init, e := es[..|es| - 1], es[|es| - 1];
      DistinctKeysInit(es);
      BlankKeyfileWarnedOnce(init, n);
      HasBlankKeyfileOutputInit(es, n);
      OutputsAuditLast(es);
      OneOutputCounts(e, n, Null);
      CountConcat(KeyfileEmpty(n), OutputsAudit(NoFindings, init).warnings, OutputAudit(NoFindings, e).warnings);
    }
  }

  /** For a profile that exists and whose outputs have distinct names: each
      output whose type is not bigquery is warned about exactly once, with its
      name and type, and so is each service-account output whose keyfile is
      blank. */
  lemma OutputWarnings(ws: Workspace, n: Value, t: Value)
    requires ProfileFound(ws)
    requires DistinctKeys(Entries(Get(ChosenProfile(ws), Str("outputs"))))
    ensures var es := Entries(Get(ChosenProfile(ws), Str("outputs")));
      Count(OutputNotBigQuery(n, t), ProjectReport(ws).warnings) ==
        if t != Str("bigquery") && HasTypedOutput(es, n, t) then 1 else 0
    ensures var es := Entries(Get(ChosenProfile(ws), Str("outputs")));
      Count(KeyfileEmpty(n), ProjectReport(ws).warnings) ==
        if HasBlankKeyfileOutput(es, n) then 1 else 0
  {
    FoundProfileWarnings(ws);
    var es := Entries(Get(ChosenProfile(ws), Str("outputs")));
    NonBigQueryWarnedOnce(es, n, t);
    BlankKeyfileWarnedOnce(es, n);
  }
}
