# dbt setup audit: a verified model

This project models `audit_dbt_setup.py`, the static audit that checks a dbt
project checkout before it is run. The script loads four YAML files:

- `dbt_project.yml`
- `profiles.yml`
- `models/schema.yml`
- `models/sources.yml`

It cross-checks them, and it appends to two module-level lists. `PROBLEMS`
holds blocking findings and `WARNINGS` holds advisories. It exits 1 exactly
when `PROBLEMS` is non-empty.

The model has three layers.

- **Values.** `Yaml` gives loaded YAML values: null, booleans, integers,
  strings, lists and insertion-ordered mappings. It also gives the Python
  operations the script applies to them: truth value, `or`, `dict.get`, `in`,
  iteration and `str.strip`. `Findings` gives:
  - the outcome of loading a file (missing, unparsable, or parsed);
  - the workspace, which is the four outcomes plus the set of directories
    that exist;
  - one constructor per kind of problem and warning the script records.
- **Specification.** `Rules` writes each step of the script as a function
  from the report so far to the report afterwards. Each function appends in
  the script's order. `FullAudit` is the whole run.
- **Imperative model.** In `Audit`, class `Auditor` holds the two lists as
  `seq` fields. Its methods are the script's functions: `LoadYaml` and the
  four `Check…` methods. The loops visit the outputs, path keys, paths,
  models, columns, tests and sources. Every method is proved to change the
  lists exactly as the matching `Rules` function says. `RunAudit` is
  `main`: it runs the four checks on fresh lists and returns the report and
  the exit code.

The property lemmas are grouped by check:

- `Appending`: the checks only append, in order;
- `ProfileFacts`: profiles and outputs;
- `PathFacts`: directory keys;
- `ModelFacts`: `schema.yml`;
- `SourceFacts`: `sources.yml`;
- `RunFacts`: the whole run, which passes exactly for a `Sound` workspace,
  plus the counts of load failures.

A finding is a tag with the values the message interpolates, not the
message text. The types make every finding of the BigQuery loop a `Warning`
value; that the loop leaves the problems unchanged is proved by
`Appending.OutputsAppend`.

All source references are to `audit_dbt_setup.py`.

## Model

| member | source | states |
|---|---|---|
| `Audit.Auditor.constructor` | audit_dbt_setup.py:33-34 | Both accumulators start empty. |
| `Audit.Auditor.LoadYaml` | audit_dbt_setup.py:37-46 | A missing file records one missing-file problem and yields `{}`. A file that cannot be read or parsed records one parse-failure problem and yields `{}`. A parsed document is returned unless it is false (an empty file), in which case `{}` is returned and no problem is recorded. |
| `Audit.Auditor.CheckProjectAndProfile` | audit_dbt_setup.py:49-60 | Both files are loaded (both load problems are recorded) before the checks stop on an empty project or profiles document. The new lists are the old ones extended as `ProjectAndProfileAudit` says. |
| `Audit.Auditor.CheckLinkage` | audit_dbt_setup.py:62-77 | Records the name-required and profile-required problems and the profile-not-found problem, then runs the target checks only for a profile that exists. |
| `Audit.Auditor.CheckTargets` | audit_dbt_setup.py:77-99 | Records the no-outputs and target-not-defined problems. The loop over the outputs keeps the warnings equal to `OutputsAudit` of the outputs visited so far. |
| `Audit.Auditor.CheckPaths` | audit_dbt_setup.py:102-115 | After loading the project, the loop over the six path keys, in order, keeps the lists equal to `PathKeysAudit` of the keys visited. |
| `Audit.Auditor.CheckPathKey` | audit_dbt_setup.py:116-122 | Records a missing-key problem only for a required key with no paths. The loop over its paths keeps the warnings equal to `PathListAudit` of the paths visited. |
| `Audit.Auditor.CheckModelsYaml` | audit_dbt_setup.py:125-137 | Records the version warning. Stops after one problem when `models` is not a list. Otherwise the loop over the models matches `ModelListAudit`. |
| `Audit.Auditor.CheckColumns` | audit_dbt_setup.py:138-140 | The loop over one model's columns matches `ColumnListAudit`. |
| `Audit.Auditor.CheckTests` | audit_dbt_setup.py:141-147 | The loop over one column's tests matches `TestListAudit`: one problem per accepted_values test that has `arguments` but no `values`. |
| `Audit.Auditor.CheckSourcesYaml` | audit_dbt_setup.py:150-166 | Records the version warning. Stops after one problem when `sources` is not a non-empty list. Otherwise the loop matches `SourceListAudit`. |
| `Audit.RunAudit` | audit_dbt_setup.py:169-195 | The report is `FullAudit` of the workspace. The exit code is 1 exactly when a problem was recorded and 0 exactly when none was, whatever the warnings. |
| `Yaml.LookupFirst` | audit_dbt_setup.py:63-64 | `get` of an absent key is None. `get` of a present key is the value of the first entry with that key. |
| `Yaml.KeyInIff` | audit_dbt_setup.py:71 | `k in d` holds exactly when some entry of `d` has key `k`. |
| `Yaml.StripEmptyIffBlank` | audit_dbt_setup.py:96 | `s.strip() == ""` holds exactly when every character of `s` is white space. |
| `Appending.LoadAppends` | audit_dbt_setup.py:37-46 | Loading a file appends its problem after the findings so far. |
| `Appending.OutputsAppend` | audit_dbt_setup.py:88-99 | The BigQuery loop appends warnings after the findings so far and never changes the problems. |
| `Appending.TargetsAppend` | audit_dbt_setup.py:77-99 | The target checks append after the findings so far. |
| `Appending.LinkageAppends` | audit_dbt_setup.py:62-99 | The linkage checks append after the findings so far. |
| `Appending.PathListAppends` | audit_dbt_setup.py:119-122 | The loop over one key's paths appends warnings and never changes the problems. |
| `Appending.PathKeysAppend` | audit_dbt_setup.py:115-122 | The loop over the path keys appends after the findings so far. |
| `Appending.TestListAppends` | audit_dbt_setup.py:141-147 | The loop over the tests appends problems and never changes the warnings. |
| `Appending.ColumnListAppends` | audit_dbt_setup.py:139-147 | The loop over the columns appends problems and never changes the warnings. |
| `Appending.ModelListAppends` | audit_dbt_setup.py:137-147 | The loop over the models appends problems and never changes the warnings. |
| `Appending.SourceListAppends` | audit_dbt_setup.py:162-166 | The loop over the sources appends warnings and never changes the problems. |
| `Appending.ChecksOnlyAppend` | audit_dbt_setup.py:170-173 | Each of the four checks leaves earlier findings in place and appends its own findings, the same whatever came before. |
| `Appending.AuditOrder` | audit_dbt_setup.py:170-173 | A run's findings are those of project/profile, then paths, then models, then sources, each check run on its own. |
| `ProfileFacts.LoadsRecordLoadProblems` | audit_dbt_setup.py:53-54 | The two loads record only missing-file or parse-failure problems, and no warning. |
| `ProfileFacts.EmptyDocumentStopsProjectChecks` | audit_dbt_setup.py:56-60 | With an empty project or profiles document, the check records only load problems and no warning. |
| `ProfileFacts.ProfileNotFoundStops` | audit_dbt_setup.py:70-77 | A profile name that is set but not defined gives exactly one profile-not-found problem, carrying the defined profile names. There is no target or output problem and no warning. |
| `ProfileFacts.FoundProfileReport` | audit_dbt_setup.py:62-99 | For an existing profile, the report is the load and name findings (no warnings and no target problems) followed by those of the target checks. |
| `ProfileFacts.TargetsProblems` | audit_dbt_setup.py:79-86 | The target checks record a no-outputs problem exactly when the outputs are empty or absent. They record a target-not-defined problem exactly when a target is set and is not an output. They record nothing else. |
| `ProfileFacts.TargetProblems` | audit_dbt_setup.py:77-86 | For an existing profile, the run's project report holds the no-outputs problem exactly when there are no outputs. It holds the target-not-defined problem exactly when the set target is not an output. |
| `ProfileFacts.FoundProfileWarnings` | audit_dbt_setup.py:88-99 | For an existing profile, the warnings are exactly those of the loop over its outputs. |
| `ProfileFacts.OneOutputWarnings` | audit_dbt_setup.py:89-99 | One output gets a type warning when its type is not bigquery. It then gets a keyfile warning when it is a service account whose keyfile string is blank. |
| `ProfileFacts.NonBigQueryWarnedOnce` | audit_dbt_setup.py:89-93 | For outputs with distinct names, the type warning for name `n` and type `t` occurs once if output `n` has type `t` and `t` is not bigquery, and never otherwise. |
| `ProfileFacts.BlankKeyfileWarnedOnce` | audit_dbt_setup.py:94-99 | For outputs with distinct names, the keyfile warning for `n` occurs once if output `n` is a service account with a white-space-only keyfile string, and never otherwise. |
| `ProfileFacts.OutputWarnings` | audit_dbt_setup.py:88-99 | The two counts above, for the outputs of the profile the project names. |
| `PathFacts.PathListWarningsShape` | audit_dbt_setup.py:119-122 | Every warning of one key's loop names that key and a listed path that is not a directory. |
| `PathFacts.PathListWarningCount` | audit_dbt_setup.py:119-122 | A path gets one not-found warning per listing unless it is a directory. A directory gets none. |
| `PathFacts.OptionalKeysNoProblems` | audit_dbt_setup.py:115-118 | Keys that are not required never record a problem. |
| `PathFacts.PathKeysWarningCount` | audit_dbt_setup.py:115-122 | With distinct key names, the not-found warnings for path `p` under `key` are counted as for that key's own list when the key is visited, and are zero otherwise. |
| `PathFacts.PathKeysDistinct` | audit_dbt_setup.py:107-114 | The six path keys have distinct names. |
| `PathFacts.PathProblems` | audit_dbt_setup.py:104-118 | Apart from the load problem, the paths check records exactly one problem when the project is non-empty and `model-paths` is absent or empty, and no problem otherwise. |
| `PathFacts.PathWarnings` | audit_dbt_setup.py:104-122 | For a non-empty project, path `p` under one of the six keys is warned about once per listing under that key when it is not a directory. It is never warned about otherwise. Other keys get no warnings. |
| `ModelFacts.TestListFindings` | audit_dbt_setup.py:141-147 | The tests loop appends one accepted_values problem per misplaced test and leaves the warnings alone. |
| `ModelFacts.ColumnListTally` | audit_dbt_setup.py:139-147 | The columns loop appends one accepted_values problem per misplaced test of each column, counted column by column. |
| `ModelFacts.ModelListTally` | audit_dbt_setup.py:137-147 | The models loop appends one accepted_values problem per misplaced test of each model, counted model by model. |
| `ModelFacts.ModelListFindings` | audit_dbt_setup.py:137-147 | The problems of the models loop are as many accepted_values problems as there are misplaced tests in the flattened list of all tests of all columns of all models. |
| `ModelFacts.SchemaVersionWarning` | audit_dbt_setup.py:130-131 | The only warning of the models check is the version warning. It is recorded exactly when schema.yml is non-empty and its version is neither 2 nor "2". |
| `ModelFacts.ModelsNotListStops` | audit_dbt_setup.py:132-135 | A `models` value that is not a list gives exactly one problem, and no model is examined. |
| `ModelFacts.MisplacedTestsCounted` | audit_dbt_setup.py:137-147 | With a list of models, every problem is an accepted_values problem, and there is one per misplaced test. |
| `ModelFacts.ModelsPass` | audit_dbt_setup.py:127-147 | The models check records no problem exactly when schema.yml loads and, when it is non-empty, lists its models with no misplaced accepted_values test. |
| `SourceFacts.SourceListWarnings` | audit_dbt_setup.py:162-166 | The sources loop records no problem. Its warnings are exactly `Undated(ss)`: one per source without `database`, naming it, in the order of the sources, so there are `LackingCount(ss)` of them and no duplicates beyond repeated sources. Every warning names a source without `database`, and every such source is warned about. |
| `SourceFacts.UndatedConcat` | audit_dbt_setup.py:162-166 | The reference list of expected source warnings, and their count, split over a concatenation of source lists. |
| `SourceFacts.UndatedLength` | audit_dbt_setup.py:162-166 | The reference list holds one warning per source without `database`. |
| `SourceFacts.SourceWarnings` | audit_dbt_setup.py:155-166 | For a non-empty list of sources there is no problem. The warnings are the version warning, when the version is not 2, followed by those of the sources loop. |
| `SourceFacts.NoSourceWarningsIff` | audit_dbt_setup.py:162-166 | The sources loop warns about nothing exactly when every source has a `database` key. |
| `SourceFacts.NoSourcesStops` | audit_dbt_setup.py:157-160 | A `sources` value that is not a list, or an empty list, gives exactly one problem. The only possible warning is the version warning. |
| `SourceFacts.SourcesPass` | audit_dbt_setup.py:152-160 | The sources check records no problem exactly when sources.yml loads and, when it is non-empty, lists at least one source. |
| `RunFacts.ProjectPasses` | audit_dbt_setup.py:53-86 | The project/profile check records no problem exactly when both files load and, when both are non-empty, they are linked: name set, profile set and defined, outputs present, and the target, if set, among the outputs. |
| `RunFacts.PathsPass` | audit_dbt_setup.py:104-118 | The paths check records no problem exactly when dbt_project.yml loads and, when it is non-empty, lists model paths. |
| `RunFacts.AuditPasses` | audit_dbt_setup.py:169-176 | A run records no problem exactly when the workspace is `Sound`. |
| `RunFacts.ExitCodeZeroIffSound` | audit_dbt_setup.py:195 | The exit code is 0 exactly for a sound workspace and 1 otherwise. Replacing the warnings never changes it. |
| `RunFacts.LoadCount` | audit_dbt_setup.py:37-46 | One load records a given load problem once when it applies to that file and outcome, and never otherwise. |
| `RunFacts.ProjectLoadCount` | audit_dbt_setup.py:53-54 | The load problems of the project/profile check are those of its two loads. |
| `RunFacts.PathsLoadCount` | audit_dbt_setup.py:104 | The load problems of the paths check are those of its own load of dbt_project.yml. |
| `RunFacts.ModelsLoadCount` | audit_dbt_setup.py:127 | The load problems of the models check are those of its load. |
| `RunFacts.SourcesLoadCount` | audit_dbt_setup.py:152 | The load problems of the sources check are those of its load. |
| `RunFacts.LoadProblemCount` | audit_dbt_setup.py:170-173 | A run counts each load problem once per load of its file: dbt_project.yml twice, the other files once. |
| `RunFacts.LoadFailuresCounted` | audit_dbt_setup.py:37-46 | A missing dbt_project.yml is reported twice. Any other missing file is reported once. The same holds for files that do not parse. A file that loads is never reported. |
| `RunFacts.EmptyProjectFileRaisesNothing` | audit_dbt_setup.py:43 | A dbt_project.yml that is present but empty makes the project/profile and paths checks record nothing of their own. No name, profile or model-paths problem is recorded. |
| `RunFacts.TruthyDocParsed` | audit_dbt_setup.py:43 | A non-empty loaded document comes from a file that parsed. |

## Left out

- `web_service.py` is not part of this model. It is a Flask wrapper that runs the script in a subprocess.
- File-system access is not modelled. The outcome of opening and parsing each file (`os.path.exists`, `open`, `yaml.safe_load`) is an input. One outcome per file serves both loads of dbt_project.yml. `os.path.isdir` is membership of the listed string itself in an input set of strings (for an absolute path, `os.path.join(ROOT, p)` is `p`, so the set is keyed by the listed string).
- YAML parsing itself is not modelled. Floats, timestamps and other scalar types are not modelled. Python's `True == 1` key equality is not modelled.
- Printing is not modelled: the report text and the JSON dump. A report carries the same findings, in the same order, as tags holding the values the messages interpolate.
- The message text and `os.path.relpath` formatting are not modelled. The exception text inside the parse-failure message is not modelled.
- The PyYAML import guard is not modelled. `sys.exit` is not modelled: `RunAudit` returns the code.
- On ill-shaped YAML the script raises, and the model does not. Its helpers are total instead:
  - `get` on a non-mapping is None; `items()` of a non-mapping is empty.
  - `in` on a non-mapping is false, so a string's substring test and a list's membership test read as absent.
  - Iterating a scalar visits nothing. A path that is not a string is not a directory.
  - A source that is not a mapping lacks `database`, and its name is None.
- The raise-on-unhashable-key case is not modelled, for example a list as a profile name.
- `ProfileFacts.NonBigQueryWarnedOnce`, `ProfileFacts.BlankKeyfileWarnedOnce`, `ProfileFacts.OutputWarnings` and `PathFacts.PathKeysWarningCount`: "exactly once" relies on distinct names, as a parsed YAML mapping has. Without that, a repeated name is warned about once per entry.
