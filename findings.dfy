/** Occurrence counting on sequences. */
module Seqs {

  /** How many times `x` occurs in `s`. */
  function Count<T(==)>(x: T, s: seq<T>): nat {
    if s == [] then 0 else (if s[0] == x then 1 else 0) + Count(x, s[1..])
  }

  lemma {:induction false} CountConcat<T>(x: T, a: seq<T>, b: seq<T>)
    ensures Count(x, a + b) == Count(x, a) + Count(x, b)
  {
    if a == [] {
      assert a + b == b;
    } else {
      assert (a + b)[1..] == a[1..] + b;
      CountConcat(x, a[1..], b);
    }
  }

  lemma {:induction false} CountAbsent<T>(x: T, s: seq<T>)
    ensures Count(x, s) == 0 <==> x !in s
  {
    if s != [] {
      CountAbsent(x, s[1..]);
      assert x in s <==> s[0] == x || x in s[1..];
    }
  }
}

/**
 * What the audit reads and what it reports: the outcome of loading each of
 * the four configuration files, the directories that exist, and the two
 * kinds of finding (blocking problems and advisory warnings).
 */
module Findings {
  import opened Yaml

  /** The four files the audit loads. */
  datatype ConfigFile = DbtProject | Profiles | SchemaYml | SourcesYml

  /** The outcome of opening and parsing one file: absent, present but
      unreadable or not valid YAML, or parsed (an empty file parses to
      Null). */
  datatype Loaded = Missing | Unparsable | Parsed(doc: Value)

  /** The script's environment: the four files under the project root and
      the set of relative path strings that name existing directories. */
  datatype Workspace = Workspace(
    project: Loaded,
    profiles: Loaded,
    schema: Loaded,
    sources: Loaded,
    dirs: set<string>)

  function Outcome(ws: Workspace, f: ConfigFile): Loaded {
    match f
    case DbtProject => ws.project
    case Profiles => ws.profiles
    case SchemaYml => ws.schema
    case SourcesYml => ws.sources
  }

  /** Blocking findings (the script's PROBLEMS list). */
  datatype Problem =
    | MissingFile(file: ConfigFile)
    | ParseFailed(file: ConfigFile)
    | NameRequired
    | ProfileRequired
    | ProfileNotFound(profile: Value, defined: seq<Value>)
    | NoOutputs(profile: Value)
    | TargetNotDefined(target: Value, profile: Value)
    | PathKeyMissing(key: string)
    | ModelsNotList
    | AcceptedValuesUnderArguments
    | NoSources

  /** Advisory findings (the script's WARNINGS list). */
  datatype Warning =
    | OutputNotBigQuery(output: Value, outputType: Value)
    | KeyfileEmpty(output: Value)
    | PathNotFound(path: Value, key: string)
    | SchemaVersion
    | SourcesVersion
    | SourceWithoutDatabase(source: Value)

  /** The two accumulated lists, in the order the findings were made. */
  datatype Report = Report(problems: seq<Problem>, warnings: seq<Warning>) {
    /** `PROBLEMS.append(p)` */
    function AddProblem(p: Problem): Report {
      Report(problems + [p], warnings)
    }

    /** `WARNINGS.append(w)` */
    function AddWarning(w: Warning): Report {
      Report(problems, warnings + [w])
    }

    /** This report followed by the findings of a later check. */
    function Then(later: Report): Report {
      Report(problems + later.problems, warnings + later.warnings)
    }
  }

  const NoFindings := Report([], [])
}
