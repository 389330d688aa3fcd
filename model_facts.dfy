/**
 * What check_models_yaml finds: a version other than 2 is the only warning,
 * a `models` value that is not a list is the one problem and stops the
 * check, and otherwise there is one problem per accepted_values test whose
 * values sit under `arguments`, over all tests of all columns of all models.
 */
module ModelFacts {
  import opened Yaml
  import opened Seqs
  import opened Findings
  import opened Rules
  import opened Appending

  /** The findings of the models check on fresh lists. */
  function ModelsReport(ws: Workspace): Report {
    ModelsAudit(NoFindings, ws)
  }

  /** The tests of all the given columns, in order. */
  function ColumnTests(cs: seq<Value>): seq<Value> {
    if cs == [] then [] else TestsOf(cs[0]) + ColumnTests(cs[1..])
  }

  /** The tests of all columns of all the given models, in order. */
  function ModelTests(ms: seq<Value>): seq<Value> {
    if ms == [] then [] else ColumnTests(ColumnsOf(ms[0])) + ModelTests(ms[1..])
  }

  /** How many of the tests put accepted_values under `arguments`. */
  function MisplacedCount(ts: seq<Value>): nat {
    if ts == [] then 0 else (if MisplacedValues(ts[0]) then 1 else 0) + MisplacedCount(ts[1..])
  }

  /** `n` accepted_values problems. */
  function Misplaced(n: nat): seq<Problem> {
    if n == 0 then [] else Misplaced(n - 1) + [AcceptedValuesUnderArguments]
  }

  // ---- reference-definition algebra ----

  lemma {:induction false} MisplacedCountConcat(a: seq<Value>, b: seq<Value>)
    ensures MisplacedCount(a + b) == MisplacedCount(a) + MisplacedCount(b)
  {
    if a == [] {
      assert a + b == b;
    } else {
      assert (a + b)[1..] == a[1..] + b;
      MisplacedCountConcat(a[1..], b);
    }
  }

  lemma {:induction false} MisplacedCountZero(ts: seq<Value>)
    ensures MisplacedCount(ts) == 0 <==> forall t | t in ts :: !MisplacedValues(t)
  {
    if ts != [] {
      MisplacedCountZero(ts[1..]);
      assert forall t | t in ts :: t == ts[0] || t in ts[1..];
    }
  }

  lemma {:induction false} MisplacedAdd(a: nat, b: nat)
    ensures Misplaced(a) + Misplaced(b) == Misplaced(a + b)
  {
    if b == 0 {
      assert Misplaced(a) + [] == Misplaced(a);
    } else {
      MisplacedAdd(a, b - 1);
      assert Misplaced(a) + (Misplaced(b - 1) + [AcceptedValuesUnderArguments]) ==
        (Misplaced(a) + Misplaced(b - 1)) + [AcceptedValuesUnderArguments];
    }
  }

  lemma {:induction false} MisplacedShape(n: nat)
    ensures |Misplaced(n)| == n
    ensures forall p | p in Misplaced(n) :: p == AcceptedValuesUnderArguments
  {
    if n > 0 {
      MisplacedShape(n - 1);
    }
  }

  lemma {:induction false} ColumnTestsLast(cs: seq<Value>)
    requires cs != []
    ensures ColumnTests(cs) == ColumnTests(cs[..|cs| - 1]) + TestsOf(cs[|cs| - 1])
  {
    if |cs| == 1 {
      assert cs[..0] == [];
      assert ColumnTests(cs[1..]) == [];
    } else {
      ColumnTestsLast(cs[1..]);
      assert cs[1..][..|cs| - 2] == cs[..|cs| - 1][1..];
      assert ColumnTests(cs[..|cs| - 1]) == TestsOf(cs[0]) + ColumnTests(cs[..|cs| - 1][1..]);
    }
  }

  lemma {:induction false} ModelTestsLast(ms: seq<Value>)
    requires ms != []
    ensures ModelTests(ms) == ModelTests(ms[..|ms| - 1]) + ColumnTests(ColumnsOf(ms[|ms| - 1]))
  {
    if |ms| == 1 {
      assert ms[..0] == [];
      assert ModelTests(ms[1..]) == [];
    } else {
      ModelTestsLast(ms[1..]);
      assert ms[1..][..|ms| - 2] == ms[..|ms| - 1][1..];
      assert ModelTests(ms[..|ms| - 1]) == ColumnTests(ColumnsOf(ms[0])) + ModelTests(ms[..|ms| - 1][1..]);
    }
  }

  // ---- the three loops agree with the reference ----

  lemma {:induction false} TestListFindings(r: Report, ts: seq<Value>)
    ensures TestListAudit(r, ts) == Report(r.problems + Misplaced(MisplacedCount(ts)), r.warnings)
  {
    if ts == [] {
      assert r.problems + [] == r.problems;
    } else {
      var init, t := ts[..|ts| - 1], ts[|ts| - 1];
      TestListFindings(r, init);
      assert ts == init + [t];
      MisplacedCountConcat(init, [t]);
      var n := MisplacedCount(init);
      if MisplacedValues(t) {
        assert (r.problems + Misplaced(n)) + [AcceptedValuesUnderArguments] == r.problems + Misplaced(n + 1);
      }
    }
  }

  /** The misplaced tests of the columns, counted one column at a time
      from the end, as the loops visit them. */
  function ColumnMisplaced(cs: seq<Value>): nat {
    if cs == [] then 0 else ColumnMisplaced(cs[..|cs| - 1]) + MisplacedCount(TestsOf(cs[|cs| - 1]))
  }

  /** The misplaced tests of the models, counted one model at a time. */
  function ModelMisplaced(ms: seq<Value>): nat {
    if ms == [] then 0 else ModelMisplaced(ms[..|ms| - 1]) + ColumnMisplaced(ColumnsOf(ms[|ms| - 1]))
  }

  lemma {:induction false} ColumnMisplacedCounts(cs: seq<Value>)
    ensures ColumnMisplaced(cs) == MisplacedCount(ColumnTests(cs))
  {
    if cs != [] {
      ColumnMisplacedCounts(cs[..|cs| - 1]);
      ColumnTestsLast(cs);
      MisplacedCountConcat(ColumnTests(cs[..|cs| - 1]), TestsOf(cs[|cs| - 1]));
    }
  }

  lemma {:induction false} ModelMisplacedCounts(ms: seq<Value>)
    ensures ModelMisplaced(ms) == MisplacedCount(ModelTests(ms))
  {
    if ms != [] {
      ModelMisplacedCounts(ms[..|ms| - 1]);
      ColumnMisplacedCounts(ColumnsOf(ms[|ms| - 1]));
      ModelTestsLast(ms);
      MisplacedCountConcat(ModelTests(ms[..|ms| - 1]), ColumnTests(ColumnsOf(ms[|ms| - 1])));
    }
  }

  lemma AppendMisplaced(ps: seq<Problem>, a: nat, b: nat)
    ensures (ps + Misplaced(a)) + Misplaced(b) == ps + Misplaced(a + b)
  {
    MisplacedAdd(a, b);
  }

  lemma {:induction false} ColumnListTally(r: Report, cs: seq<Value>)
    ensures ColumnListAudit(r, cs) == Report(r.problems + Misplaced(ColumnMisplaced(cs)), r.warnings)
  {
    if cs == [] {
      assert r.problems + [] == r.problems;
    } else {
      var init, c := cs[..|cs| - 1], cs[|cs| - 1];
      ColumnListTally(r, init);
      TestListFindings(ColumnListAudit(r, init), TestsOf(c));
      AppendMisplaced(r.problems, ColumnMisplaced(init), MisplacedCount(TestsOf(c)));
    }
  }

  lemma {:induction false} ModelListTally(r: Report, ms: seq<Value>)
    ensures ModelListAudit(r, ms) == Report(r.problems + Misplaced(ModelMisplaced(ms)), r.warnings)
  {
    if ms == [] {
      assert r.problems + [] == r.problems;
    } else {
      var init, m := ms[..|ms| - 1], ms[|ms| - 1];
      ModelListTally(r, init);
      ColumnListTally(ModelListAudit(r, init), ColumnsOf(m));
      AppendMisplaced(r.problems, ModelMisplaced(init), ColumnMisplaced(ColumnsOf(m)));
    }
  }

  /** The model loop records one accepted_values problem per misplaced test
      among all tests of all columns of all models, and no warning. */
  lemma ModelListFindings(r: Report, ms: seq<Value>)
    ensures ModelListAudit(r, ms) == Report(r.problems + Misplaced(MisplacedCount(ModelTests(ms))), r.warnings)
  {
    ModelListTally(r, ms);
    ModelMisplacedCounts(ms);
  }

  // ---- check_models_yaml ----

  /** The one warning of the models check: a non-empty schema.yml whose
      version is neither 2 nor "2". */
  lemma SchemaVersionWarning(ws: Workspace)
    ensures var data := LoadDoc(ws.schema);
      ModelsReport(ws).warnings ==
        if Truthy(data) && !VersionTwo(Get(data, Str("version"))) then [SchemaVersion] else []
  {
    var data := LoadDoc(ws.schema);
    var models := Get(data, Str("models"));
    if Truthy(data) && models.List? {
      var l := LoadAudit(NoFindings, SchemaYml, ws.schema);
      var r := if VersionTwo(Get(data, Str("version"))) then l else l.AddWarning(SchemaVersion);
      ModelListFindings(r, models.items);
    }
  }

  /** A `models` value that is not a list is the one problem, and no model
      is looked at. */
  lemma ModelsNotListStops(ws: Workspace)
    requires Truthy(LoadDoc(ws.schema)) && !Get(LoadDoc(ws.schema), Str("models")).List?
    ensures ModelsReport(ws).problems == [ModelsNotList]
  {
  }

  /** With a list of models, the problems are one accepted_values problem
      per misplaced test, and nothing else. */
  lemma MisplacedTestsCounted(ws: Workspace)
    requires Truthy(LoadDoc(ws.schema)) && Get(LoadDoc(ws.schema), Str("models")).List?
    ensures var ms := Get(LoadDoc(ws.schema), Str("models")).items;
      |ModelsReport(ws).problems| == MisplacedCount(ModelTests(ms))
    ensures forall p | p in ModelsReport(ws).problems :: p == AcceptedValuesUnderArguments
  {
    var data := LoadDoc(ws.schema);
    var ms := Get(data, Str("models")).items;
    var l := LoadAudit(NoFindings, SchemaYml, ws.schema);
    var r := if VersionTwo(Get(data, Str("version"))) then l else l.AddWarning(SchemaVersion);
    ModelListFindings(r, ms);
    MisplacedShape(MisplacedCount(ModelTests(ms)));
  }

  /** The models check records no problem exactly when schema.yml loads and,
      when it is non-empty, lists its models and places every accepted_values
      test's values correctly. */
  lemma ModelsPass(ws: Workspace)
    ensures ModelsReport(ws).problems == [] <==>
      ws.schema.Parsed? &&
      (Truthy(LoadDoc(ws.schema)) ==>
        Get(LoadDoc(ws.schema), Str("models")).List? &&
        forall t | t in ModelTests(Get(LoadDoc(ws.schema), Str("models")).items) :: !MisplacedValues(t))
  {
    var data := LoadDoc(ws.schema);
    var models := Get(data, Str("models"));
    if Truthy(data) && models.List? {
      MisplacedTestsCounted(ws);
      MisplacedCountZero(ModelTests(models.items));
    }
  }
}
