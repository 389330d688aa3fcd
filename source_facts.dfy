/**
 * What check_sources_yaml finds: a `sources` value that is not a list, or
 * an empty list, is the one problem and ends the check; otherwise the only
 * findings are warnings, one per source without a `database` key, besides
 * the version warning.
 */
module SourceFacts {
  import opened Yaml
  import opened Seqs
  import opened Findings
  import opened Rules
  import opened Appending

  /** The findings of the sources check on fresh lists. */
  function SourcesReport(ws: Workspace): Report {
    SourcesAudit(NoFindings, ws)
  }

  predicate LacksDatabase(s: Value) { !HasKey(s, Str("database")) }

  /** The reference list: one warning for each source without a `database`
      key, naming it, in the order of the sources. */
  function Undated(ss: seq<Value>): seq<Warning> {
    if ss == [] then []
    else (if LacksDatabase(ss[0]) then [SourceWithoutDatabase(Get(ss[0], Str("name")))] else []) + Undated(ss[1..])
  }

  /** How many sources lack a `database` key. */
  function LackingCount(ss: seq<Value>): nat {
    if ss == [] then 0 else (if LacksDatabase(ss[0]) then 1 else 0) + LackingCount(ss[1..])
  }

  lemma {:induction false} UndatedConcat(a: seq<Value>, b: seq<Value>)
    ensures Undated(a + b) == Undated(a) + Undated(b)
    ensures LackingCount(a + b) == LackingCount(a) + LackingCount(b)
  {
    if a == [] {
      assert a + b == b;
    } else {
      assert (a + b)[1..] == a[1..] + b;
      UndatedConcat(a[1..], b);
    }
  }

  lemma {:induction false} UndatedLength(ss: seq<Value>)
    ensures |Undated(ss)| == LackingCount(ss)
  {
    if ss != [] {
      UndatedLength(ss[1..]);
    }
  }

  /** The warnings of the sources loop are exactly one per source without a
      `database` key, in order, and the loop records no problem. */
  lemma {:induction false} SourceListWarnings(ss: seq<Value>)
    ensures SourceListAudit(NoFindings, ss).problems == []
    ensures SourceListAudit(NoFindings, ss).warnings == Undated(ss)
    ensures |SourceListAudit(NoFindings, ss).warnings| == LackingCount(ss)
    ensures |SourceListAudit(NoFindings, ss).warnings| <= |ss|
    ensures forall w | w in SourceListAudit(NoFindings, ss).warnings ::
      exists i | 0 <= i < |ss| :: LacksDatabase(ss[i]) && w == SourceWithoutDatabase(Get(ss[i], Str("name")))
    ensures forall i | 0 <= i < |ss| && LacksDatabase(ss[i]) ::
      SourceWithoutDatabase(Get(ss[i], Str("name"))) in SourceListAudit(NoFindings, ss).warnings
  {
    if ss != [] {
      var init := ss[..|ss| - 1];
      SourceListWarnings(init);
      assert forall i | 0 <= i < |init| :: init[i] == ss[i];
      var last := ss[|ss| - 1];
      assert ss == init + [last];
      UndatedConcat(init, [last]);
      assert [last][1..] == [];
    } else {
      assert Undated(ss) == [];
    }
    UndatedLength(ss);
  }

  /** For a non-empty list of sources: no problem, and the warnings are the
      version warning (when the version is not 2) followed by those of the
      sources loop. */
  lemma SourceWarnings(ws: Workspace)
    requires Truthy(LoadDoc(ws.sources))
    requires Get(LoadDoc(ws.sources), Str("sources")).List?
    requires Get(LoadDoc(ws.sources), Str("sources")).items != []
    ensures var data := LoadDoc(ws.sources);
      SourcesReport(ws).warnings ==
        (if VersionTwo(Get(data, Str("version"))) then [] else [SourcesVersion]) +
        SourceListAudit(NoFindings, Get(data, Str("sources")).items).warnings
    ensures SourcesReport(ws).problems == []
  {
    var data := LoadDoc(ws.sources);
    var ss := Get(data, Str("sources")).items;
    var l := LoadAudit(NoFindings, SourcesYml, ws.sources);
    var r := if VersionTwo(Get(data, Str("version"))) then l else l.AddWarning(SourcesVersion);
    ThenNothing(r);
    SourceListAppends(r, NoFindings, ss);
    SourceListWarnings(ss);
  }

  /** Every source has a `database` key exactly when the sources loop warns
      about nothing. */
  lemma {:induction false} NoSourceWarningsIff(ss: seq<Value>)
    ensures SourceListAudit(NoFindings, ss).warnings == [] <==> forall i | 0 <= i < |ss| :: !LacksDatabase(ss[i])
  {
    if ss != [] {
      var init := ss[..|ss| - 1];
      NoSourceWarningsIff(init);
      assert forall i | 0 <= i < |init| :: init[i] == ss[i];
    }
  }

  /** A `sources` value that is not a list, or an empty list, is the one
      problem; no source is looked at. */
  lemma NoSourcesStops(ws: Workspace)
    requires Truthy(LoadDoc(ws.sources))
    requires var sources := Get(LoadDoc(ws.sources), Str("sources"));
      !sources.List? || sources.items == []
    ensures SourcesReport(ws).problems == [NoSources]
    ensures SourcesReport(ws).warnings ==
      if VersionTwo(Get(LoadDoc(ws.sources), Str("version"))) then [] else [SourcesVersion]
  {
  }

  /** The sources check records no problem exactly when sources.yml loads
      and, when it is non-empty, lists at least one source. */
  lemma SourcesPass(ws: Workspace)
    ensures SourcesReport(ws).problems == [] <==>
      ws.sources.Parsed? &&
      (Truthy(LoadDoc(ws.sources)) ==>
        Get(LoadDoc(ws.sources), Str("sources")).List? && Get(LoadDoc(ws.sources), Str("sources")).items != [])
  {
    var data := LoadDoc(ws.sources);
    var sources := Get(data, Str("sources"));
    if Truthy(data) && sources.List? && sources.items != [] {
      SourceWarnings(ws);
    }
  }
}
