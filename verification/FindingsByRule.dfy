/** What each rule reports, finding by finding, in the document's own terms. */
module FindingsByRule {
  import opened Wrappers
  import opened Sequences
  import opened Xml
  import opened PlanIr
  import opened PlanXmlToIr
  import opened RulesEngine
  import opened Showplan
  import opened PlanReading
  import opened Pipeline
  import Text

  predicate About(f: Finding, rule: string, severity: Severity, id: string) {
    f.ruleId == rule && f.severity == severity && f.operatorId == Some(id)
  }

  /** Estimate and rows are both known, and one is ten times the other or more. */
  predicate TenfoldOff(e: Element, source: PlanSource, parse: string -> Option<real>) {
    var estimate, rows := NumberAt(e, "EstimateRows", parse), RowsOf(e, source, parse);
    estimate.Some? && rows.Some?
    && ((estimate.value > 0.0 && (rows.value >= 10.0 * estimate.value || estimate.value >= 10.0 * rows.value))
        || (estimate.value < 0.0 && (rows.value <= 10.0 * estimate.value || estimate.value <= 10.0 * rows.value)))
  }

  /** A scan by name, not marked as a lookup, that read at least so many rows. */
  predicate ScansAtLeast(e: Element, rows: real, source: PlanSource, parse: string -> Option<real>) {
    Text.Contains(TextAt(e, "PhysicalOp"), "Scan")
    && !Text.Contains(TextAt(e, "PhysicalOp"), "Seek")
    && !MarkedLookup(e)
    && var read := if RowsOf(e, source, parse).Some? then RowsOf(e, source, parse)
                   else NumberAt(e, "EstimateRows", parse);
       read.Some? && read.value >= rows
  }

  /** A key or RID lookup: marked so on the detail element, and by one of three names. */
  predicate LooksUp(e: Element) {
    var op := TextAt(e, "PhysicalOp");
    MarkedLookup(e) && (op == "Clustered Index Seek" || op == "Index Seek" || op == "RID Lookup")
  }

  // ---------- Telling the rules apart ----------

  predicate Starts(f: Finding, c: char) {
    f.ruleId != "" && f.ruleId[0] == c
  }

  lemma WarningsStart(p: NumberedRelOp, f: Finding)
    ensures f in WarningsFound(p) ==> Starts(f, 'a')
  {
    hide WarningFound, Starts, FlatMap;
    if f in WarningsFound(p) {
      var k := Everywhere(WarningFound(p.1), WarningsOf(p.0), f);
      WarningStarts(p.1, WarningsOf(p.0)[k], f);
    }
  }

  lemma WarningStarts(id: string, w: Element, f: Finding)
    requires f in WarningFound(id)(w)
    ensures Starts(f, 'a')
  {
    hide WarningText, Starts;
    NamesStart(w.tag);
    assert f.ruleId == WarningNames(w.tag).0;
    SameStart(f, WarningNames(w.tag).0);
  }

  lemma NamesStart(tag: string)
    ensures WarningNames(tag).0 != "" && WarningNames(tag).0[0] == 'a'
  {
  }

  lemma SameStart(f: Finding, rule: string)
    requires f.ruleId == rule && rule != "" && rule[0] == 'a'
    ensures Starts(f, 'a')
  {
  }

  lemma RelOpRules(p: NumberedRelOp, source: PlanSource, parse: string -> Option<real>, fmt: Format, f: Finding)
    ensures f in ScansFound(source, parse, fmt)(p) ==> Starts(f, 'l') && f.ruleId == "large_table_scan"
    ensures f in SkewsFound(source, parse, fmt)(p) ==> Starts(f, 'c') && f.ruleId == "cardinality_skew"
    ensures f in LookupsFound(fmt)(p) ==> Starts(f, 'n') && f.ruleId == "non_covering_key_lookup"
  {
    hide TypeText, TableOf, ScanNames, SkewOf, PredicatesOf, RowsOf, MarkedLookup, RowsRead, TypeOf;
  }

  lemma IndexRules(g: Element, parse: string -> Option<real>, fmt: Format, f: Finding)
    ensures f in IndexesFound(parse, fmt)(g) ==> Starts(f, 'm') && f.ruleId == "missing_index_available"
  {
    hide IndexScript.ScriptText, IndexOf;
    FlatMapMembers(IndexFound(NumberAt(g, "Impact", parse), fmt), AllTagged("MissingIndex", g.children), f);
  }

  lemma {:induction false} Everywhere<T>(g: T -> seq<Finding>, xs: seq<T>, f: Finding) returns (k: nat)
    requires f in FlatMap(g, xs)
    ensures k < |xs| && f in g(xs[k])
  {
    FlatMapMembers(g, xs, f);
    k :| 0 <= k < |xs| && f in g(xs[k]);
  }

  lemma Somewhere<T>(g: T -> seq<Finding>, xs: seq<T>, k: nat, f: Finding)
    requires k < |xs| && f in g(xs[k])
    ensures f in FlatMap(g, xs)
  {
    FlatMapMembers(g, xs, f);
  }

  /** What the rules find in a document, rule by rule. */
  ghost predicate FoundBy(
    document: Element, parse: string -> Option<real>, source: PlanSource, fmt: Format, f: Finding, c: char)
    requires PartsOf(document).Some?
  {
    var (stmt, queryPlan, root) := PartsOf(document).value;
    var relOps := WithIds(RelOpsOf(root));
    (c == 'a' && f in FlatMap(WarningsFound, relOps))
    || (c == 'l' && f in FlatMap(ScansFound(source, parse, fmt), relOps))
    || (c == 'c' && f in FlatMap(SkewsFound(source, parse, fmt), relOps))
    || (c == 'n' && f in FlatMap(LookupsFound(fmt), relOps))
    || (c == 'm' && f in FlatMap(IndexesFound(parse, fmt), GroupsOf(queryPlan)))
    || (c == 'p' && f in ParallelFound((root, IdOf([root], 0))))
  }

  lemma FoundStarts(
    document: Element, parse: string -> Option<real>, source: PlanSource, fmt: Format, f: Finding, c: char)
    requires PartsOf(document).Some? && FoundBy(document, parse, source, fmt, f, c)
    ensures Starts(f, c)
  {
    hide FlatMap, WarningsFound, ScansFound, SkewsFound, LookupsFound, IndexesFound, PartsOf, RelOpsOf, GroupsOf;
    var (stmt, queryPlan, root) := PartsOf(document).value;
    var relOps := WithIds(RelOpsOf(root));
    if c == 'a' {
      var k := Everywhere(WarningsFound, relOps, f);
      WarningsStart(relOps[k], f);
    } else if c == 'l' {
      var k := Everywhere(ScansFound(source, parse, fmt), relOps, f);
      RelOpRules(relOps[k], source, parse, fmt, f);
    } else if c == 'c' {
      var k := Everywhere(SkewsFound(source, parse, fmt), relOps, f);
      RelOpRules(relOps[k], source, parse, fmt, f);
    } else if c == 'n' {
      var k := Everywhere(LookupsFound(fmt), relOps, f);
      RelOpRules(relOps[k], source, parse, fmt, f);
    } else if c == 'm' {
      var k := Everywhere(IndexesFound(parse, fmt), GroupsOf(queryPlan), f);
      IndexRules(GroupsOf(queryPlan)[k], parse, fmt, f);
    }
  }

  /** A finding is the pipeline's iff the rule its id begins like finds it. */
  lemma FoundByItsRule(
    document: Element, parse: string -> Option<real>, options: ParseOptions, fmt: Format, f: Finding, c: char)
    requires Parts(document).Some?
    requires Starts(f, c) && c in {'a', 'l', 'c', 'n', 'm', 'p'}
    ensures PartsOf(document) == Parts(document)
    ensures f in Findings(PlanOf(document, parse, options), fmt)
       <==> FoundBy(document, parse, options.source, fmt, f, c)
  {
    hide Findings, PlanOf, FlatMap, BySeverity, PartsOf, Parts, WarningsFound, RelOpsOf, GroupsOf, WithIds;
    PipelineExact(document, parse, options, fmt);
    var direct := DirectFindings(document, parse, options.source, fmt);
    BySeverityPermutes(direct);
    SameMembers(BySeverity(direct), direct, f);
    InSix(document, parse, options.source, fmt, f);
    if f in direct {
      var d :| d in {'a', 'l', 'c', 'n', 'm', 'p'} && FoundBy(document, parse, options.source, fmt, f, d);
      FoundStarts(document, parse, options.source, fmt, f, d);
    }
  }

  lemma InSix(document: Element, parse: string -> Option<real>, source: PlanSource, fmt: Format, f: Finding)
    requires PartsOf(document).Some?
    ensures f in DirectFindings(document, parse, source, fmt)
       <==> exists d :: d in {'a', 'l', 'c', 'n', 'm', 'p'} && FoundBy(document, parse, source, fmt, f, d)
  {
    hide FlatMap, WarningsFound, ScansFound, SkewsFound, LookupsFound, IndexesFound, ParallelFound, PartsOf, RelOpsOf,
      GroupsOf, WithIds;
    assert FoundBy(document, parse, source, fmt, f, 'a') ==> 'a' in {'a', 'l', 'c', 'n', 'm', 'p'};
    assert FoundBy(document, parse, source, fmt, f, 'l') ==> 'l' in {'a', 'l', 'c', 'n', 'm', 'p'};
    assert FoundBy(document, parse, source, fmt, f, 'c') ==> 'c' in {'a', 'l', 'c', 'n', 'm', 'p'};
    assert FoundBy(document, parse, source, fmt, f, 'n') ==> 'n' in {'a', 'l', 'c', 'n', 'm', 'p'};
    assert FoundBy(document, parse, source, fmt, f, 'm') ==> 'm' in {'a', 'l', 'c', 'n', 'm', 'p'};
    assert FoundBy(document, parse, source, fmt, f, 'p') ==> 'p' in {'a', 'l', 'c', 'n', 'm', 'p'};
  }

  // ---------- Rule by rule ----------

  function DocumentRelOps(document: Element): seq<Element>
    requires PartsOf(document).Some?
  {
    RelOpsOf(PartsOf(document).value.2)
  }

  /** The findings hold one by this rule, of this severity, about this operator. */
  ghost predicate Reports(fs: seq<Finding>, rule: string, severity: Severity, id: string) {
    exists f :: f in fs && About(f, rule, severity, id)
  }

  /** Some RelOp with this id meets the test. */
  ghost predicate SomeRelOp(es: seq<Element>, id: string, test: Element -> bool) {
    exists i :: 0 <= i < |es| && IdOf(es, i) == id && test(es[i])
  }

  lemma EntryAt(es: seq<Element>, i: nat)
    requires i < |es|
    ensures |WithIds(es)| == |es| && WithIds(es)[i] == (es[i], IdOf(es, i))
  {
  }

  /** If on each RelOp a rule reports what the test says, it does so on all. */
  lemma ReportsOnAll(
    found: NumberedRelOp -> seq<Finding>, es: seq<Element>, rule: string, severity: Severity, id: string,
    test: Element -> bool)
    requires forall e, own :: Reports(found((e, own)), rule, severity, id) <==> own == id && test(e)
    ensures Reports(FlatMap(found, WithIds(es)), rule, severity, id) <==> SomeRelOp(es, id, test)
  {
    hide FlatMap, IdOf, WithIds;
    if f :| f in FlatMap(found, WithIds(es)) && About(f, rule, severity, id) {
      var k := Everywhere(found, WithIds(es), f);
      EntryAtCount(es);
      EntryAt(es, k);
      assert Reports(found((es[k], IdOf(es, k))), rule, severity, id);
    }
    if i :| 0 <= i < |es| && IdOf(es, i) == id && test(es[i]) {
      assert Reports(found((es[i], IdOf(es, i))), rule, severity, id);
      var f :| f in found((es[i], IdOf(es, i))) && About(f, rule, severity, id);
      EntryAt(es, i);
      Somewhere(found, WithIds(es), i, f);
    }
  }

  lemma EntryAtCount(es: seq<Element>)
    ensures |WithIds(es)| == |es|
  {
  }

  /** The pipeline's findings of one RelOp rule are those of that rule over the document. */
  lemma RuleOverDocument(
    document: Element, parse: string -> Option<real>, options: ParseOptions, fmt: Format, f: Finding)
    requires Parts(document).Some?
    ensures PartsOf(document).Some?
    ensures var fs, relOps := Findings(PlanOf(document, parse, options), fmt), WithIds(DocumentRelOps(document));
      (f.ruleId == "large_table_scan" ==>
         (f in fs <==> f in FlatMap(ScansFound(options.source, parse, fmt), relOps)))
      && (f.ruleId == "cardinality_skew" ==>
            (f in fs <==> f in FlatMap(SkewsFound(options.source, parse, fmt), relOps)))
      && (f.ruleId == "non_covering_key_lookup" ==> (f in fs <==> f in FlatMap(LookupsFound(fmt), relOps)))
  {
    hide Findings, PlanOf, FlatMap, PartsOf, Parts, RelOpsOf, Starts, WithIds;
    PartsAgree(document);
    RuleStarts(f);
    if Starts(f, 'l') { FoundByItsRule(document, parse, options, fmt, f, 'l'); }
    if Starts(f, 'c') { FoundByItsRule(document, parse, options, fmt, f, 'c'); }
    if Starts(f, 'n') { FoundByItsRule(document, parse, options, fmt, f, 'n'); }
  }

  lemma RuleStarts(f: Finding)
    ensures f.ruleId == "large_table_scan" ==> Starts(f, 'l')
    ensures f.ruleId == "cardinality_skew" ==> Starts(f, 'c')
    ensures f.ruleId == "non_covering_key_lookup" ==> Starts(f, 'n')
    ensures f.ruleId == "parallelism_used" ==> Starts(f, 'p')
  {
  }

  lemma SameReports(fs: seq<Finding>, gs: seq<Finding>, rule: string, severity: Severity, id: string)
    requires forall f: Finding :: f.ruleId == rule ==> (f in fs <==> f in gs)
    ensures Reports(fs, rule, severity, id) <==> Reports(gs, rule, severity, id)
  {
  }

  lemma OneFinding(found: seq<Finding>, rule: string, severity: Severity, id: string)
    requires |found| == 1
    ensures Reports(found, rule, severity, id) <==> About(found[0], rule, severity, id)
  {
    assert found[0] in found;
  }

  lemma SkewOnRelOp(
    e: Element, own: string, source: PlanSource, parse: string -> Option<real>, fmt: Format, severity: Severity,
    id: string)
    ensures Reports(SkewsFound(source, parse, fmt)((e, own)), "cardinality_skew", severity, id)
       <==> own == id && severity == Warning && TenfoldOff(e, source, parse)
  {
    hide NumberAt, RowsOf, TypeText, TypeOf;
    var found := SkewsFound(source, parse, fmt)((e, own));
    if found != [] {
      OneFinding(found, "cardinality_skew", severity, id);
    }
  }

  /**
   * A skew finding about an operator id is there exactly when a RelOp with
   * that id read tenfold more or fewer rows than estimated, and is a warning.
   */
  lemma SkewsReported(
    document: Element, parse: string -> Option<real>, options: ParseOptions, fmt: Format, severity: Severity,
    id: string)
    requires Parts(document).Some?
    ensures PartsOf(document).Some?
    ensures Reports(Findings(PlanOf(document, parse, options), fmt), "cardinality_skew", severity, id)
       <==> severity == Warning
            && SomeRelOp(DocumentRelOps(document), id, (e: Element) => TenfoldOff(e, options.source, parse))
  {
    hide Findings, PlanOf, FlatMap, PartsOf, Parts, SkewsFound, TenfoldOff, RelOpsOf, WithIds, IdOf;
    PartsAgree(document);
    var es, found := DocumentRelOps(document), SkewsFound(options.source, parse, fmt);
    var test := (e: Element) => severity == Warning && TenfoldOff(e, options.source, parse);
    forall f: Finding | f.ruleId == "cardinality_skew"
      ensures f in Findings(PlanOf(document, parse, options), fmt) <==> f in FlatMap(found, WithIds(es))
    {
      RuleOverDocument(document, parse, options, fmt, f);
    }
    SameReports(
      Findings(PlanOf(document, parse, options), fmt), FlatMap(found, WithIds(es)), "cardinality_skew", severity, id);
    forall e, own ensures Reports(found((e, own)), "cardinality_skew", severity, id) <==> own == id && test(e) {
      SkewOnRelOp(e, own, options.source, parse, fmt, severity, id);
    }
    ReportsOnAll(found, es, "cardinality_skew", severity, id, test);
  }

  lemma ScanOnRelOp(
    e: Element, own: string, source: PlanSource, parse: string -> Option<real>, fmt: Format, severity: Severity,
    id: string)
    ensures Reports(ScansFound(source, parse, fmt)((e, own)), "large_table_scan", severity, id)
       <==> own == id && ScanOf(e, severity, source, parse)
  {
    var found := ScansFound(source, parse, fmt)((e, own));
    ScanMeaning(e, 10000.0, source, parse);
    ScanMeaning(e, 100000.0, source, parse);
    hide RowsRead, ScansInXml, ScansAtLeast, TableOf, ScanNames, TextAt;
    var rows := RowsRead(e, source, parse);
    if ScansInXml(e) && rows.Some? && rows.value >= 10000.0 {
      assert found[0].ruleId == "large_table_scan" && found[0].operatorId == Some(own);
      assert found[0].severity == if rows.value < 100000.0 then Warning else Critical;
      OneFinding(found, "large_table_scan", severity, id);
    } else {
      assert found == [];
    }
  }

  lemma ScanMeaning(e: Element, rows: real, source: PlanSource, parse: string -> Option<real>)
    ensures ScansAtLeast(e, rows, source, parse)
       <==> ScansInXml(e) && RowsRead(e, source, parse).Some? && RowsRead(e, source, parse).value >= rows
  {
    hide Text.Contains, RowsOf, NumberAt, MarkedLookup;
  }

  /** Critical from 100000 rows, a warning from 10000. */
  predicate ScanOf(e: Element, severity: Severity, source: PlanSource, parse: string -> Option<real>) {
    match severity
    case Critical => ScansAtLeast(e, 100000.0, source, parse)
    case Warning => ScansAtLeast(e, 10000.0, source, parse) && !ScansAtLeast(e, 100000.0, source, parse)
    case Info => false
  }

  /**
   * A large-scan finding about an operator id is there exactly when a RelOp
   * with that id is a scan of 10000 rows or more, and is critical from 100000.
   */
  lemma ScansReported(
    document: Element, parse: string -> Option<real>, options: ParseOptions, fmt: Format, severity: Severity,
    id: string)
    requires Parts(document).Some?
    ensures PartsOf(document).Some?
    ensures Reports(Findings(PlanOf(document, parse, options), fmt), "large_table_scan", severity, id)
       <==> SomeRelOp(DocumentRelOps(document), id, (e: Element) => ScanOf(e, severity, options.source, parse))
  {
    hide Findings, PlanOf, FlatMap, PartsOf, Parts, ScansFound, ScanOf, RelOpsOf, WithIds, IdOf;
    PartsAgree(document);
    var es, found := DocumentRelOps(document), ScansFound(options.source, parse, fmt);
    var test := (e: Element) => ScanOf(e, severity, options.source, parse);
    forall f: Finding | f.ruleId == "large_table_scan"
      ensures f in Findings(PlanOf(document, parse, options), fmt) <==> f in FlatMap(found, WithIds(es))
    {
      RuleOverDocument(document, parse, options, fmt, f);
    }
    SameReports(
      Findings(PlanOf(document, parse, options), fmt), FlatMap(found, WithIds(es)), "large_table_scan", severity, id);
    forall e, own ensures Reports(found((e, own)), "large_table_scan", severity, id) <==> own == id && test(e) {
      ScanOnRelOp(e, own, options.source, parse, fmt, severity, id);
    }
    ReportsOnAll(found, es, "large_table_scan", severity, id, test);
  }

  lemma LookupOnRelOp(e: Element, own: string, fmt: Format, severity: Severity, id: string)
    ensures Reports(LookupsFound(fmt)((e, own)), "non_covering_key_lookup", severity, id)
       <==> own == id && severity == Warning && LooksUp(e)
  {
    hide TableOf, PredicatesOf, Detail;
    var found := LookupsFound(fmt)((e, own));
    if KeyLookupInXml(e) {
      assert found[0].ruleId == "non_covering_key_lookup" && found[0].severity == Warning;
      assert found[0].operatorId == Some(own);
      OneFinding(found, "non_covering_key_lookup", severity, id);
    } else {
      assert found == [];
    }
  }

  /** A key-lookup finding about an id is there exactly when a RelOp with that id is one, and is a warning. */
  lemma LookupsReported(
    document: Element, parse: string -> Option<real>, options: ParseOptions, fmt: Format, severity: Severity,
    id: string)
    requires Parts(document).Some?
    ensures PartsOf(document).Some?
    ensures Reports(Findings(PlanOf(document, parse, options), fmt), "non_covering_key_lookup", severity, id)
       <==> severity == Warning && SomeRelOp(DocumentRelOps(document), id, LooksUp)
  {
    hide Findings, PlanOf, FlatMap, PartsOf, Parts, LookupsFound, LooksUp, RelOpsOf, WithIds, IdOf;
    PartsAgree(document);
    var es, found := DocumentRelOps(document), LookupsFound(fmt);
    var test := (e: Element) => severity == Warning && LooksUp(e);
    var rule := "non_covering_key_lookup";
    forall f: Finding | f.ruleId == rule
      ensures f in Findings(PlanOf(document, parse, options), fmt) <==> f in FlatMap(found, WithIds(es))
    {
      RuleOverDocument(document, parse, options, fmt, f);
    }
    SameReports(Findings(PlanOf(document, parse, options), fmt), FlatMap(found, WithIds(es)), rule, severity, id);
    forall e, own ensures Reports(found((e, own)), rule, severity, id) <==> own == id && test(e) {
      LookupOnRelOp(e, own, fmt, severity, id);
    }
    ReportsOnAll(found, es, rule, severity, id, test);
  }

  /** Parallelism is reported exactly when the root RelOp says so, about the root and for information. */
  lemma ParallelismReported(
    document: Element, parse: string -> Option<real>, options: ParseOptions, fmt: Format, severity: Severity,
    id: string)
    requires Parts(document).Some?
    ensures PartsOf(document).Some?
    ensures var root := PartsOf(document).value.2;
      Reports(Findings(PlanOf(document, parse, options), fmt), "parallelism_used", severity, id)
      <==> severity == Info && Get(root, "Parallel") == Some("1") && id == IdOf([root], 0)
  {
    hide Findings, PlanOf, FlatMap, PartsOf, Parts, IdOf, Starts;
    PartsAgree(document);
    hide ParallelFound;
    var root := PartsOf(document).value.2;
    var found := ParallelFound((root, IdOf([root], 0)));
    forall f: Finding | f.ruleId == "parallelism_used"
      ensures f in Findings(PlanOf(document, parse, options), fmt) <==> f in found
    {
      RuleStarts(f);
      FoundByItsRule(document, parse, options, fmt, f, 'p');
    }
    SameReports(Findings(PlanOf(document, parse, options), fmt), found, "parallelism_used", severity, id);
    ParallelOnRelOp(root, IdOf([root], 0), severity, id);
  }

  lemma ParallelOnRelOp(e: Element, own: string, severity: Severity, id: string)
    ensures Reports(ParallelFound((e, own)), "parallelism_used", severity, id)
       <==> severity == Info && Get(e, "Parallel") == Some("1") && id == own
  {
    var found := ParallelFound((e, own));
    if found != [] {
      OneFinding(found, "parallelism_used", severity, id);
    }
  }

  // ---------- The order ----------

  /** No finding comes after a less severe one. */
  lemma MostSevereFirst(plan: Plan, fmt: Format)
    ensures var fs := Findings(plan, fmt);
      forall i, j :: 0 <= i < j < |fs| ==>
        (fs[j].severity == Critical ==> fs[i].severity == Critical)
        && (fs[i].severity == Info ==> fs[j].severity == Info)
  {
    hide RuleOutputs, Filter;
    var fs := RuleOutputs(plan, fmt);
    AllOfSeverity(Critical, fs);
    AllOfSeverity(Warning, fs);
    AllOfSeverity(Info, fs);
    ThreeRuns(Filter(HasSeverity(Critical), fs), Filter(HasSeverity(Warning), fs), Filter(HasSeverity(Info), fs));
  }

  lemma ThreeRuns(c: seq<Finding>, w: seq<Finding>, n: seq<Finding>)
    requires forall f :: f in c ==> f.severity == Critical
    requires forall f :: f in w ==> f.severity == Warning
    requires forall f :: f in n ==> f.severity == Info
    ensures var fs := c + (w + n);
      forall i, j :: 0 <= i < j < |fs| ==>
        (fs[j].severity == Critical ==> fs[i].severity == Critical)
        && (fs[i].severity == Info ==> fs[j].severity == Info)
  {
    var fs := c + (w + n);
    assert forall k :: 0 <= k < |c| ==> fs[k] in c;
    assert forall k :: |c| <= k < |c| + |w| ==> fs[k] == w[k - |c|] && fs[k] in w;
    assert forall k :: |c| + |w| <= k < |fs| ==> fs[k] == n[k - |c| - |w|] && fs[k] in n;
  }
}
