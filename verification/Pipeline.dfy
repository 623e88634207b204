/** Adapter and rules together, against a direct reading of the plan document. */
module Pipeline {
  import opened Wrappers
  import opened Sequences
  import opened Xml
  import opened PlanIr
  import opened OperatorMap
  import opened PlanXmlToIr
  import opened PlanTree
  import opened RulesEngine
  import opened Showplan
  import opened PlanReading
  import IndexScript
  import Text

  // ---------- Findings read straight off the document ----------

  /** Rows a RelOp read: its threads' rows summed if there are any, else its estimate. */
  function RowsRead(e: Element, source: PlanSource, parse: string -> Option<real>): Option<real> {
    if RowsOf(e, source, parse).Some? then RowsOf(e, source, parse) else NumberAt(e, "EstimateRows", parse)
  }

  predicate ScansInXml(e: Element) {
    var op := TextAt(e, "PhysicalOp");
    !MarkedLookup(e) && Text.Contains(op, "Scan") && !Text.Contains(op, "Seek")
  }

  /** The type and the access path of a scan, by its name. */
  function ScanNames(op: string): (string, string) {
    if op == "Table Scan" then ("table_scan", "full_scan")
    else if op == "Index Scan" || op == "Clustered Index Scan" then ("index_scan", "scan")
    else ("other", "scan")
  }

  function ScansFound(source: PlanSource, parse: string -> Option<real>, fmt: Format): NumberedRelOp -> seq<Finding> {
    (p: NumberedRelOp) =>
      var op, rows := TextAt(p.0, "PhysicalOp"), RowsRead(p.0, source, parse);
      if !ScansInXml(p.0) || rows.None? || rows.value < 10000.0 then []
      else
        [Finding(
           "large_table_scan",
           if rows.value < 100000.0 then Warning else Critical,
           Some(p.1),
           ScanNames(op).0 + " reads ~" + fmt.grouped(Truncate(rows.value)) + " rows from " + TableOf(p.0),
           "physical_op=" + op + ", access_type=" + ScanNames(op).1 + ", rows=" + fmt.number(rows.value),
           None)]
  }

  /** Rows differ from the estimate tenfold or more, one way or the other. */
  function SkewIn(estimated: real, actual: real): Option<string> {
    if estimated > 0.0 then
      if actual >= 10.0 * estimated then Some("under-estimated")
      else if 10.0 * actual <= estimated then Some("over-estimated")
      else None
    else if estimated < 0.0 then
      if actual <= 10.0 * estimated then Some("under-estimated")
      else if 10.0 * actual >= estimated then Some("over-estimated")
      else None
    else None
  }

  function SkewOf(e: Element, source: PlanSource, parse: string -> Option<real>): Option<string> {
    var estimated, actual := NumberAt(e, "EstimateRows", parse), RowsOf(e, source, parse);
    if estimated.None? || actual.None? then None else SkewIn(estimated.value, actual.value)
  }

  function SkewsFound(source: PlanSource, parse: string -> Option<real>, fmt: Format): NumberedRelOp -> seq<Finding> {
    (p: NumberedRelOp) =>
      var estimated, actual := NumberAt(p.0, "EstimateRows", parse), RowsOf(p.0, source, parse);
      if estimated.None? || actual.None? || estimated.value == 0.0 || SkewOf(p.0, source, parse).None? then []
      else
        [Finding(
           "cardinality_skew",
           Warning,
           Some(p.1),
           "Optimizer " + SkewOf(p.0, source, parse).value + " row count at " + TypeText(TypeOf(p.0))
           + " (ratio " + fmt.twoDigits(actual.value / estimated.value) + ")",
           "estimated_rows=" + fmt.number(estimated.value) + ", actual_rows=" + fmt.number(actual.value),
           None)]
  }

  predicate KeyLookupInXml(e: Element) {
    var op := TextAt(e, "PhysicalOp");
    MarkedLookup(e) && (op == "Clustered Index Seek" || op == "Index Seek" || op == "RID Lookup")
  }

  function LookupsFound(fmt: Format): NumberedRelOp -> seq<Finding> {
    (p: NumberedRelOp) =>
      if !KeyLookupInXml(p.0) then []
      else
        [Finding(
           "non_covering_key_lookup",
           Warning,
           Some(p.1),
           "Key lookup against " + TableOf(p.0) + " -- consider a covering index",
           "physical_op=" + TextAt(p.0, "PhysicalOp") + ", predicates=" + fmt.list(PredicatesOf(p.0)),
           None)]
  }

  /** Rule, severity and summary of a warning element. */
  function WarningNames(tag: string): (string, Severity, string) {
    if tag == "SpillToTempDb" then ("adapter_warning.tempdb_spill", Critical, "Operator spilled to tempdb")
    else if tag == "NoJoinPredicate" then
      ("adapter_warning.no_join_predicate", Critical, "Join has no predicate (possible cartesian product)")
    else if tag == "ColumnsWithNoStatistics" then
      ("adapter_warning.column_with_no_stats", Warning, "Column has no statistics")
    else if tag == "PlanAffectingConvert" then
      ("adapter_warning.implicit_conversion", Warning, "Implicit type conversion may block index usage")
    else if tag == "MemoryGrantWarning" then
      ("adapter_warning.memory_grant_excessive", Warning, "Memory grant may be excessive")
    else ("adapter_warning.other", Info, "Engine-reported plan warning")
  }

  function WarningFound(id: string): Element -> seq<Finding> {
    (w: Element) =>
      var (rule, severity, summary) := WarningNames(w.tag);
      [Finding(rule, severity, Some(id), summary, WarningText(w), None)]
  }

  function WarningsFound(p: NumberedRelOp): seq<Finding> {
    FlatMap(WarningFound(p.1), WarningsOf(p.0))
  }

  function IndexFound(impact: Option<real>, fmt: Format): Element -> seq<Finding> {
    (e: Element) =>
      var mi := IndexOf(e, impact);
      [Finding(
         "missing_index_available",
         if impact.None? || impact.value < 50.0 then Info else if impact.value < 80.0 then Warning else Critical,
         None,
         "Engine suggests an index on " + mi.table + " (impact "
         + (if impact.None? then "unknown" else fmt.number(impact.value)) + ")",
         "equality=" + fmt.list(mi.equality) + ", inequality=" + fmt.list(mi.inequality) + ", include="
         + fmt.list(mi.included),
         Some(IndexScript.ScriptText(mi.table, mi.equality + mi.inequality, mi.included)))]
  }

  function IndexesFound(parse: string -> Option<real>, fmt: Format): Element -> seq<Finding> {
    (g: Element) => FlatMap(IndexFound(NumberAt(g, "Impact", parse), fmt), AllTagged("MissingIndex", g.children))
  }

  function ParallelFound(root: NumberedRelOp): seq<Finding> {
    if Get(root.0, "Parallel") != Some("1") then []
    else
      [Finding(
         "parallelism_used",
         Info,
         Some(root.1),
         "Plan executed with parallelism",
         "Root operator ran in parallel; not inherently bad, but worth noting for small/OLTP workloads.",
         None)]
  }

  /** Rule by rule over the RelOps of the document in document order. */
  function DirectFindings(document: Element, parse: string -> Option<real>, source: PlanSource, fmt: Format)
    : seq<Finding>
    requires PartsOf(document).Some?
  {
    var (stmt, queryPlan, root) := PartsOf(document).value;
    var relOps := WithIds(RelOpsOf(root));
    FlatMap(WarningsFound, relOps)
    + FlatMap(ScansFound(source, parse, fmt), relOps)
    + FlatMap(SkewsFound(source, parse, fmt), relOps)
    + FlatMap(LookupsFound(fmt), relOps)
    + FlatMap(IndexesFound(parse, fmt), GroupsOf(queryPlan))
    + ParallelFound((root, IdOf([root], 0)))
  }

  // ---------- Rules over lists ----------

  /** A rule over flattened items finds what g does, if it does on each group of items. */
  lemma {:induction false} OverGroups<T(!new), U>(
    rule: U -> seq<Finding>, group: T -> seq<U>, g: T -> seq<Finding>, xs: seq<T>)
    requires forall x :: FlatMap(rule, group(x)) == g(x)
    ensures FlatMap(rule, FlatMap(group, xs)) == FlatMap(g, xs)
  {
    if xs != [] {
      OverGroups(rule, group, g, xs[1..]);
      FlatMapAppend(rule, group(xs[0]), FlatMap(group, xs[1..]));
    }
  }

  /** A rule over built nodes finds what g does over RelOps, if it does on each single one. */
  lemma {:induction false} OverNodes(
    rule: OperatorNode -> seq<Finding>, g: NumberedRelOp -> seq<Finding>, make: NodeMaker,
    relOps: seq<NumberedRelOp>)
    requires forall e, id :: rule(make(e, id)) == g((e, id))
    ensures FlatMap(rule, Nodes(relOps, make)) == FlatMap(g, relOps)
  {
    if relOps != [] {
      var nodes := Nodes(relOps, make);
      OverNodes(rule, g, make, relOps[1..]);
      assert nodes[1..] == Nodes(relOps[1..], make);
      assert relOps[0] == (relOps[0].0, relOps[0].1);
    }
  }

  /** The plan-wide memory grant, put on the root afterwards, changes nothing for a rule that does not read it. */
  lemma GrantIgnored(
    rule: OperatorNode -> seq<Finding>, root: Operator, queryPlan: Element, parse: string -> Option<real>)
    requires forall node: OperatorNode, kb :: rule(node.(memoryGrantKb := kb)) == rule(node)
    ensures FlatMap(rule, Walk(WithGrant(root, queryPlan, parse))) == FlatMap(rule, Walk(root))
  {
    var granted := WithGrant(root, queryPlan, parse);
    assert granted.children == root.children;
    assert Walk(granted)[1..] == WalkAll(root.children) == Walk(root)[1..];
    assert rule(granted.node) == rule(root.node);
  }

  // ---------- Each rule on one RelOp ----------

  lemma ScanFoundIs(e: Element, id: string, source: PlanSource, parse: string -> Option<real>, fmt: Format)
    ensures var op, rows := TextAt(e, "PhysicalOp"), RowsRead(e, source, parse);
      ScansFound(source, parse, fmt)((e, id))
      == if !ScansInXml(e) || rows.None? || rows.value < 10000.0 then []
         else
           [ScanReport(
              fmt, if rows.value < 100000.0 then Warning else Critical, id, ScanNames(op).0, ScanNames(op).1, op,
              TableOf(e), rows.value)]
  {
    hide ScanNames, ScansInXml, RowsRead, TableOf, TextAt, Truncate;
  }

  lemma ScanOnOne(e: Element, ctx: Context, id: string, fmt: Format)
    ensures LargeScan(fmt)(NodeOf(e, ctx, id)) == ScansFound(ctx.source, ctx.parse, fmt)((e, id))
  {
    hide NodeOf, MapOperatorType, MapAccessType, IsLookup, MarkedLookup, Text.Contains, Number, NumberAt, TotalRows,
      RuntimeInfo, RowsOf, ObjectRefIn, ObjectOf, DetailWrapper, GetOrEmpty, TextAt, ScanReport, ScansFound;
    ScanFoundIs(e, id, ctx.source, ctx.parse, fmt);
    var node, op := NodeOf(e, ctx, id), TextAt(e, "PhysicalOp");
    assert node.id == id && node.physicalOp == op && node.objectRef == ObjectOf(e)
      && node.operatorType == MapOperatorType(op, GetOrEmpty(e, "LogicalOp"), IsLookup(e))
      && node.accessType == MapAccessType(op, IsLookup(e)) by {
      NodeFields(e, ctx, id);
      AttributesAgree(e, "PhysicalOp", ctx.parse);
      ObjectAgrees(e);
    }
    assert ScanRows(node) == RowsRead(e, ctx.source, ctx.parse) by {
      NodeFields(e, ctx, id);
      AttributesAgree(e, "EstimateRows", ctx.parse);
      RunAgrees(e, ctx.source, ctx.parse);
    }
    LookupAgrees(e);
    ScanAccessMeaning(op, IsLookup(e));
    hide ScanRows, RowsRead;
    if ScansInXml(e) {
      ScanNamesAgree(op, GetOrEmpty(e, "LogicalOp"));
    }
  }

  lemma ScanNamesAgree(op: string, logical: string)
    requires Text.Contains(op, "Scan") && !Text.Contains(op, "Seek")
    ensures OperatorTypeValue(MapOperatorType(op, logical, false)) == ScanNames(op).0
    ensures MapAccessType(op, false).Some? && AccessTypeValue(MapAccessType(op, false).value) == ScanNames(op).1
  {
    hide MapOperatorType, Text.Contains;
    ScanTypeMeaning(op, logical);
  }

  lemma RatioMeaning(actual: real, estimated: real)
    requires estimated != 0.0
    ensures actual / estimated >= 10.0 <==>
              if estimated > 0.0 then actual >= 10.0 * estimated else actual <= 10.0 * estimated
    ensures actual / estimated <= 0.1 <==>
              if estimated > 0.0 then 10.0 * actual <= estimated else 10.0 * actual >= estimated
  {
    var ratio := actual / estimated;
    assert ratio * estimated == actual;
    if estimated > 0.0 {
      if ratio >= 10.0 { assert (ratio - 10.0) * estimated >= 0.0; }
      if ratio < 10.0 { assert (10.0 - ratio) * estimated > 0.0; }
      if ratio <= 0.1 { assert (0.1 - ratio) * estimated >= 0.0; }
      if ratio > 0.1 { assert (ratio - 0.1) * estimated > 0.0; }
    } else {
      if ratio >= 10.0 { assert (ratio - 10.0) * estimated <= 0.0; }
      if ratio < 10.0 { assert (10.0 - ratio) * estimated < 0.0; }
      if ratio <= 0.1 { assert (0.1 - ratio) * estimated <= 0.0; }
      if ratio > 0.1 { assert (ratio - 0.1) * estimated < 0.0; }
    }
  }

  lemma SkewDirectionMeaning(estimated: real, actual: real)
    requires estimated != 0.0
    ensures SkewIn(estimated, actual) == DirectionOf(actual / estimated)
  {
    RatioMeaning(actual, estimated);
  }

  lemma TypeTextAgrees(t: OperatorType)
    ensures OperatorTypeValue(t) == TypeText(t)
  {
  }

  lemma SkewOnOne(e: Element, ctx: Context, id: string, fmt: Format)
    ensures Skew(fmt)(NodeOf(e, ctx, id)) == SkewsFound(ctx.source, ctx.parse, fmt)((e, id))
  {
    hide NodeOf, Number, NumberAt, TotalRows, RuntimeInfo, RowsOf, OperatorTypeValue, TypeText, MapOperatorType,
      TypeFor, GetOrEmpty, TextAt, IsLookup, MarkedLookup, SkewIn, DirectionOf;
    NodeFields(e, ctx, id);
    AttributesAgree(e, "PhysicalOp", ctx.parse);
    AttributesAgree(e, "LogicalOp", ctx.parse);
    AttributesAgree(e, "EstimateRows", ctx.parse);
    RunAgrees(e, ctx.source, ctx.parse);
    LookupAgrees(e);
    TypeAgrees(TextAt(e, "PhysicalOp"), TextAt(e, "LogicalOp"), MarkedLookup(e));
    TypeTextAgrees(TypeOf(e));
    var node := NodeOf(e, ctx, id);
    if node.rowEstimateRatio.Some? {
      SkewDirectionMeaning(node.estimatedRows.value, node.actualRows.value);
    }
  }

  lemma LookupOnOne(e: Element, ctx: Context, id: string, fmt: Format)
    ensures KeyLookup(fmt)(NodeOf(e, ctx, id)) == LookupsFound(fmt)((e, id))
  {
    hide NodeOf, MapOperatorType, IsLookup, MarkedLookup, GetOrEmpty, TextAt, ObjectRefIn, ObjectOf, DetailWrapper,
      ScalarTexts, ScalarOperators, PredicatesOf;
    NodeFields(e, ctx, id);
    AttributesAgree(e, "PhysicalOp", ctx.parse);
    LookupAgrees(e);
    ObjectAgrees(e);
    PredicatesAgree(e);
    LookupTypeMeaning(TextAt(e, "PhysicalOp"), GetOrEmpty(e, "LogicalOp"), IsLookup(e));
  }

  lemma WarningNamesMeaning(tag: string)
    ensures var kind := WarningOf(tag);
      WarningNames(tag) == (WarningRule(kind), PromotedSeverity(kind), PromotedSummary(kind))
  {
    hide WarningOf;
    WarningTagMeaning(tag);
  }

  lemma WarningOnOne(id: string, w: Element)
    ensures FlatMap(Promoted, WarningFrom(id)(w)) == WarningFound(id)(w)
  {
    hide WarningOf, WarningRule, PromotedSeverity, PromotedSummary, WarningNames, WarningDetail, WarningText;
    WarningNamesMeaning(w.tag);
    WarningTextAgrees(w);
    FlatMapOne(Promoted, PlanWarning(WarningOf(w.tag), WarningDetail(w), id));
  }

  lemma IndexOnOne(impact: Option<real>, e: Element, fmt: Format)
    ensures FlatMap(IndexSuggestion(fmt), IndexFrom(impact)(e)) == IndexFound(impact, fmt)(e)
  {
    hide IndexScript.ScriptOf, IndexScript.ScriptText, IndexIn, FlatMap, ColumnsUsed, NameAt;
    IndexAgrees(e, impact);
    IndexScript.ScriptTextExactly(IndexOf(e, impact));
    FlatMapOne(IndexSuggestion(fmt), IndexIn(e, impact));
    assert IndexOf(e, impact).impact == impact;
  }

  // ---------- Each rule on the whole plan ----------

  lemma WarningsOnAll(relOps: seq<NumberedRelOp>)
    ensures FlatMap(Promoted, Warnings(relOps)) == FlatMap(WarningsFound, relOps)
  {
    hide FlatMap, Promoted;
    forall p: NumberedRelOp ensures FlatMap(Promoted, WarningsFrom(p)) == WarningsFound(p) {
      forall e ensures FlatMap(Promoted, WarningFrom(p.1)(e)) == WarningFound(p.1)(e) {
        WarningOnOne(p.1, e);
      }
      WarningElementsAgree(p.0);
      OverGroups(Promoted, WarningFrom(p.1), WarningFound(p.1), WarningElements(p.0));
    }
    OverGroups(Promoted, WarningsFrom, WarningsFound, relOps);
  }

  lemma IndexesOnAll(queryPlan: Element, parse: string -> Option<real>, fmt: Format)
    ensures FlatMap(IndexSuggestion(fmt), MissingIndexesOf(queryPlan, parse))
         == FlatMap(IndexesFound(parse, fmt), GroupsOf(queryPlan))
  {
    hide FlatMap, IndexGroups, GroupsOf, Number, NumberAt, FindAll, AllTagged;
    GroupsAgree(queryPlan);
    forall g ensures FlatMap(IndexSuggestion(fmt), IndexesIn(parse)(g)) == IndexesFound(parse, fmt)(g) {
      var impact := Number(g, "Impact", parse);
      AttributesAgree(g, "Impact", parse);
      MissingIndexElements(g);
      forall e ensures FlatMap(IndexSuggestion(fmt), IndexFrom(impact)(e)) == IndexFound(impact, fmt)(e) {
        IndexOnOne(impact, e, fmt);
      }
      OverGroups(IndexSuggestion(fmt), IndexFrom(impact), IndexFound(impact, fmt), FindAll(g, "MissingIndex"));
    }
    OverGroups(IndexSuggestion(fmt), IndexesIn(parse), IndexesFound(parse, fmt), IndexGroups(queryPlan));
  }

  lemma MissingIndexElements(g: Element)
    ensures FindAll(g, "MissingIndex") == AllTagged("MissingIndex", g.children)
  {
    TagsAgree("MissingIndex", g.children);
  }

  /** A node rule over the finished tree, read off the RelOps in document order. */
  lemma NodeRuleOnAll(
    rule: OperatorNode -> seq<Finding>, g: NumberedRelOp -> seq<Finding>,
    relOp: Element, queryPlan: Element, ctx: Context)
    requires IsRelOp(relOp)
    requires forall node: OperatorNode, kb :: rule(node.(memoryGrantKb := kb)) == rule(node)
    requires forall e, id :: rule(NodeFrom(ctx)(e, id)) == g((e, id))
    ensures FlatMap(rule, Walk(WithGrant(Tree(relOp, NodeFrom(ctx), 1), queryPlan, ctx.parse)))
         == FlatMap(g, Numbered(RelOpsIn([relOp]), 1))
  {
    hide NodeFrom, RelOpsIn, Numbered, Nodes, Tree, WithGrant;
    GrantIgnored(rule, Tree(relOp, NodeFrom(ctx), 1), queryPlan, ctx.parse);
    WalkIsDocumentOrder(relOp, NodeFrom(ctx), 1);
    OverNodes(rule, g, NodeFrom(ctx), Numbered(RelOpsIn([relOp]), 1));
  }

  lemma ScansOnAll(relOp: Element, queryPlan: Element, ctx: Context, fmt: Format)
    requires IsRelOp(relOp)
    ensures FlatMap(LargeScan(fmt), Walk(WithGrant(Tree(relOp, NodeFrom(ctx), 1), queryPlan, ctx.parse)))
         == FlatMap(ScansFound(ctx.source, ctx.parse, fmt), Numbered(RelOpsIn([relOp]), 1))
  {
    hide NodeOf, RelOpsIn, Numbered, Tree, WithGrant, ScansFound, Walk;
    forall e, id ensures LargeScan(fmt)(NodeFrom(ctx)(e, id)) == ScansFound(ctx.source, ctx.parse, fmt)((e, id)) {
      ScanOnOne(e, ctx, id, fmt);
    }
    NodeRuleOnAll(LargeScan(fmt), ScansFound(ctx.source, ctx.parse, fmt), relOp, queryPlan, ctx);
  }

  lemma SkewsOnAll(relOp: Element, queryPlan: Element, ctx: Context, fmt: Format)
    requires IsRelOp(relOp)
    ensures FlatMap(Skew(fmt), Walk(WithGrant(Tree(relOp, NodeFrom(ctx), 1), queryPlan, ctx.parse)))
         == FlatMap(SkewsFound(ctx.source, ctx.parse, fmt), Numbered(RelOpsIn([relOp]), 1))
  {
    hide NodeOf, RelOpsIn, Numbered, Tree, WithGrant, SkewsFound, Walk;
    forall e, id ensures Skew(fmt)(NodeFrom(ctx)(e, id)) == SkewsFound(ctx.source, ctx.parse, fmt)((e, id)) {
      SkewOnOne(e, ctx, id, fmt);
    }
    NodeRuleOnAll(Skew(fmt), SkewsFound(ctx.source, ctx.parse, fmt), relOp, queryPlan, ctx);
  }

  lemma LookupsOnAll(relOp: Element, queryPlan: Element, ctx: Context, fmt: Format)
    requires IsRelOp(relOp)
    ensures FlatMap(KeyLookup(fmt), Walk(WithGrant(Tree(relOp, NodeFrom(ctx), 1), queryPlan, ctx.parse)))
         == FlatMap(LookupsFound(fmt), Numbered(RelOpsIn([relOp]), 1))
  {
    hide NodeOf, RelOpsIn, Numbered, Tree, WithGrant, LookupsFound, Walk;
    forall e, id ensures KeyLookup(fmt)(NodeFrom(ctx)(e, id)) == LookupsFound(fmt)((e, id)) {
      LookupOnOne(e, ctx, id, fmt);
    }
    NodeRuleOnAll(KeyLookup(fmt), LookupsFound(fmt), relOp, queryPlan, ctx);
  }

  lemma ParallelOnRoot(relOp: Element, queryPlan: Element, ctx: Context)
    ensures Parallelism(WithGrant(Tree(relOp, NodeFrom(ctx), 1), queryPlan, ctx.parse))
         == ParallelFound((relOp, IdOf([relOp], 0)))
  {
    hide NodeOf, IdFor, Forest, DirectRelOps, Truncate, Values, IdOf, HasOwnId, ParallelReport, ParallelFound;
    FirstId(relOp);
    ParallelFoundIs(relOp, IdOf([relOp], 0));
    NodeFields(relOp, ctx, IdFor(relOp, 1));
    assert Tree(relOp, NodeFrom(ctx), 1).node == NodeOf(relOp, ctx, IdFor(relOp, 1));
  }

  lemma ParallelFoundIs(e: Element, id: string)
    ensures ParallelFound((e, id)) == if Get(e, "Parallel") == Some("1") then [ParallelReport(id)] else []
  {
  }

  lemma FirstId(relOp: Element)
    ensures IdFor(relOp, 1) == IdOf([relOp], 0)
  {
    hide IdFor, IdOf;
    IdsAgree([relOp]);
    assert Numbered([relOp], 1)[0] == (relOp, IdFor(relOp, 1));
  }

  /**
   * What the pipeline reports: for every document, the findings - texts and
   * scripts included - are those a direct scan of the document gives, in order
   * of severity; none missing, none extra, none out of order.
   */
  lemma PipelineExact(document: Element, parse: string -> Option<real>, options: ParseOptions, fmt: Format)
    requires Parts(document).Some?
    ensures PartsOf(document) == Parts(document)
    ensures Findings(PlanOf(document, parse, options), fmt)
         == BySeverity(DirectFindings(document, parse, options.source, fmt))
  {
    hide NodeOf, NodeFrom, RelOpsIn, RelOpsOf, Numbered, WithIds, Tree, WithGrant, Walk, Warnings, MissingIndexesOf,
      BySeverity, Parallelism, ParallelFound, GroupsOf, FlatMap, IdOf;
    PartsAgree(document);
    var (stmt, queryPlan, relOp) := Parts(document).value;
    hide Parts, PartsOf;
    RootIsRelOp(document);
    var ctx := ContextFor(stmt, parse, options.source);
    RelOpsAgree(relOp);
    IdsAgree(RelOpsIn([relOp]));
    WarningsOnAll(Numbered(RelOpsIn([relOp]), 1));
    ScansOnAll(relOp, queryPlan, ctx, fmt);
    SkewsOnAll(relOp, queryPlan, ctx, fmt);
    LookupsOnAll(relOp, queryPlan, ctx, fmt);
    IndexesOnAll(queryPlan, parse, fmt);
    ParallelOnRoot(relOp, queryPlan, ctx);
  }

  lemma RootIsRelOp(document: Element)
    requires Parts(document).Some?
    ensures IsRelOp(Parts(document).value.2)
  {
    var (stmt, queryPlan, relOp) := Parts(document).value;
    FilterMembers(HasTag("RelOp"), queryPlan.children, relOp);
  }
}
