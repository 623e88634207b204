/** What holds at every operator of every plan the adapter builds, and what the rules make of it. */
module PlanProperties {
  import opened Wrappers
  import opened Sequences
  import opened Xml
  import opened PlanIr
  import opened OperatorMap
  import opened PlanXmlToIr
  import opened PlanTree
  import opened RulesEngine
  import opened Pipeline
  import IndexScript

  /** The plan's RelOps in document order, with the ids they get. */
  function PlanRelOps(document: Element): seq<NumberedRelOp>
    requires Parts(document).Some?
  {
    Numbered(RelOpsIn([Parts(document).value.2]), 1)
  }

  function PlanContext(document: Element, parse: string -> Option<real>, source: PlanSource): Context
    requires Parts(document).Some?
  {
    ContextFor(Parts(document).value.0, parse, source)
  }

  /** The walk of a finished plan: the document's RelOps in order, with the memory grant on the first alone. */
  lemma WalkOfPlan(document: Element, parse: string -> Option<real>, options: ParseOptions, i: nat)
    requires Parts(document).Some?
    requires i < |PlanRelOps(document)|
    ensures var nodes := Walk(PlanOf(document, parse, options).root);
      |nodes| == |PlanRelOps(document)|
      && nodes[i].(memoryGrantKb := None)
        == NodeOf(PlanRelOps(document)[i].0, PlanContext(document, parse, options.source), PlanRelOps(document)[i].1)
      && (i > 0 ==> nodes[i].memoryGrantKb == None)
  {
    hide NodeOf, RelOpsIn, Numbered, Tree, Warnings, MissingIndexesOf;
    var (stmt, queryPlan, relOp) := Parts(document).value;
    var ctx := ContextFor(stmt, parse, options.source);
    var root := Tree(relOp, NodeFrom(ctx), 1);
    RootIsRelOp(document);
    WalkIsDocumentOrder(relOp, NodeFrom(ctx), 1);
    var granted := WithGrant(root, queryPlan, parse);
    assert granted.children == root.children;
    assert Walk(granted)[1..] == WalkAll(root.children) == Walk(root)[1..];
    assert Walk(root)[i] == NodeOf(PlanRelOps(document)[i].0, ctx, PlanRelOps(document)[i].1);
    NodeFields(PlanRelOps(document)[i].0, ctx, PlanRelOps(document)[i].1);
    if i > 0 {
      assert Walk(granted)[i] == Walk(granted)[1..][i - 1] == Walk(root)[i];
    } else {
      assert granted.node.(memoryGrantKb := None) == root.node.(memoryGrantKb := None);
    }
  }

  // ---------- Classification ----------

  /** An operator's type, join type and access path tell the same story. */
  predicate Coherent(node: OperatorNode) {
    (node.operatorType == JoinNestedLoop <==> node.joinType == Some(NestedLoop))
    && (node.operatorType == JoinMerge <==> node.joinType == Some(MergeJoin))
    && (node.operatorType == JoinHash <==> node.joinType == Some(Hash))
    && (node.accessType == Some(FullScan) <==> node.operatorType == TableScan && node.accessType != Some(LookupAccess))
    && (node.operatorType == IndexSeek ==> node.accessType == Some(Seek))
    && (node.operatorType == IndexScan ==> node.accessType in {Some(Scan), Some(LookupAccess)})
    && (node.operatorType == BookmarkLookup ==> node.accessType == Some(LookupAccess))
  }

  lemma NodeCoherent(e: Element, ctx: Context, id: string)
    ensures Coherent(NodeOf(e, ctx, id))
  {
    hide NodeOf, MapOperatorType, MapAccessType, MapJoinType, IsLookup, GetOrEmpty;
    NodeFields(e, ctx, id);
    var op, logical := GetOrEmpty(e, "PhysicalOp"), GetOrEmpty(e, "LogicalOp");
    JoinClassesAgree(op, logical, IsLookup(e));
    AccessClassesAgree(op, logical, IsLookup(e));
  }

  /** Every operator of every plan is classified coherently. */
  lemma PlanCoherent(document: Element, parse: string -> Option<real>, options: ParseOptions)
    requires Parts(document).Some?
    ensures forall node :: node in Walk(PlanOf(document, parse, options).root) ==> Coherent(node)
  {
    hide NodeOf, PlanOf, PlanRelOps, Walk;
    var nodes := Walk(PlanOf(document, parse, options).root);
    PlanSize(document, parse, options);
    forall i | 0 <= i < |nodes| ensures Coherent(nodes[i]) {
      WalkOfPlan(document, parse, options, i);
      var (e, id) := PlanRelOps(document)[i];
      NodeCoherent(e, PlanContext(document, parse, options.source), id);
      assert Coherent(nodes[i].(memoryGrantKb := None));
    }
  }

  lemma PlanSize(document: Element, parse: string -> Option<real>, options: ParseOptions)
    requires Parts(document).Some?
    ensures |Walk(PlanOf(document, parse, options).root)| == |PlanRelOps(document)| > 0
  {
    hide NodeOf, Tree, Warnings, MissingIndexesOf;
    var relOp := Parts(document).value.2;
    RootIsRelOp(document);
    RelOpsInOne(relOp);
    NumberedLength(RelOpsIn([relOp]), 1);
    WalkOfPlan(document, parse, options, 0);
  }

  // ---------- Where a finding comes from ----------

  lemma RuleIdsDiffer(t: WarningType)
    ensures WarningRule(t) != "" && WarningRule(t)[0] == 'a'
    ensures "large_table_scan"[0] == 'l' && "cardinality_skew"[0] == 'c' && "non_covering_key_lookup"[0] == 'n'
    ensures "missing_index_available"[0] == 'm' && "parallelism_used"[0] == 'p'
  {
  }

  predicate RuleStarts(c: char, f: Finding) {
    f.ruleId != "" && f.ruleId[0] == c
  }

  /** Each rule's findings, told apart by their rule ids. */
  lemma FindingSource(plan: Plan, fmt: Format, f: Finding)
    ensures f in Findings(plan, fmt) && RuleStarts('a', f) <==> f in FlatMap(Promoted, plan.warnings)
    ensures f in Findings(plan, fmt) && RuleStarts('l', f) <==> f in FlatMap(LargeScan(fmt), Walk(plan.root))
    ensures f in Findings(plan, fmt) && RuleStarts('n', f) <==> f in FlatMap(KeyLookup(fmt), Walk(plan.root))
    ensures f in Findings(plan, fmt) && RuleStarts('m', f)
       <==> f in FlatMap(IndexSuggestion(fmt), plan.missingIndexes)
  {
    hide Findings, Walk, FlatMap, Parallelism;
    FindingsMembers(plan, fmt, f);
    WarningSource(plan.warnings, f);
    NodeSource(Walk(plan.root), fmt, f);
    IndexSource(plan.missingIndexes, fmt, f);
    ParallelSource(plan.root, f);
  }

  lemma WarningSource(ws: seq<PlanWarning>, f: Finding)
    ensures f in FlatMap(Promoted, ws) <==> exists w :: w in ws && f == PromotedFinding(w)
    ensures f in FlatMap(Promoted, ws) ==> RuleStarts('a', f) && f.suggestedFix == None
  {
    hide WarningRule;
    FlatMapMembers(Promoted, ws, f);
    if i :| 0 <= i < |ws| && f in Promoted(ws[i]) {
      assert ws[i] in ws;
      RuleIdsDiffer(ws[i].kind);
    }
    if w :| w in ws && f == PromotedFinding(w) {
      var i :| 0 <= i < |ws| && ws[i] == w;
      assert f in Promoted(ws[i]);
      RuleIdsDiffer(w.kind);
    }
  }

  lemma NodeSource(nodes: seq<OperatorNode>, fmt: Format, f: Finding)
    ensures f in FlatMap(LargeScan(fmt), nodes) ==>
              RuleStarts('l', f) && f.suggestedFix == None && exists n :: n in nodes && f in LargeScan(fmt)(n)
    ensures f in FlatMap(Skew(fmt), nodes) ==> RuleStarts('c', f) && f.suggestedFix == None
    ensures f in FlatMap(KeyLookup(fmt), nodes) ==>
              RuleStarts('n', f) && f.suggestedFix == None && exists n :: n in nodes && f in KeyLookup(fmt)(n)
  {
    hide TableName, OperatorTypeValue, AccessTypeValue, OptionalNumber;
    FlatMapMembers(LargeScan(fmt), nodes, f);
    FlatMapMembers(Skew(fmt), nodes, f);
    FlatMapMembers(KeyLookup(fmt), nodes, f);
    RuleIdsDiffer(OtherWarning);
    if i :| 0 <= i < |nodes| && f in LargeScan(fmt)(nodes[i]) { assert nodes[i] in nodes; }
    if i :| 0 <= i < |nodes| && f in KeyLookup(fmt)(nodes[i]) { assert nodes[i] in nodes; }
  }

  lemma IndexSource(mis: seq<MissingIndex>, fmt: Format, f: Finding)
    ensures f in FlatMap(IndexSuggestion(fmt), mis) ==>
              f.ruleId == "missing_index_available" && RuleStarts('m', f) && Truthy(f.suggestedFix)
  {
    hide FlatMap;
    FlatMapMembers(IndexSuggestion(fmt), mis, f);
    RuleIdsDiffer(OtherWarning);
  }

  lemma ParallelSource(root: Operator, f: Finding)
    ensures f in Parallelism(root) ==> RuleStarts('p', f) && f.suggestedFix == None
  {
    hide PARALLELISM_DETAIL;
    RuleIdsDiffer(OtherWarning);
  }

  /** Tier 0 supplies a fix for a finding exactly when the finding is a missing-index suggestion. */
  lemma FixOnlyForIndexes(plan: Plan, fmt: Format, f: Finding)
    requires f in Findings(plan, fmt)
    ensures Truthy(f.suggestedFix) <==> f.ruleId == "missing_index_available"
  {
    hide Findings, Walk, FlatMap, Parallelism;
    FindingsMembers(plan, fmt, f);
    RuleIdsDiffer(OtherWarning);
    WarningSource(plan.warnings, f);
    NodeSource(Walk(plan.root), fmt, f);
    ParallelSource(plan.root, f);
    IndexSource(plan.missingIndexes, fmt, f);
  }

  function ScriptIn(f: Finding): seq<string> {
    if f.suggestedFix.Some? then [f.suggestedFix.value] else []
  }

  /** The Tier 0 fixes of the findings, in order. */
  function Scripts(fs: seq<Finding>): seq<string> {
    FlatMap(ScriptIn, fs)
  }

  function HasImpact(s: Severity): MissingIndex -> bool {
    (mi: MissingIndex) => ImpactSeverity(mi.impact) == s
  }

  lemma {:induction false} NoScripts(fs: seq<Finding>, s: Severity)
    requires forall f :: f in fs ==> f.suggestedFix == None
    ensures Scripts(Filter(HasSeverity(s), fs)) == []
  {
    if fs != [] {
      NoScripts(fs[1..], s);
      assert fs[0] in fs;
      FilterHead(fs, s);
    }
  }

  lemma ScriptOfSuggestion(mi: MissingIndex, fmt: Format, s: Severity)
    ensures Scripts(Filter(HasSeverity(s), FlatMap(IndexSuggestion(fmt), [mi])))
         == Map(IndexScript.ScriptOf, Filter(HasImpact(s), [mi]))
  {
    hide IndexScript.ScriptOf, ImpactSeverity, FlatMap, Filter;
    var f := IndexFinding(fmt, mi, IndexScript.ScriptOf(mi));
    FlatMapOne(IndexSuggestion(fmt), mi);
    FilterOne(HasSeverity(s), f);
    FilterOne(HasImpact(s), mi);
    FlatMapOne(ScriptIn, f);
    assert FlatMap(ScriptIn, []) == [] by { NothingFlat(ScriptIn); }
  }

  lemma {:induction false} ScriptsOfSuggestions(mis: seq<MissingIndex>, fmt: Format, s: Severity)
    ensures Scripts(Filter(HasSeverity(s), FlatMap(IndexSuggestion(fmt), mis)))
         == Map(IndexScript.ScriptOf, Filter(HasImpact(s), mis))
  {
    hide IndexScript.ScriptOf, HasImpact, HasSeverity, Scripts, IndexSuggestion;
    if mis == [] {
      NoScripts([], s);
    } else {
      hide FlatMap, Filter;
      var first, rest := [mis[0]], mis[1..];
      var found, later := FlatMap(IndexSuggestion(fmt), first), FlatMap(IndexSuggestion(fmt), rest);
      ScriptOfSuggestion(mis[0], fmt, s);
      ScriptsOfSuggestions(rest, fmt, s);
      assert mis == first + rest;
      FlatMapAppend(IndexSuggestion(fmt), first, rest);
      FilterAppend(HasSeverity(s), found, later);
      FilterAppend(HasImpact(s), first, rest);
      ScriptsAppend(Filter(HasSeverity(s), found), Filter(HasSeverity(s), later));
    }
  }

  lemma ScriptsOfOutputs(plan: Plan, fmt: Format, s: Severity)
    ensures Scripts(Filter(HasSeverity(s), RuleOutputs(plan, fmt)))
         == Map(IndexScript.ScriptOf, Filter(HasImpact(s), plan.missingIndexes))
  {
    hide FlatMap, Filter, Walk, Parallelism, IndexScript.ScriptOf, ImpactSeverity;
    var nodes := Walk(plan.root);
    var before := FlatMap(Promoted, plan.warnings) + FlatMap(LargeScan(fmt), nodes) + FlatMap(Skew(fmt), nodes)
      + FlatMap(KeyLookup(fmt), nodes);
    var suggestions, after := FlatMap(IndexSuggestion(fmt), plan.missingIndexes), Parallelism(plan.root);
    forall f | f in before || f in after ensures f.suggestedFix == None {
      WarningSource(plan.warnings, f);
      NodeSource(nodes, fmt, f);
      ParallelSource(plan.root, f);
    }
    NoScripts(before, s);
    NoScripts(after, s);
    ScriptsOfSuggestions(plan.missingIndexes, fmt, s);
    FilterAppend(HasSeverity(s), before + suggestions, after);
    FilterAppend(HasSeverity(s), before, suggestions);
    ScriptsAppend(Filter(HasSeverity(s), before + suggestions), Filter(HasSeverity(s), after));
    ScriptsAppend(Filter(HasSeverity(s), before), Filter(HasSeverity(s), suggestions));
  }

  lemma ScriptsAppend(fs: seq<Finding>, gs: seq<Finding>)
    ensures Scripts(fs + gs) == Scripts(fs) + Scripts(gs)
  {
    FlatMapAppend(ScriptIn, fs, gs);
  }

  /** The findings' scripts are the missing indexes' scripts, one each, by impact class and in the plan's order. */
  lemma ScriptsFollowIndexes(plan: Plan, fmt: Format)
    ensures Scripts(Findings(plan, fmt))
         == Map(IndexScript.ScriptOf, Filter(HasImpact(Critical), plan.missingIndexes))
            + (Map(IndexScript.ScriptOf, Filter(HasImpact(Warning), plan.missingIndexes))
               + Map(IndexScript.ScriptOf, Filter(HasImpact(Info), plan.missingIndexes)))
  {
    hide RuleOutputs, Scripts, IndexScript.ScriptOf, Filter, Map;
    var fs := RuleOutputs(plan, fmt);
    var c, w, i := Filter(HasSeverity(Critical), fs), Filter(HasSeverity(Warning), fs), Filter(HasSeverity(Info), fs);
    ScriptsOfOutputs(plan, fmt, Critical);
    ScriptsOfOutputs(plan, fmt, Warning);
    ScriptsOfOutputs(plan, fmt, Info);
    ScriptsAppend(c, w + i);
    ScriptsAppend(w, i);
  }

  // ---------- Spills ----------

  lemma WarningRuleInjective(a: WarningType, b: WarningType)
    requires WarningRule(a) == WarningRule(b)
    ensures a == b
  {
    assert |WarningRule(a)| == |WarningRule(b)|;
  }

  lemma OwnWarningTagged(e: Element, id: string, w: PlanWarning)
    requires w in OwnWarnings(e, id)
    ensures w.operatorId == id
  {
    FlatMapMembers(WarningFrom(id), WarningElements(e), w);
  }

  /** With distinct ids, a warning of the plan belongs to the one RelOp whose id it carries. */
  lemma WarningOwner(relOps: seq<NumberedRelOp>, i: nat, w: PlanWarning)
    requires Distinct(Ids(relOps)) && i < |relOps|
    ensures w in Warnings(relOps) && w.operatorId == relOps[i].1 <==> w in OwnWarnings(relOps[i].0, relOps[i].1)
  {
    hide OwnWarnings;
    FlatMapMembers(WarningsFrom, relOps, w);
    var ids := Ids(relOps);
    if w in OwnWarnings(relOps[i].0, relOps[i].1) {
      OwnWarningTagged(relOps[i].0, relOps[i].1, w);
      assert w in WarningsFrom(relOps[i]);
    }
    if w in Warnings(relOps) && w.operatorId == relOps[i].1 {
      var j :| 0 <= j < |relOps| && w in WarningsFrom(relOps[j]);
      OwnWarningTagged(relOps[j].0, relOps[j].1, w);
      assert ids[j] == ids[i];
      assert i == j;
    }
  }

  predicate SpillFindingFor(f: Finding, id: string) {
    f.ruleId == "adapter_warning.tempdb_spill" && f.severity == Critical && f.operatorId == Some(id)
  }

  lemma SpillFindings(plan: Plan, fmt: Format, id: string)
    ensures (exists f :: f in Findings(plan, fmt) && SpillFindingFor(f, id))
       <==> (exists w :: w in plan.warnings && IsSpill(w) && w.operatorId == id)
  {
    hide Findings, FlatMap;
    if f :| f in Findings(plan, fmt) && SpillFindingFor(f, id) {
      assert f.ruleId[0] == 'a';
      FindingSource(plan, fmt, f);
      WarningSource(plan.warnings, f);
      var w :| w in plan.warnings && f == PromotedFinding(w);
      WarningRuleInjective(w.kind, TempdbSpill);
      assert IsSpill(w);
    }
    if w :| w in plan.warnings && IsSpill(w) && w.operatorId == id {
      var f := PromotedFinding(w);
      WarningSource(plan.warnings, f);
      FindingSource(plan, fmt, f);
      assert SpillFindingFor(f, id);
    }
  }

  /**
   * With distinct ids, an operator's spill flag, a spill warning carrying its
   * id and a critical spill finding about it are one and the same fact.
   */
  lemma SpillsReported(document: Element, parse: string -> Option<real>, options: ParseOptions, fmt: Format, i: nat)
    requires Parts(document).Some?
    requires Distinct(Ids(PlanRelOps(document))) && i < |PlanRelOps(document)|
    ensures var plan := PlanOf(document, parse, options);
      i < |Walk(plan.root)| && var node := Walk(plan.root)[i];
      (node.tempdbSpill <==> exists w :: w in plan.warnings && IsSpill(w) && w.operatorId == node.id)
      && (node.tempdbSpill <==> exists f :: f in Findings(plan, fmt) && SpillFindingFor(f, node.id))
  {
    hide Findings, Walk, SpillFindingFor, RelOpsIn, Numbered, NodeOf;
    var plan := PlanOf(document, parse, options);
    WalkOfPlan(document, parse, options, i);
    var node := Walk(plan.root)[i];
    var (e, id) := PlanRelOps(document)[i];
    NodeFields(e, PlanContext(document, parse, options.source), id);
    assert node.id == node.(memoryGrantKb := None).id;
    assert node.tempdbSpill == node.(memoryGrantKb := None).tempdbSpill;
    forall w ensures w in plan.warnings && w.operatorId == id <==> w in OwnWarnings(e, id) {
      WarningOwner(PlanRelOps(document), i, w);
    }
    SpillFindings(plan, fmt, id);
  }

  lemma FindingSubject(n: OperatorNode, fmt: Format, f: Finding)
    requires f in LargeScan(fmt)(n) || f in KeyLookup(fmt)(n)
    ensures f.operatorId == Some(n.id)
  {
    hide OperatorTypeValue, AccessTypeValue, TableName;
  }

  /** No operator is both a large scan and a key lookup. */
  lemma ScanOrLookup(document: Element, parse: string -> Option<real>, options: ParseOptions, fmt: Format)
    requires Parts(document).Some?
    ensures forall n :: n in Walk(PlanOf(document, parse, options).root) ==>
              LargeScan(fmt)(n) == [] || KeyLookup(fmt)(n) == []
  {
    hide PlanOf, Walk, Coherent;
    PlanCoherent(document, parse, options);
    forall n | n in Walk(PlanOf(document, parse, options).root)
      ensures LargeScan(fmt)(n) == [] || KeyLookup(fmt)(n) == []
    {
      CoherentScanOrLookup(n, fmt);
    }
  }

  lemma CoherentScanOrLookup(n: OperatorNode, fmt: Format)
    requires Coherent(n)
    ensures LargeScan(fmt)(n) == [] || KeyLookup(fmt)(n) == []
  {
    hide OperatorTypeValue, AccessTypeValue, TableName;
  }

  /** So, with distinct ids, no id is reported as both. */
  lemma NeverScanAndLookup(
    document: Element, parse: string -> Option<real>, options: ParseOptions, fmt: Format, f: Finding, g: Finding)
    requires Parts(document).Some? && Distinct(Ids(PlanRelOps(document)))
    requires f in Findings(PlanOf(document, parse, options), fmt) && f.ruleId == "large_table_scan"
    requires g in Findings(PlanOf(document, parse, options), fmt) && g.ruleId == "non_covering_key_lookup"
    ensures f.operatorId != g.operatorId
  {
    hide Findings, Walk, NodeOf, PlanRelOps, FlatMap, PlanOf, WarningRule, LargeScan, KeyLookup;
    var plan := PlanOf(document, parse, options);
    var nodes := Walk(plan.root);
    RuleIdsDiffer(OtherWarning);
    FindingSource(plan, fmt, f);
    FindingSource(plan, fmt, g);
    NodeSource(nodes, fmt, f);
    NodeSource(nodes, fmt, g);
    var n :| n in nodes && f in LargeScan(fmt)(n);
    var m :| m in nodes && g in KeyLookup(fmt)(m);
    FindingSubject(n, fmt, f);
    FindingSubject(m, fmt, g);
    ScanOrLookup(document, parse, options, fmt);
    DistinctNodes(document, parse, options, n, m);
  }

  lemma DistinctNodes(
    document: Element, parse: string -> Option<real>, options: ParseOptions, n: OperatorNode, m: OperatorNode)
    requires Parts(document).Some? && Distinct(Ids(PlanRelOps(document)))
    requires n in Walk(PlanOf(document, parse, options).root) && m in Walk(PlanOf(document, parse, options).root)
    requires n != m
    ensures n.id != m.id
  {
    hide Walk, PlanRelOps, PlanOf;
    var nodes := Walk(PlanOf(document, parse, options).root);
    var ids := Ids(PlanRelOps(document));
    PlanSize(document, parse, options);
    var i :| 0 <= i < |nodes| && nodes[i] == n;
    var j :| 0 <= j < |nodes| && nodes[j] == m;
    IdOfNode(document, parse, options, i);
    IdOfNode(document, parse, options, j);
    assert ids[i] != ids[j];
  }

  lemma IdOfNode(document: Element, parse: string -> Option<real>, options: ParseOptions, i: nat)
    requires Parts(document).Some? && i < |PlanRelOps(document)|
    ensures var nodes := Walk(PlanOf(document, parse, options).root);
      |nodes| == |PlanRelOps(document)| && nodes[i].id == PlanRelOps(document)[i].1
  {
    hide Walk, PlanRelOps, PlanOf;
    WalkOfPlan(document, parse, options, i);
    var node := Walk(PlanOf(document, parse, options).root)[i];
    assert node.id == node.(memoryGrantKb := None).id;
    NodeFields(PlanRelOps(document)[i].0, PlanContext(document, parse, options.source), PlanRelOps(document)[i].1);
  }
}
