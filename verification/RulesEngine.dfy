/** Tier 0: findings computed from a plan, ordered by severity. */
module RulesEngine {
  import opened Wrappers
  import opened Sequences
  import opened PlanIr
  import IndexScript
  import Sorting

  datatype Finding = Finding(
    ruleId: string,
    severity: Severity,
    operatorId: Option<string>,
    summary: string,
    detail: string,
    suggestedFix: Option<string>)

  /** How Python prints numbers and lists inside findings. */
  datatype Format = Format(
    grouped: int -> string,
    number: real -> string,
    twoDigits: real -> string,
    list: seq<string> -> string)

  const LARGE_SCAN_WARNING_ROWS := 10000.0
  const LARGE_SCAN_CRITICAL_ROWS := 100000.0
  const SKEW_RATIO_HIGH := 10.0
  const SKEW_RATIO_LOW := 0.1
  const MISSING_INDEX_IMPACT_CRITICAL := 80.0
  const MISSING_INDEX_IMPACT_WARNING := 50.0

  const PARALLELISM_DETAIL :=
    "Root operator ran in parallel; not inherently bad, but worth noting for small/OLTP workloads."

  function OperatorTypeValue(t: OperatorType): string {
    match t
    case TableScan => "table_scan"
    case IndexSeek => "index_seek"
    case IndexScan => "index_scan"
    case BookmarkLookup => "bookmark_lookup"
    case JoinNestedLoop => "join_nested_loop"
    case JoinHash => "join_hash"
    case JoinMerge => "join_merge"
    case Sort => "sort"
    case Aggregate => "aggregate"
    case Other => "other"
  }

  function AccessTypeValue(t: AccessType): string {
    match t
    case Seek => "seek"
    case Scan => "scan"
    case LookupAccess => "bookmark_lookup"
    case FullScan => "full_scan"
  }

  /** "adapter_warning." and the type's value. */
  function WarningRule(t: WarningType): string {
    match t
    case ImplicitConversion => "adapter_warning.implicit_conversion"
    case TempdbSpill => "adapter_warning.tempdb_spill"
    case NoJoinPredicate => "adapter_warning.no_join_predicate"
    case ColumnWithNoStats => "adapter_warning.column_with_no_stats"
    case MemoryGrantExcessive => "adapter_warning.memory_grant_excessive"
    case CardinalitySkew => "adapter_warning.cardinality_skew"
    case OtherWarning => "adapter_warning.other"
  }

  function PromotedSeverity(t: WarningType): Severity {
    match t
    case TempdbSpill => Critical
    case NoJoinPredicate => Critical
    case ImplicitConversion => Warning
    case ColumnWithNoStats => Warning
    case MemoryGrantExcessive => Warning
    case CardinalitySkew => Warning
    case OtherWarning => Info
  }

  function PromotedSummary(t: WarningType): string {
    match t
    case TempdbSpill => "Operator spilled to tempdb"
    case NoJoinPredicate => "Join has no predicate (possible cartesian product)"
    case ImplicitConversion => "Implicit type conversion may block index usage"
    case ColumnWithNoStats => "Column has no statistics"
    case MemoryGrantExcessive => "Memory grant may be excessive"
    case CardinalitySkew => "Engine-reported cardinality estimate skew"
    case OtherWarning => "Engine-reported plan warning"
  }

  /** Tier 0 has a finding at this index and left it without a fix. */
  function IsOpen(fs: seq<Finding>): int -> bool {
    (i: int) => 0 <= i < |fs| && !Truthy(fs[i].suggestedFix)
  }

  // ---------- What each rule makes of one item ----------

  function PromotedFinding(w: PlanWarning): Finding {
    Finding(WarningRule(w.kind), PromotedSeverity(w.kind), Some(w.operatorId), PromotedSummary(w.kind), w.detail, None)
  }

  function Promoted(w: PlanWarning): seq<Finding> {
    [PromotedFinding(w)]
  }

  function ScanRows(node: OperatorNode): Option<real> {
    if node.actualRows.Some? then node.actualRows else node.estimatedRows
  }

  function ScanSeverity(node: OperatorNode): Option<Severity> {
    if node.accessType != Some(Scan) && node.accessType != Some(FullScan) then None
    else if ScanRows(node).None? then None
    else if ScanRows(node).value >= LARGE_SCAN_CRITICAL_ROWS then Some(Critical)
    else if ScanRows(node).value >= LARGE_SCAN_WARNING_ROWS then Some(Warning)
    else None
  }

  function TableName(ref: Option<ObjectRef>): string {
    if ref.Some? && Truthy(ref.value.table) then ref.value.table.value else "unknown table"
  }

  function OptionalNumber(fmt: Format, x: Option<real>): string {
    match x case None => "None" case Some(v) => fmt.number(v)
  }

  function ScanReport(
    fmt: Format, severity: Severity, id: string, operatorType: string, access: string, physicalOp: string,
    table: string, rows: real): Finding
  {
    Finding(
      "large_table_scan",
      severity,
      Some(id),
      operatorType + " reads ~" + fmt.grouped(Truncate(rows)) + " rows from " + table,
      "physical_op=" + physicalOp + ", access_type=" + access + ", rows=" + fmt.number(rows),
      None)
  }

  function ScanFinding(fmt: Format, node: OperatorNode, severity: Severity, rows: real): Finding
    requires node.accessType.Some?
  {
    ScanReport(
      fmt, severity, node.id, OperatorTypeValue(node.operatorType), AccessTypeValue(node.accessType.value),
      node.physicalOp, TableName(node.objectRef), rows)
  }

  function LargeScan(fmt: Format): OperatorNode -> seq<Finding> {
    (node: OperatorNode) =>
      if ScanSeverity(node).None? then []
      else [ScanFinding(fmt, node, ScanSeverity(node).value, ScanRows(node).value)]
  }

  function DirectionOf(ratio: real): Option<string> {
    if ratio >= SKEW_RATIO_HIGH then Some("under-estimated")
    else if ratio <= SKEW_RATIO_LOW then Some("over-estimated")
    else None
  }

  function SkewDirection(node: OperatorNode): Option<string> {
    match node.rowEstimateRatio case None => None case Some(ratio) => DirectionOf(ratio)
  }

  function SkewReport(
    fmt: Format, id: string, direction: string, operatorType: string, ratio: real,
    estimated: Option<real>, actual: Option<real>): Finding
  {
    Finding(
      "cardinality_skew",
      Warning,
      Some(id),
      "Optimizer " + direction + " row count at " + operatorType + " (ratio " + fmt.twoDigits(ratio) + ")",
      "estimated_rows=" + OptionalNumber(fmt, estimated) + ", actual_rows=" + OptionalNumber(fmt, actual),
      None)
  }

  function SkewFinding(fmt: Format, node: OperatorNode, direction: string, ratio: real): Finding {
    SkewReport(
      fmt, node.id, direction, OperatorTypeValue(node.operatorType), ratio, node.estimatedRows, node.actualRows)
  }

  function Skew(fmt: Format): OperatorNode -> seq<Finding> {
    (node: OperatorNode) =>
      if SkewDirection(node).None? then []
      else [SkewFinding(fmt, node, SkewDirection(node).value, node.rowEstimateRatio.value)]
  }

  function LookupReport(fmt: Format, id: string, table: string, physicalOp: string, predicates: seq<string>): Finding {
    Finding(
      "non_covering_key_lookup",
      Warning,
      Some(id),
      "Key lookup against " + table + " -- consider a covering index",
      "physical_op=" + physicalOp + ", predicates=" + fmt.list(predicates),
      None)
  }

  function LookupFinding(fmt: Format, node: OperatorNode): Finding {
    LookupReport(fmt, node.id, TableName(node.objectRef), node.physicalOp, node.predicates)
  }

  function KeyLookup(fmt: Format): OperatorNode -> seq<Finding> {
    (node: OperatorNode) => if node.operatorType != BookmarkLookup then [] else [LookupFinding(fmt, node)]
  }

  function ImpactSeverity(impact: Option<real>): Severity {
    if impact.Some? && impact.value >= MISSING_INDEX_IMPACT_CRITICAL then Critical
    else if impact.Some? && impact.value >= MISSING_INDEX_IMPACT_WARNING then Warning
    else Info
  }

  function IndexReport(fmt: Format, severity: Severity, mi: MissingIndex, script: string): Finding {
    Finding(
      "missing_index_available",
      severity,
      None,
      "Engine suggests an index on " + mi.table + " (impact "
      + (if mi.impact.Some? then fmt.number(mi.impact.value) else "unknown") + ")",
      "equality=" + fmt.list(mi.equality) + ", inequality=" + fmt.list(mi.inequality) + ", include="
      + fmt.list(mi.included),
      Some(script))
  }

  function IndexFinding(fmt: Format, mi: MissingIndex, script: string): Finding {
    IndexReport(fmt, ImpactSeverity(mi.impact), mi, script)
  }

  function IndexSuggestion(fmt: Format): MissingIndex -> seq<Finding> {
    (mi: MissingIndex) => [IndexFinding(fmt, mi, IndexScript.ScriptOf(mi))]
  }

  function ParallelReport(id: string): Finding {
    Finding("parallelism_used", Info, Some(id), "Plan executed with parallelism", PARALLELISM_DETAIL, None)
  }

  function Parallelism(root: Operator): seq<Finding> {
    if !root.node.parallel then [] else [ParallelReport(root.node.id)]
  }

  // ---------- The rules in their order, then severity order ----------

  function RuleOutputs(plan: Plan, fmt: Format): seq<Finding> {
    FlatMap(Promoted, plan.warnings)
    + FlatMap(LargeScan(fmt), Walk(plan.root))
    + FlatMap(Skew(fmt), Walk(plan.root))
    + FlatMap(KeyLookup(fmt), Walk(plan.root))
    + FlatMap(IndexSuggestion(fmt), plan.missingIndexes)
    + Parallelism(plan.root)
  }

  function HasSeverity(s: Severity): Finding -> bool {
    (f: Finding) => f.severity == s
  }

  /** The critical findings, then the warnings, then the rest, each in the order given. */
  function BySeverity(fs: seq<Finding>): seq<Finding> {
    Filter(HasSeverity(Critical), fs) + (Filter(HasSeverity(Warning), fs) + Filter(HasSeverity(Info), fs))
  }

  function Findings(plan: Plan, fmt: Format): seq<Finding> {
    BySeverity(RuleOutputs(plan, fmt))
  }

  /** _SEVERITY_ORDER */
  function Rank(s: Severity): nat {
    match s
    case Critical => 0
    case Warning => 1
    case Info => 2
  }

  predicate RankAtMost(a: Finding, b: Finding) {
    Rank(a.severity) <= Rank(b.severity)
  }

  /** A finding passes everything ranked before it and stops at the first that is not. */
  lemma InsertBetween(f: Finding, before: seq<Finding>, after: seq<Finding>)
    requires forall x :: x in before ==> Rank(x.severity) < Rank(f.severity)
    requires after != [] ==> Rank(f.severity) <= Rank(after[0].severity)
    ensures Sorting.Insert(RankAtMost, f, before + after) == before + ([f] + after)
  {
    Sorting.InsertPasses(RankAtMost, f, before, after);
    Associative(before, [f], after);
  }

  lemma InsertAmongRuns(f: Finding, c: seq<Finding>, w: seq<Finding>, i: seq<Finding>)
    requires forall x :: x in c ==> x.severity == Critical
    requires forall x :: x in w ==> x.severity == Warning
    requires forall x :: x in i ==> x.severity == Info
    ensures Sorting.Insert(RankAtMost, f, c + (w + i))
         == match f.severity
            case Critical => ([f] + c) + (w + i)
            case Warning => c + (([f] + w) + i)
            case Info => c + (w + ([f] + i))
  {
    hide Sorting.Insert, RankAtMost;
    Associative(c, w, i);
    match f.severity {
      case Critical =>
        InsertBetween(f, [], c + (w + i));
        assert [] + (c + (w + i)) == c + (w + i) && [] + ([f] + (c + (w + i))) == [f] + (c + (w + i));
        Associative([f], c, w + i);
      case Warning =>
        assert w + i == [] || (w + i)[0] in w || (w + i)[0] in i;
        InsertBetween(f, c, w + i);
        Associative([f], w, i);
      case Info =>
        assert i == [] || i[0] in i;
        InsertBetween(f, c + w, i);
        Associative(c, w, [f] + i);
    }
  }

  /** The stable sort on severity rank splits the findings into three runs without disturbing any of them. */
  lemma {:induction false} SortIsBySeverity(fs: seq<Finding>)
    ensures Sorting.SortBy(RankAtMost, fs) == BySeverity(fs)
  {
    if fs != [] {
      var rest := fs[1..];
      SortIsBySeverity(rest);
      AllOfSeverity(Critical, rest);
      AllOfSeverity(Warning, rest);
      AllOfSeverity(Info, rest);
      InsertAmongRuns(
        fs[0],
        Filter(HasSeverity(Critical), rest),
        Filter(HasSeverity(Warning), rest),
        Filter(HasSeverity(Info), rest));
      FilterHead(fs, Critical);
      FilterHead(fs, Warning);
      FilterHead(fs, Info);
    }
  }

  lemma FilterHead(fs: seq<Finding>, s: Severity)
    requires fs != []
    ensures Filter(HasSeverity(s), fs)
         == if fs[0].severity == s then [fs[0]] + Filter(HasSeverity(s), fs[1..]) else Filter(HasSeverity(s), fs[1..])
  {
  }

  lemma AllOfSeverity(s: Severity, fs: seq<Finding>)
    ensures forall f :: f in Filter(HasSeverity(s), fs) ==> f.severity == s
  {
    forall f | f in Filter(HasSeverity(s), fs) ensures f.severity == s {
      FilterMembers(HasSeverity(s), fs, f);
    }
  }

  /** No finding is lost, added or changed by the ordering. */
  lemma BySeverityPermutes(fs: seq<Finding>)
    ensures multiset(BySeverity(fs)) == multiset(fs)
  {
    SortIsBySeverity(fs);
    Sorting.SortPermutes(RankAtMost, fs);
  }

  lemma FindingsMembers(plan: Plan, fmt: Format, f: Finding)
    ensures f in Findings(plan, fmt) <==> f in RuleOutputs(plan, fmt)
  {
    BySeverityPermutes(RuleOutputs(plan, fmt));
    SameMembers(Findings(plan, fmt), RuleOutputs(plan, fmt), f);
  }

  // ---------- The engine ----------

  method PromoteAdapterWarnings(plan: Plan) returns (findings: seq<Finding>)
    ensures findings == FlatMap(Promoted, plan.warnings)
  {
    findings := [];
    for i := 0 to |plan.warnings|
      invariant findings == FlatMap(Promoted, plan.warnings[..i])
    {
      FlatMapStep(Promoted, plan.warnings, i);
      findings := findings + [PromotedFinding(plan.warnings[i])];
    }
    assert plan.warnings[..|plan.warnings|] == plan.warnings;
  }

  method CheckLargeScans(root: Operator, fmt: Format) returns (findings: seq<Finding>)
    ensures findings == FlatMap(LargeScan(fmt), Walk(root))
  {
    findings := [];
    var nodes := Walk(root);
    for i := 0 to |nodes|
      invariant findings == FlatMap(LargeScan(fmt), nodes[..i])
    {
      FlatMapStep(LargeScan(fmt), nodes, i);
      var op := nodes[i];
      if op.accessType != Some(Scan) && op.accessType != Some(FullScan) { continue; }
      var rows := if op.actualRows.Some? then op.actualRows else op.estimatedRows;
      if rows.None? { continue; }
      var severity: Severity;
      if rows.value >= LARGE_SCAN_CRITICAL_ROWS {
        severity := Critical;
      } else if rows.value >= LARGE_SCAN_WARNING_ROWS {
        severity := Warning;
      } else {
        continue;
      }
      findings := findings + [ScanFinding(fmt, op, severity, rows.value)];
    }
    assert nodes[..|nodes|] == nodes;
  }

  method CheckCardinalitySkew(root: Operator, fmt: Format) returns (findings: seq<Finding>)
    ensures findings == FlatMap(Skew(fmt), Walk(root))
  {
    findings := [];
    var nodes := Walk(root);
    for i := 0 to |nodes|
      invariant findings == FlatMap(Skew(fmt), nodes[..i])
    {
      FlatMapStep(Skew(fmt), nodes, i);
      var op := nodes[i];
      var ratio := op.rowEstimateRatio;
      if ratio.None? { continue; }
      var direction: string;
      if ratio.value >= SKEW_RATIO_HIGH {
        direction := "under-estimated";
      } else if ratio.value <= SKEW_RATIO_LOW {
        direction := "over-estimated";
      } else {
        continue;
      }
      findings := findings + [SkewFinding(fmt, op, direction, ratio.value)];
    }
    assert nodes[..|nodes|] == nodes;
  }

  method CheckBookmarkLookups(root: Operator, fmt: Format) returns (findings: seq<Finding>)
    ensures findings == FlatMap(KeyLookup(fmt), Walk(root))
  {
    findings := [];
    var nodes := Walk(root);
    for i := 0 to |nodes|
      invariant findings == FlatMap(KeyLookup(fmt), nodes[..i])
    {
      FlatMapStep(KeyLookup(fmt), nodes, i);
      var op := nodes[i];
      if op.operatorType != BookmarkLookup { continue; }
      findings := findings + [LookupFinding(fmt, op)];
    }
    assert nodes[..|nodes|] == nodes;
  }

  method CheckMissingIndexes(plan: Plan, fmt: Format) returns (findings: seq<Finding>)
    ensures findings == FlatMap(IndexSuggestion(fmt), plan.missingIndexes)
  {
    findings := [];
    for i := 0 to |plan.missingIndexes|
      invariant findings == FlatMap(IndexSuggestion(fmt), plan.missingIndexes[..i])
    {
      FlatMapStep(IndexSuggestion(fmt), plan.missingIndexes, i);
      var mi := plan.missingIndexes[i];
      var script := IndexScript.MissingIndexScript(mi);
      findings := findings + [IndexFinding(fmt, mi, script)];
    }
    assert plan.missingIndexes[..|plan.missingIndexes|] == plan.missingIndexes;
  }

  /** Runs the rules in order and sorts what they found, stably, on severity. */
  method Evaluate(plan: Plan, fmt: Format) returns (findings: seq<Finding>)
    ensures findings == Findings(plan, fmt)
  {
    findings := PromoteAdapterWarnings(plan);
    var scans := CheckLargeScans(plan.root, fmt);
    findings := findings + scans;
    var skews := CheckCardinalitySkew(plan.root, fmt);
    findings := findings + skews;
    var lookups := CheckBookmarkLookups(plan.root, fmt);
    findings := findings + lookups;
    var indexes := CheckMissingIndexes(plan, fmt);
    findings := findings + indexes;
    findings := findings + Parallelism(plan.root);
    findings := Sorting.SortBy(RankAtMost, findings);
    SortIsBySeverity(RuleOutputs(plan, fmt));
  }
}
