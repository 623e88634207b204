/** SQL Server showplan XML to the plan representation: what each part of a plan means, and the adapter itself. */
module PlanXmlToIr {
  import opened Wrappers
  import opened Sequences
  import opened Xml
  import opened PlanIr
  import opened OperatorMap
  import Text

  /** parse is Python's float(): None stands for ValueError. */
  datatype Context = Context(parse: string -> Option<real>, source: PlanSource, totalCost: Option<real>)

  datatype ParseOptions = ParseOptions(
    source: PlanSource,
    engineVersion: Option<string>,
    objectType: ObjectType,
    objectName: Option<string>,
    databaseName: Option<string>)

  const NON_WRAPPER_TAGS := {"OutputList", "RunTimeInformation", "Warnings", "RelOp"}

  // ---------- Attributes ----------

  function GetFloat(e: Element, name: string, parse: string -> Option<real>): Result<Option<real>> {
    match Get(e, name)
    case None => Ok(None)
    case Some(text) => match parse(text) case None => ValueError case Some(x) => Ok(Some(x))
  }

  /** The number an attribute holds, if it is there. */
  function Number(e: Element, name: string, parse: string -> Option<real>): Option<real> {
    match GetFloat(e, name, parse) case Ok(x) => x case ValueError => None
  }

  function StripBrackets(s: Option<string>): Option<string> {
    match s case None => None case Some(text) => Some(Text.StripOf(Text.IsBracket, text))
  }

  /** Bracketing a name and stripping it again restores it exactly when it has no bracket at either end. */
  lemma BracketsRestoredExactly(body: string)
    ensures StripBrackets(Some("[" + body + "]")) == Some(body) <==> Text.CleanEnds(Text.IsBracket, body)
    ensures StripBrackets(StripBrackets(Some(body))) == StripBrackets(Some(body))
  {
    Text.StripWrapped(Text.IsBracket, '[', body, ']');
    Text.StripIsClean(Text.IsBracket, body);
    assert "[" + body + "]" == ['['] + body + [']'];
  }

  // ---------- One operator's fields ----------

  predicate IsRelOp(e: Element) {
    e.tag == "RelOp"
  }

  predicate IsDetail(e: Element) {
    e.tag !in NON_WRAPPER_TAGS
  }

  function DetailWrapper(e: Element): Option<Element> {
    First(Filter(IsDetail, e.children))
  }

  function RuntimeInfo(e: Element, source: PlanSource): Option<Element> {
    if source == Actual then Find(e, "RunTimeInformation") else None
  }

  function Counters(info: Option<Element>): seq<Element> {
    match info case None => [] case Some(element) => FindAll(element, "RunTimeCountersPerThread")
  }

  function ValueIn(name: string, parse: string -> Option<real>): Element -> seq<real> {
    (e: Element) => match Number(e, name, parse) case None => [] case Some(x) => [x]
  }

  function Values(es: seq<Element>, name: string, parse: string -> Option<real>): seq<real> {
    FlatMap(ValueIn(name, parse), es)
  }

  function Sum(xs: seq<real>): real {
    if xs == [] then 0.0 else Sum(xs[..|xs| - 1]) + xs[|xs| - 1]
  }

  function Max(xs: seq<real>): (m: real)
    requires xs != []
    ensures m in xs
    ensures forall x :: x in xs ==> x <= m
  {
    if |xs| == 1 then xs[0]
    else
      var m := Max(xs[1..]);
      assert forall x :: x in xs ==> x == xs[0] || x in xs[1..];
      if xs[0] > m then xs[0] else m
  }

  function TotalRows(info: Option<Element>, parse: string -> Option<real>): Option<real> {
    var rows := Values(Counters(info), "ActualRows", parse);
    if rows == [] then None else Some(Sum(rows))
  }

  function MaxDuration(info: Option<Element>, parse: string -> Option<real>): Option<real> {
    var times := Values(Counters(info), "ActualElapsedms", parse);
    if times == [] then None else Some(Max(times))
  }

  /** The duration is some thread's elapsed time, no thread took longer, and it is missing only if all times are. */
  lemma LongestThread(info: Option<Element>, parse: string -> Option<real>)
    ensures var times := MaxDuration(info, parse);
      (times.Some? <==> exists c :: c in Counters(info) && Number(c, "ActualElapsedms", parse).Some?)
      && (times.Some? ==> exists c :: c in Counters(info) && Number(c, "ActualElapsedms", parse) == times)
      && forall c :: c in Counters(info) && Number(c, "ActualElapsedms", parse).Some? ==>
           Number(c, "ActualElapsedms", parse).value <= times.value
  {
    hide Number, Counters;
    var threads, values := Counters(info), Values(Counters(info), "ActualElapsedms", parse);
    forall c | c in threads && Number(c, "ActualElapsedms", parse).Some?
      ensures Number(c, "ActualElapsedms", parse).value in values
    {
      var i :| 0 <= i < |threads| && threads[i] == c;
      var x := Number(c, "ActualElapsedms", parse).value;
      FlatMapMembers(ValueIn("ActualElapsedms", parse), threads, x);
      assert x in ValueIn("ActualElapsedms", parse)(threads[i]);
    }
    if values != [] {
      FlatMapMembers(ValueIn("ActualElapsedms", parse), threads, Max(values));
    }
  }

  function RowEstimateRatio(estimated: Option<real>, actual: Option<real>): Option<real> {
    if estimated.None? || actual.None? || estimated.value == 0.0 then None else Some(actual.value / estimated.value)
  }

  function CostPct(cost: Option<real>, total: Option<real>): Option<real> {
    if cost.None? || total.None? || total.value == 0.0 then None else Some(cost.value / total.value)
  }

  function RefOf(o: Element): ObjectRef {
    ObjectRef(StripBrackets(Get(o, "Schema")), StripBrackets(Get(o, "Table")), StripBrackets(Get(o, "Index")))
  }

  function ObjectRefIn(wrapper: Option<Element>): Option<ObjectRef> {
    if wrapper.None? then None
    else match First(Descendants(wrapper.value, "Object")) case None => None case Some(o) => Some(RefOf(o))
  }

  /** The non-empty ScalarString texts, each at its first occurrence. */
  function ScalarTexts(es: seq<Element>): seq<string> {
    if es == [] then []
    else
      var earlier := ScalarTexts(es[..|es| - 1]);
      match Get(es[|es| - 1], "ScalarString")
      case None => earlier
      case Some(text) => if text != "" && text !in earlier then earlier + [text] else earlier
  }

  predicate HoldsText(e: Element, text: string) {
    Get(e, "ScalarString") == Some(text)
  }

  /** text a is held at p, where text b has not been met yet. */
  predicate MetAt(es: seq<Element>, a: string, b: string, p: int) {
    0 <= p < |es| && HoldsText(es[p], a) && forall q :: 0 <= q <= p ==> !HoldsText(es[q], b)
  }

  /** text a is met before any occurrence of text b. */
  ghost predicate MetBefore(es: seq<Element>, a: string, b: string) {
    exists p :: MetAt(es, a, b, p)
  }

  lemma MetBeforeExtends(es: seq<Element>, e: Element, a: string, b: string)
    requires MetBefore(es, a, b)
    ensures MetBefore(es + [e], a, b)
  {
    var p :| MetAt(es, a, b, p);
    assert MetAt(es + [e], a, b, p);
  }

  lemma MetBeforeLater(es: seq<Element>, e: Element, a: string, b: string)
    requires exists x :: x in es && HoldsText(x, a)
    requires forall x :: x in es ==> !HoldsText(x, b)
    ensures MetBefore(es + [e], a, b)
  {
    var x :| x in es && HoldsText(x, a);
    var p :| 0 <= p < |es| && es[p] == x;
    assert MetAt(es + [e], a, b, p);
  }

  /** The predicate texts are the non-empty ones found, once each, in order of first occurrence. */
  lemma {:induction false} ScalarTextsMeaning(es: seq<Element>)
    ensures Distinct(ScalarTexts(es))
    ensures forall text :: text in ScalarTexts(es) <==> text != "" && exists e :: e in es && HoldsText(e, text)
    ensures forall i, j :: 0 <= i < j < |ScalarTexts(es)| ==> MetBefore(es, ScalarTexts(es)[i], ScalarTexts(es)[j])
  {
    if es != [] {
      var init, last := es[..|es| - 1], es[|es| - 1];
      var earlier, texts := ScalarTexts(init), ScalarTexts(es);
      ScalarTextsMeaning(init);
      assert es == init + [last];
      assert forall text :: HoldsText(last, text) <==> Get(last, "ScalarString") == Some(text);
      assert forall e :: e in es <==> e in init || e == last;
      forall i, j | 0 <= i < j < |texts| ensures MetBefore(es, texts[i], texts[j]) {
        if j < |earlier| {
          MetBeforeExtends(init, last, texts[i], texts[j]);
        } else {
          assert texts[i] in earlier && texts[j] !in earlier;
          MetBeforeLater(init, last, texts[i], texts[j]);
        }
      }
    }
  }

  function ScalarOperators(wrapper: Option<Element>): seq<Element> {
    if wrapper.None? then [] else Descendants(wrapper.value, "ScalarOperator")
  }

  function Pairs(attributes: seq<(string, string)>): seq<string> {
    seq(|attributes|, i requires 0 <= i < |attributes| => attributes[i].0 + "=" + attributes[i].1)
  }

  function WarningDetail(e: Element): string {
    if e.attributes != [] then Text.Join(", ", Pairs(e.attributes)) else e.tag
  }

  function WarningFrom(id: string): Element -> seq<PlanWarning> {
    (e: Element) => [PlanWarning(WarningOf(e.tag), WarningDetail(e), id)]
  }

  function WarningElements(e: Element): seq<Element> {
    match Find(e, "Warnings") case None => [] case Some(w) => w.children
  }

  /** The warnings a RelOp carries itself, tagged with its id. */
  function OwnWarnings(e: Element, id: string): seq<PlanWarning> {
    FlatMap(WarningFrom(id), WarningElements(e))
  }

  predicate IsLookup(e: Element) {
    DetailWrapper(e).Some? && Get(DetailWrapper(e).value, "Lookup") == Some("1")
  }

  predicate IsSpill(w: PlanWarning) {
    w.kind == TempdbSpill
  }

  function NodeOf(e: Element, ctx: Context, id: string): OperatorNode {
    var wrapper := DetailWrapper(e);
    var physicalOp, logicalOp := GetOrEmpty(e, "PhysicalOp"), GetOrEmpty(e, "LogicalOp");
    var estimatedRows := Number(e, "EstimateRows", ctx.parse);
    var estimatedCost := Number(e, "EstimatedTotalSubtreeCost", ctx.parse);
    var actualRows := TotalRows(RuntimeInfo(e, ctx.source), ctx.parse);
    OperatorNode(
      id,
      MapOperatorType(physicalOp, logicalOp, IsLookup(e)),
      physicalOp,
      ObjectRefIn(wrapper),
      estimatedRows,
      actualRows,
      RowEstimateRatio(estimatedRows, actualRows),
      estimatedCost,
      CostPct(estimatedCost, ctx.totalCost),
      MaxDuration(RuntimeInfo(e, ctx.source), ctx.parse),
      ScalarTexts(ScalarOperators(wrapper)),
      MapJoinType(physicalOp, logicalOp),
      MapAccessType(physicalOp, IsLookup(e)),
      wrapper.Some? && wrapper.value.tag == "Sort",
      Get(e, "Parallel") == Some("1"),
      None,
      exists w :: w in OwnWarnings(e, id) && IsSpill(w))
  }

  /** NodeOf, field by field, for proofs that need only a few of them. */
  lemma NodeFields(e: Element, ctx: Context, id: string)
    ensures var node := NodeOf(e, ctx, id); var op, logical := GetOrEmpty(e, "PhysicalOp"), GetOrEmpty(e, "LogicalOp");
      node.id == id
      && node.operatorType == MapOperatorType(op, logical, IsLookup(e))
      && node.physicalOp == op
      && node.objectRef == ObjectRefIn(DetailWrapper(e))
      && node.predicates == ScalarTexts(ScalarOperators(DetailWrapper(e)))
      && node.joinType == MapJoinType(op, logical)
      && node.accessType == MapAccessType(op, IsLookup(e))
      && node.estimatedRows == Number(e, "EstimateRows", ctx.parse)
      && node.actualRows == TotalRows(RuntimeInfo(e, ctx.source), ctx.parse)
      && node.rowEstimateRatio == RowEstimateRatio(node.estimatedRows, node.actualRows)
      && node.estimatedCost == Number(e, "EstimatedTotalSubtreeCost", ctx.parse)
      && node.costPctOfTotal == CostPct(node.estimatedCost, ctx.totalCost)
      && node.parallel == (Get(e, "Parallel") == Some("1"))
      && node.memoryGrantKb == None
      && (node.tempdbSpill <==> exists w :: w in OwnWarnings(e, id) && IsSpill(w))
  {
    hide MapOperatorType, MapAccessType, MapJoinType, IsLookup, Number, TotalRows, RuntimeInfo, RowEstimateRatio,
      CostPct, OwnWarnings, ObjectRefIn, ScalarTexts, ScalarOperators, MaxDuration, GetOrEmpty, DetailWrapper;
  }

  /** Every number the adapter reads for this RelOp parses. */
  predicate Readable(e: Element, ctx: Context) {
    GetFloat(e, "EstimateRows", ctx.parse).Ok?
    && GetFloat(e, "EstimatedTotalSubtreeCost", ctx.parse).Ok?
    && AllParse(Counters(RuntimeInfo(e, ctx.source)), "ActualRows", ctx.parse)
    && AllParse(Counters(RuntimeInfo(e, ctx.source)), "ActualElapsedms", ctx.parse)
  }

  predicate AllParse(es: seq<Element>, name: string, parse: string -> Option<real>) {
    forall e :: e in es ==> GetFloat(e, name, parse).Ok?
  }

  // ---------- The operator tree ----------

  /** All RelOps at or below the given elements, in document order. */
  function RelOpsIn(es: seq<Element>): seq<Element> {
    Filter(IsRelOp, Below(es))
  }

  predicate HasOwnId(e: Element) {
    Truthy(Get(e, "NodeId"))
  }

  function IdFor(e: Element, next: nat): string {
    if HasOwnId(e) then Get(e, "NodeId").value else Text.Decimal(next)
  }

  /** How many of the RelOps draw an id from the counter. */
  function Missing(es: seq<Element>): nat {
    if es == [] then 0 else (if HasOwnId(es[0]) then 0 else 1) + Missing(es[1..])
  }

  /** A RelOp and the id it gets. */
  type NumberedRelOp = (Element, string)

  /** RelOps in document order with their ids, the counter standing at next before the first. */
  function Numbered(es: seq<Element>, next: nat): seq<NumberedRelOp> {
    if es == [] then []
    else [(es[0], IdFor(es[0], next))] + Numbered(es[1..], next + if HasOwnId(es[0]) then 0 else 1)
  }

  /** How a RelOp and its id become an operator's fields. */
  type NodeMaker = (Element, string) -> OperatorNode

  function NodeFrom(ctx: Context): NodeMaker {
    (e: Element, id: string) => NodeOf(e, ctx, id)
  }

  function WarningsFrom(p: NumberedRelOp): seq<PlanWarning> {
    OwnWarnings(p.0, p.1)
  }

  function Nodes(numbered: seq<NumberedRelOp>, make: NodeMaker): seq<OperatorNode> {
    seq(|numbered|, i requires 0 <= i < |numbered| => make(numbered[i].0, numbered[i].1))
  }

  function Warnings(numbered: seq<NumberedRelOp>): seq<PlanWarning> {
    FlatMap(WarningsFrom, numbered)
  }

  /** The nearest RelOps at or below the given elements: descent stops at each RelOp it meets. */
  function DirectRelOps(es: seq<Element>): (ds: seq<Element>)
    ensures |Below(ds)| <= |Below(es)|
  {
    if es == [] then []
    else
      var head := if IsRelOp(es[0]) then [es[0]] else DirectRelOps(es[0].children);
      BelowAppend(head, DirectRelOps(es[1..]));
      assert IsRelOp(es[0]) ==> Below(head) == Subtree(es[0]) + Below([]);
      head + DirectRelOps(es[1..])
  }

  /** The operator built for RelOp e when the counter stands at next. */
  function Tree(e: Element, make: NodeMaker, next: nat): Operator
    decreases |Subtree(e)|, 0
  {
    Operator(
      make(e, IdFor(e, next)),
      Forest(DirectRelOps(e.children), make, next + if HasOwnId(e) then 0 else 1))
  }

  /** Each child's numbering starts after every id drawn inside its earlier siblings. */
  function Forest(es: seq<Element>, make: NodeMaker, next: nat): (ops: seq<Operator>)
    ensures |ops| == |es|
    decreases |Below(es)|, 1
  {
    if es == [] then []
    else [Tree(es[0], make, next)] + Forest(es[1..], make, next + Missing(RelOpsIn([es[0]])))
  }

  // ---------- Missing indexes ----------

  function NameIn(e: Element): seq<string> {
    var name := Get(e, "Name");
    if Truthy(name) then [StripBrackets(name).value] else []
  }

  function ColumnNames(columnGroup: Element): seq<string> {
    FlatMap(NameIn, FindAll(columnGroup, "Column"))
  }

  /** The columns of the last group with this usage. */
  function ColumnsFor(usage: string, columnGroups: seq<Element>): seq<string> {
    if columnGroups == [] then []
    else
      var last := columnGroups[|columnGroups| - 1];
      if Get(last, "Usage") == Some(usage) then ColumnNames(last)
      else ColumnsFor(usage, columnGroups[..|columnGroups| - 1])
  }

  predicate HasUsage(e: Element, usage: string) {
    Get(e, "Usage") == Some(usage)
  }

  /** Of several groups with one usage the last one, at k, counts; with none (k is -1) there are no columns. */
  lemma {:induction false} LastGroupCounts(usage: string, columnGroups: seq<Element>, k: int)
    requires -1 <= k < |columnGroups|
    requires k >= 0 ==> HasUsage(columnGroups[k], usage)
    requires forall j :: k < j < |columnGroups| ==> !HasUsage(columnGroups[j], usage)
    ensures ColumnsFor(usage, columnGroups) == if k >= 0 then ColumnNames(columnGroups[k]) else []
  {
    hide ColumnNames;
    if columnGroups != [] {
      var init, last := columnGroups[..|columnGroups| - 1], columnGroups[|columnGroups| - 1];
      if k < |init| {
        assert !HasUsage(last, usage);
        LastGroupCounts(usage, init, k);
      }
    }
  }

  /** The missing index an element describes. */
  function IndexIn(e: Element, impact: Option<real>): MissingIndex {
    var columnGroups := FindAll(e, "ColumnGroup");
    var table := StripBrackets(Get(e, "Table"));
    MissingIndex(
      if table.Some? then table.value else "",
      ColumnsFor("EQUALITY", columnGroups),
      ColumnsFor("INEQUALITY", columnGroups),
      ColumnsFor("INCLUDE", columnGroups),
      impact)
  }

  function IndexFrom(impact: Option<real>): Element -> seq<MissingIndex> {
    (e: Element) => [IndexIn(e, impact)]
  }

  function IndexesIn(parse: string -> Option<real>): Element -> seq<MissingIndex> {
    (g: Element) => FlatMap(IndexFrom(Number(g, "Impact", parse)), FindAll(g, "MissingIndex"))
  }

  function IndexGroups(queryPlan: Element): seq<Element> {
    match Find(queryPlan, "MissingIndexes") case None => [] case Some(e) => FindAll(e, "MissingIndexGroup")
  }

  function MissingIndexesOf(queryPlan: Element, parse: string -> Option<real>): seq<MissingIndex> {
    FlatMap(IndexesIn(parse), IndexGroups(queryPlan))
  }

  // ---------- The whole plan ----------

  /** The three elements a plan is read from: statement, query plan and root RelOp. */
  function Parts(document: Element): Option<(Element, Element, Element)> {
    match First(Descendants(document, "StmtSimple"))
    case None => None
    case Some(stmt) =>
      match Find(stmt, "QueryPlan")
      case None => None
      case Some(queryPlan) =>
        match Find(queryPlan, "RelOp")
        case None => None
        case Some(relOp) => Some((stmt, queryPlan, relOp))
  }

  function ContextFor(stmt: Element, parse: string -> Option<real>, source: PlanSource): Context {
    Context(parse, source, Number(stmt, "StatementSubTreeCost", parse))
  }

  function GrantElements(queryPlan: Element): seq<Element> {
    match Find(queryPlan, "MemoryGrantInfo") case None => [] case Some(e) => [e]
  }

  /** The plan-wide grant goes on the root operator alone. */
  function WithGrant(root: Operator, queryPlan: Element, parse: string -> Option<real>): Operator {
    var granted := Values(GrantElements(queryPlan), "GrantedMemory", parse);
    if granted == [] then root else root.(node := root.node.(memoryGrantKb := Some(Truncate(granted[0]))))
  }

  predicate HasDatabase(e: Element) {
    Get(e, "Database").Some?
  }

  function DatabaseName(queryPlan: Element): Option<string> {
    match First(Filter(HasDatabase, Descendants(queryPlan, "Object")))
    case None => None
    case Some(o) => StripBrackets(Get(o, "Database"))
  }

  function MapStatementType(raw: string): StatementType {
    if raw == "SELECT" then Select
    else if raw == "INSERT" then InsertStatement
    else if raw == "UPDATE" then Update
    else if raw == "DELETE" then Delete
    else if raw == "MERGE" then Merge
    else OtherStatement
  }

  /** parse_plan_xml raises no ValueError: the three parts exist and every number it reads parses. */
  predicate Parseable(document: Element, parse: string -> Option<real>, source: PlanSource) {
    match Parts(document)
    case None => false
    case Some((stmt, queryPlan, relOp)) =>
      GetFloat(stmt, "StatementSubTreeCost", parse).Ok?
      && (forall e :: e in RelOpsIn([relOp]) ==> Readable(e, ContextFor(stmt, parse, source)))
      && AllParse(GrantElements(queryPlan), "GrantedMemory", parse)
      && AllParse(IndexGroups(queryPlan), "Impact", parse)
  }

  function PlanOf(document: Element, parse: string -> Option<real>, options: ParseOptions): Plan
    requires Parts(document).Some?
  {
    var (stmt, queryPlan, relOp) := Parts(document).value;
    var ctx := ContextFor(stmt, parse, options.source);
    var root := WithGrant(Tree(relOp, NodeFrom(ctx), 1), queryPlan, parse);
    var actual := options.source == Actual;
    Plan(
      PlanMeta(
        options.engineVersion, options.source, options.objectType, options.objectName,
        if options.databaseName.Some? then options.databaseName else DatabaseName(queryPlan)),
      Statement(
        GetOrEmpty(stmt, "StatementText"),
        MapStatementType(GetOrEmpty(stmt, "StatementType")),
        ctx.totalCost,
        if actual then root.node.actualDurationMs else None,
        if actual && root.node.actualRows.Some? then Some(Truncate(root.node.actualRows.value)) else None),
      root,
      Warnings(Numbered(RelOpsIn([relOp]), 1)),
      MissingIndexesOf(queryPlan, parse))
  }
}
