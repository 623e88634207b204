/** What a showplan document says, read off its elements directly: what adapter and rules are held to. */
module Showplan {
  import opened Wrappers
  import opened Xml
  import opened PlanIr
  import Text

  // ---------- Attributes and children ----------

  /** An attribute's text, empty if it is missing. */
  function TextAt(e: Element, name: string): string {
    if Get(e, name).None? then "" else Get(e, name).value
  }

  function NumberAt(e: Element, name: string, parse: string -> Option<real>): Option<real> {
    if Get(e, name).None? then None else parse(Get(e, name).value)
  }

  /** An attribute's text without brackets around it. */
  function NameAt(e: Element, name: string): Option<string> {
    if Get(e, name).None? then None else Some(Text.StripOf(Text.IsBracket, Get(e, name).value))
  }

  function FirstTagged(tag: string, es: seq<Element>): Option<Element> {
    if es == [] then None else if es[0].tag == tag then Some(es[0]) else FirstTagged(tag, es[1..])
  }

  function AllTagged(tag: string, es: seq<Element>): seq<Element> {
    if es == [] then [] else (if es[0].tag == tag then [es[0]] else []) + AllTagged(tag, es[1..])
  }

  // ---------- A RelOp's detail element ----------

  /** A tag that is none of the four that stand beside a RelOp's detail element. */
  predicate CanBeDetail(tag: string) {
    tag != "OutputList" && tag != "RunTimeInformation" && tag != "Warnings" && tag != "RelOp"
  }

  /** The k-th child is the detail element: the first that can be. */
  predicate DetailAt(e: Element, k: int) {
    0 <= k < |e.children|
    && CanBeDetail(e.children[k].tag)
    && forall j :: 0 <= j < k ==> !CanBeDetail(e.children[j].tag)
  }

  function DetailAmong(es: seq<Element>): Option<Element> {
    if es == [] then None else if CanBeDetail(es[0].tag) then Some(es[0]) else DetailAmong(es[1..])
  }

  function Detail(e: Element): Option<Element> {
    DetailAmong(e.children)
  }

  predicate MarkedLookup(e: Element) {
    Detail(e).Some? && Get(Detail(e).value, "Lookup") == Some("1")
  }

  function ObjectOf(e: Element): Option<ObjectRef> {
    if Detail(e).None? then None
    else
      match FirstTagged("Object", Below(Detail(e).value.children))
      case None => None
      case Some(o) => Some(ObjectRef(NameAt(o, "Schema"), NameAt(o, "Table"), NameAt(o, "Index")))
  }

  function TableOf(e: Element): string {
    var ref := ObjectOf(e);
    if ref.None? || ref.value.table.None? || ref.value.table.value == "" then "unknown table"
    else ref.value.table.value
  }

  /** The texts of the scalar operators among these, those already seen left out. */
  function TextsAmong(es: seq<Element>, seen: seq<string>): seq<string> {
    if es == [] then []
    else
      var text := TextAt(es[0], "ScalarString");
      if es[0].tag == "ScalarOperator" && text != "" && text !in seen
      then [text] + TextsAmong(es[1..], seen + [text])
      else TextsAmong(es[1..], seen)
  }

  function PredicatesOf(e: Element): seq<string> {
    if Detail(e).None? then [] else TextsAmong(Below(Detail(e).value.children), [])
  }

  // ---------- What ran ----------

  /** The counters of the threads that ran a RelOp, in a plan that was run. */
  function ThreadsOf(e: Element, source: PlanSource): seq<Element> {
    if source != Actual then []
    else
      match FirstTagged("RunTimeInformation", e.children)
      case None => []
      case Some(info) => AllTagged("RunTimeCountersPerThread", info.children)
  }

  /** The sum of the numbers under a name, if there are any. */
  function SumAt(es: seq<Element>, name: string, parse: string -> Option<real>): Option<real> {
    if es == [] then None
    else
      var x, rest := NumberAt(es[0], name, parse), SumAt(es[1..], name, parse);
      if x.None? then rest else if rest.None? then x else Some(x.value + rest.value)
  }

  /** The largest of the numbers under a name, if there are any. */
  function MaxAt(es: seq<Element>, name: string, parse: string -> Option<real>): Option<real> {
    if es == [] then None
    else
      var x, rest := NumberAt(es[0], name, parse), MaxAt(es[1..], name, parse);
      if x.None? || (rest.Some? && rest.value >= x.value) then rest else x
  }

  function RowsOf(e: Element, source: PlanSource, parse: string -> Option<real>): Option<real> {
    SumAt(ThreadsOf(e, source), "ActualRows", parse)
  }

  // ---------- Operator names ----------

  function TypeFor(op: string, logical: string, lookup: bool): OperatorType {
    if lookup && (op == "Clustered Index Seek" || op == "Index Seek" || op == "RID Lookup") then BookmarkLookup
    else if op == "Table Scan" then TableScan
    else if op == "Index Seek" || op == "Clustered Index Seek" then IndexSeek
    else if op == "Index Scan" || op == "Clustered Index Scan" then IndexScan
    else if op == "Nested Loops" then JoinNestedLoop
    else if op == "Merge Join" then JoinMerge
    else if op == "Sort" then Sort
    else if op == "Stream Aggregate" then Aggregate
    else if op != "Hash Match" then Other
    else if logical == "Inner Join" || logical == "Left Outer Join" || logical == "Right Outer Join"
            || logical == "Full Outer Join" || logical == "Left Semi Join" || logical == "Left Anti Semi Join"
    then JoinHash
    else if logical == "Aggregate" || logical == "Partial Aggregate" || logical == "Distinct" then Aggregate
    else Other
  }

  function TypeOf(e: Element): OperatorType {
    TypeFor(TextAt(e, "PhysicalOp"), TextAt(e, "LogicalOp"), MarkedLookup(e))
  }

  function TypeText(t: OperatorType): string {
    match t
    case TableScan => "table_scan"
    case IndexSeek => "index_seek"
    case IndexScan => "index_scan"
    case BookmarkLookup => "bookmark_lookup"
    case JoinNestedLoop => "join_nested_loop"
    case JoinHash => "join_hash"
    case JoinMerge => "join_merge"
    case Sort => "sort"
    case Aggregate => "aggregate"
    case Other => "other"
  }

  // ---------- Warnings ----------

  function WarningsOf(e: Element): seq<Element> {
    match FirstTagged("Warnings", e.children) case None => [] case Some(w) => w.children
  }

  /** a=b, c=d */
  function AttributesText(attributes: seq<(string, string)>): string {
    if attributes == [] then ""
    else if |attributes| == 1 then attributes[0].0 + "=" + attributes[0].1
    else attributes[0].0 + "=" + attributes[0].1 + ", " + AttributesText(attributes[1..])
  }

  function WarningText(w: Element): string {
    if w.attributes == [] then w.tag else AttributesText(w.attributes)
  }

  // ---------- An operator as a whole ----------

  function JoinFor(op: string, logical: string): Option<JoinType> {
    if op == "Nested Loops" then Some(NestedLoop)
    else if op == "Merge Join" then Some(MergeJoin)
    else if op == "Hash Match"
            && (logical == "Inner Join" || logical == "Left Outer Join" || logical == "Right Outer Join"
                || logical == "Full Outer Join" || logical == "Left Semi Join" || logical == "Left Anti Semi Join")
    then Some(Hash)
    else None
  }

  function AccessFor(op: string, lookup: bool): Option<AccessType> {
    if lookup then Some(LookupAccess)
    else if Text.Contains(op, "Seek") then Some(Seek)
    else if op == "Table Scan" then Some(FullScan)
    else if Text.Contains(op, "Scan") then Some(Scan)
    else None
  }

  /** One number over another, if both are known and the other is not 0. */
  function Ratio(x: Option<real>, y: Option<real>): Option<real> {
    if x.None? || y.None? || y.value == 0.0 then None else Some(x.value / y.value)
  }

  /** Everything the plan says of one RelOp, but the plan-wide memory grant. */
  function OperatorOf(
    e: Element, id: string, source: PlanSource, total: Option<real>, parse: string -> Option<real>): OperatorNode
  {
    var op, logical := TextAt(e, "PhysicalOp"), TextAt(e, "LogicalOp");
    var estimate, cost := NumberAt(e, "EstimateRows", parse), NumberAt(e, "EstimatedTotalSubtreeCost", parse);
    OperatorNode(
      id,
      TypeFor(op, logical, MarkedLookup(e)),
      op,
      ObjectOf(e),
      estimate,
      RowsOf(e, source, parse),
      Ratio(RowsOf(e, source, parse), estimate),
      cost,
      Ratio(cost, total),
      MaxAt(ThreadsOf(e, source), "ActualElapsedms", parse),
      PredicatesOf(e),
      JoinFor(op, logical),
      AccessFor(op, MarkedLookup(e)),
      Detail(e).Some? && Detail(e).value.tag == "Sort",
      Get(e, "Parallel") == Some("1"),
      None,
      exists w :: w in WarningsOf(e) && w.tag == "SpillToTempDb")
  }

  // ---------- RelOps and their ids ----------

  function RelOpsOf(root: Element): seq<Element> {
    AllTagged("RelOp", Below([root]))
  }

  /** How many state no NodeId. */
  function Blank(es: seq<Element>): nat {
    if es == [] then 0 else (if TextAt(es[0], "NodeId") == "" then 1 else 0) + Blank(es[1..])
  }

  /** The i-th RelOp's id: its NodeId, or how many RelOps up to it state none. */
  function IdOf(es: seq<Element>, i: nat): string
    requires i < |es|
  {
    if TextAt(es[i], "NodeId") != "" then TextAt(es[i], "NodeId") else Text.Decimal(Blank(es[..i]) + 1)
  }

  function WithIds(es: seq<Element>): seq<(Element, string)> {
    seq(|es|, i requires 0 <= i < |es| => (es[i], IdOf(es, i)))
  }

  // ---------- The parts of a document ----------

  /** Statement, query plan and root RelOp. */
  function PartsOf(document: Element): Option<(Element, Element, Element)> {
    var stmt :- FirstTagged("StmtSimple", Below(document.children));
    var queryPlan :- FirstTagged("QueryPlan", stmt.children);
    var relOp :- FirstTagged("RelOp", queryPlan.children);
    Some((stmt, queryPlan, relOp))
  }

  function StatementTypeFor(raw: string): StatementType {
    if raw == "SELECT" then Select
    else if raw == "INSERT" then InsertStatement
    else if raw == "UPDATE" then Update
    else if raw == "DELETE" then Delete
    else if raw == "MERGE" then Merge
    else OtherStatement
  }

  /** The memory granted to the whole plan. */
  function GrantOf(queryPlan: Element, parse: string -> Option<real>): Option<real> {
    match FirstTagged("MemoryGrantInfo", queryPlan.children)
    case None => None
    case Some(e) => NumberAt(e, "GrantedMemory", parse)
  }

  function FirstNaming(es: seq<Element>): Option<string> {
    if es == [] then None
    else if es[0].tag == "Object" && Get(es[0], "Database").Some? then NameAt(es[0], "Database")
    else FirstNaming(es[1..])
  }

  /** The database of the first object that names one. */
  function DatabaseOf(queryPlan: Element): Option<string> {
    FirstNaming(Below(queryPlan.children))
  }

  // ---------- Missing indexes ----------

  function GroupsOf(queryPlan: Element): seq<Element> {
    match FirstTagged("MissingIndexes", queryPlan.children)
    case None => []
    case Some(e) => AllTagged("MissingIndexGroup", e.children)
  }

  function NamesAmong(columns: seq<Element>): seq<string> {
    if columns == [] then []
    else
      (if columns[0].tag == "Column" && TextAt(columns[0], "Name") != ""
       then [NameAt(columns[0], "Name").value] else [])
      + NamesAmong(columns[1..])
  }

  /** The names in the last column group with this usage. */
  function ColumnsUsed(usage: string, es: seq<Element>): seq<string> {
    if es == [] then []
    else if forall g :: g in es[1..] ==> !(g.tag == "ColumnGroup" && Get(g, "Usage") == Some(usage)) then
      if es[0].tag == "ColumnGroup" && Get(es[0], "Usage") == Some(usage) then NamesAmong(es[0].children) else []
    else ColumnsUsed(usage, es[1..])
  }

  function IndexOf(e: Element, impact: Option<real>): MissingIndex {
    var table := NameAt(e, "Table");
    MissingIndex(
      if table.None? then "" else table.value,
      ColumnsUsed("EQUALITY", e.children),
      ColumnsUsed("INEQUALITY", e.children),
      ColumnsUsed("INCLUDE", e.children),
      impact)
  }
}
