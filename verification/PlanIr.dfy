/** The engine-independent plan representation. */
module PlanIr {
  import opened Wrappers

  datatype PlanSource = Estimated | Actual

  datatype ObjectType = AdhocQuery | StoredProcedure | Function | Trigger | View

  datatype StatementType = Select | InsertStatement | Update | Delete | Merge | OtherStatement

  datatype OperatorType =
    TableScan | IndexSeek | IndexScan | BookmarkLookup | JoinNestedLoop | JoinHash | JoinMerge | Sort | Aggregate
    | Other

  datatype JoinType = NestedLoop | Hash | MergeJoin

  datatype AccessType = Seek | Scan | LookupAccess | FullScan

  datatype WarningType =
    ImplicitConversion | TempdbSpill | NoJoinPredicate | ColumnWithNoStats | MemoryGrantExcessive | CardinalitySkew
    | OtherWarning

  datatype Severity = Info | Warning | Critical

  datatype ObjectRef = ObjectRef(schema: Option<string>, table: Option<string>, index: Option<string>)

  /** Every field of an operator but its children. */
  datatype OperatorNode = OperatorNode(
    id: string,
    operatorType: OperatorType,
    physicalOp: string,
    objectRef: Option<ObjectRef>,
    estimatedRows: Option<real>,
    actualRows: Option<real>,
    rowEstimateRatio: Option<real>,
    estimatedCost: Option<real>,
    costPctOfTotal: Option<real>,
    actualDurationMs: Option<real>,
    predicates: seq<string>,
    joinType: Option<JoinType>,
    accessType: Option<AccessType>,
    sortPresent: bool,
    parallel: bool,
    memoryGrantKb: Option<int>,
    tempdbSpill: bool)

  datatype Operator = Operator(node: OperatorNode, children: seq<Operator>)

  datatype PlanWarning = PlanWarning(kind: WarningType, detail: string, operatorId: string)

  datatype MissingIndex = MissingIndex(
    table: string,
    equality: seq<string>,
    inequality: seq<string>,
    included: seq<string>,
    impact: Option<real>)

  datatype PlanMeta = PlanMeta(
    engineVersion: Option<string>,
    planSource: PlanSource,
    objectType: ObjectType,
    objectName: Option<string>,
    databaseName: Option<string>)

  datatype Statement = Statement(
    text: string,
    statementType: StatementType,
    totalCost: Option<real>,
    totalDurationMs: Option<real>,
    totalRows: Option<int>)

  datatype Plan = Plan(
    meta: PlanMeta,
    statement: Statement,
    root: Operator,
    warnings: seq<PlanWarning>,
    missingIndexes: seq<MissingIndex>)

  /** Preorder: an operator, then each child's walk in turn. */
  function Walk(op: Operator): (nodes: seq<OperatorNode>)
    ensures nodes != [] && nodes[0] == op.node
    decreases op, 1
  {
    [op.node] + WalkAll(op.children)
  }

  function WalkAll(ops: seq<Operator>): seq<OperatorNode>
    decreases ops, 0
  {
    if ops == [] then [] else Walk(ops[0]) + WalkAll(ops[1..])
  }

  /** int(x): truncation toward zero. */
  function Truncate(x: real): int {
    if x >= 0.0 then x.Floor else -((-x).Floor)
  }
}
