/** The condensed plan summary: identity, totals and the operators where cost concentrates. */
module PlanSummaries {
  import opened Wrappers
  import opened Sequences
  import opened Xml
  import opened PlanIr
  import opened PlanXmlToIr
  import opened Pipeline
  import opened PlanProperties
  import PlanTree
  import RulesEngine
  import Showplan
  import Sorting
  import Text

  datatype OperatorHighlight = OperatorHighlight(
    id: string,
    operatorType: string,
    physicalOp: string,
    objectRef: Option<string>,
    accessType: Option<string>,
    estimatedRows: Option<real>,
    actualRows: Option<real>,
    rowEstimateRatio: Option<real>,
    costPctOfTotal: Option<real>,
    actualDurationMs: Option<real>,
    tempdbSpill: bool,
    parallel: bool)

  datatype PlanSummary = PlanSummary(
    engineVersion: Option<string>,
    databaseName: Option<string>,
    objectType: ObjectType,
    objectName: Option<string>,
    planSource: PlanSource,
    statementType: StatementType,
    statementText: string,
    totalEstimatedCost: Option<real>,
    totalActualDurationMs: Option<real>,
    totalActualRows: Option<int>,
    operatorCount: nat,
    notableOperators: seq<OperatorHighlight>)

  const DEFAULT_MAX_NOTABLE_OPERATORS := 8
  const DEFAULT_MAX_STATEMENT_TEXT_CHARS := 4000

  /** xs[:limit], where a negative limit counts from the end. */
  function Slice<T>(xs: seq<T>, limit: int): seq<T> {
    if limit >= |xs| then xs
    else if limit >= 0 then xs[..limit]
    else if |xs| + limit >= 0 then xs[..|xs| + limit]
    else []
  }

  // ---------- Ranking ----------

  datatype RankKey = RankKey(negatedCost: real, negatedDuration: real, id: string)

  function SortKey(op: OperatorNode): RankKey {
    RankKey(
      -(if op.costPctOfTotal.Some? then op.costPctOfTotal.value else -1.0),
      -(if op.actualDurationMs.Some? then op.actualDurationMs.value else -1.0),
      op.id)
  }

  /** Tuple order. */
  predicate KeyAtMost(a: RankKey, b: RankKey) {
    a.negatedCost < b.negatedCost
    || (a.negatedCost == b.negatedCost
        && (a.negatedDuration < b.negatedDuration
            || (a.negatedDuration == b.negatedDuration && Text.AtMost(a.id, b.id))))
  }

  predicate RanksAtMost(a: OperatorNode, b: OperatorNode) {
    KeyAtMost(SortKey(a), SortKey(b))
  }

  function Ranked(operators: seq<OperatorNode>): seq<OperatorNode> {
    Sorting.SortBy(RanksAtMost, operators)
  }

  function SelectNotable(operators: seq<OperatorNode>, limit: int): seq<OperatorNode> {
    Slice(Ranked(operators), limit)
  }

  // ---------- The summary ----------

  function ObjectText(ref: Option<ObjectRef>): Option<string> {
    if ref.None? then None
    else
      var parts := (if Truthy(ref.value.schema) then [ref.value.schema.value] else [])
                   + (if Truthy(ref.value.table) then [ref.value.table.value] else []);
      if parts == [] then None else Some(Text.Join(".", parts))
  }

  function ToHighlight(op: OperatorNode): OperatorHighlight {
    OperatorHighlight(
      op.id,
      RulesEngine.OperatorTypeValue(op.operatorType),
      op.physicalOp,
      ObjectText(op.objectRef),
      if op.accessType.Some? then Some(RulesEngine.AccessTypeValue(op.accessType.value)) else None,
      op.estimatedRows,
      op.actualRows,
      op.rowEstimateRatio,
      op.costPctOfTotal,
      op.actualDurationMs,
      op.tempdbSpill,
      op.parallel)
  }

  function Highlights(ops: seq<OperatorNode>): seq<OperatorHighlight> {
    Map(ToHighlight, ops)
  }

  function Summarize(plan: Plan, maxNotable: int, maxChars: int): PlanSummary {
    var operators := Walk(plan.root);
    var text := plan.statement.text;
    PlanSummary(
      plan.meta.engineVersion,
      plan.meta.databaseName,
      plan.meta.objectType,
      plan.meta.objectName,
      plan.meta.planSource,
      plan.statement.statementType,
      if |text| > maxChars then Slice(text, maxChars) + " ...[truncated]" else text,
      plan.statement.totalCost,
      plan.statement.totalDurationMs,
      plan.statement.totalRows,
      |operators|,
      Highlights(SelectNotable(operators, maxNotable)))
  }

  function CostOrMissing(op: OperatorNode): real {
    if op.costPctOfTotal.Some? then op.costPctOfTotal.value else -1.0
  }

  function DurationOrMissing(op: OperatorNode): real {
    if op.actualDurationMs.Some? then op.actualDurationMs.value else -1.0
  }

  /** Operators rank by cost share, larger first, then by duration, longer first, then by id. */
  lemma RankOrder(a: OperatorNode, b: OperatorNode)
    ensures RanksAtMost(a, b)
       <==> CostOrMissing(a) > CostOrMissing(b)
            || (CostOrMissing(a) == CostOrMissing(b)
                && (DurationOrMissing(a) > DurationOrMissing(b)
                    || (DurationOrMissing(a) == DurationOrMissing(b) && Text.AtMost(a.id, b.id))))
  {
  }

  function AccessText(access: AccessType): string {
    match access
    case Seek => "seek"
    case Scan => "scan"
    case LookupAccess => "bookmark_lookup"
    case FullScan => "full_scan"
  }

  /** schema.table, or the one of them there is. */
  predicate NamesObject(text: Option<string>, ref: Option<ObjectRef>) {
    var schema := if ref.Some? && ref.value.schema.Some? then ref.value.schema.value else "";
    var table := if ref.Some? && ref.value.table.Some? then ref.value.table.value else "";
    text
    == if schema != "" && table != "" then Some(schema + "." + table)
       else if schema != "" then Some(schema)
       else if table != "" then Some(table)
       else None
  }

  /** The highlight says of an operator what the operator is. */
  predicate Highlighted(h: OperatorHighlight, op: OperatorNode) {
    h.id == op.id
    && h.operatorType == Showplan.TypeText(op.operatorType)
    && h.physicalOp == op.physicalOp
    && NamesObject(h.objectRef, op.objectRef)
    && h.accessType == (match op.accessType case None => None case Some(access) => Some(AccessText(access)))
    && h.estimatedRows == op.estimatedRows
    && h.actualRows == op.actualRows
    && h.rowEstimateRatio == op.rowEstimateRatio
    && h.costPctOfTotal == op.costPctOfTotal
    && h.actualDurationMs == op.actualDurationMs
    && (h.tempdbSpill <==> op.tempdbSpill)
    && (h.parallel <==> op.parallel)
  }

  lemma HighlightShows(op: OperatorNode)
    ensures Highlighted(ToHighlight(op), op)
  {
    TypeTextAgrees(op.operatorType);
    var ref := op.objectRef;
    if ref.Some? && Truthy(ref.value.schema) && Truthy(ref.value.table) {
      var s, t := ref.value.schema.value, ref.value.table.value;
      assert [s] + [t] == [s, t] && [s, t][1..] == [t];
      assert Text.Join(".", [s, t]) == s + "." + t;
    }
  }

  /**
   * A summary in full: the plan's own figures, the number of its operators,
   * its text cut at 4000 characters, and its eight top operators, or all.
   */
  lemma SummaryShows(plan: Plan)
    ensures var s, nodes :=
        Summarize(plan, DEFAULT_MAX_NOTABLE_OPERATORS, DEFAULT_MAX_STATEMENT_TEXT_CHARS), Walk(plan.root);
      s.engineVersion == plan.meta.engineVersion
      && s.databaseName == plan.meta.databaseName
      && s.objectType == plan.meta.objectType
      && s.objectName == plan.meta.objectName
      && s.planSource == plan.meta.planSource
      && s.statementType == plan.statement.statementType
      && s.statementText
        == (if |plan.statement.text| <= 4000 then plan.statement.text
            else plan.statement.text[..4000] + " ...[truncated]")
      && s.totalEstimatedCost == plan.statement.totalCost
      && s.totalActualDurationMs == plan.statement.totalDurationMs
      && s.totalActualRows == plan.statement.totalRows
      && s.operatorCount == |nodes|
      && |s.notableOperators| == (if |nodes| <= 8 then |nodes| else 8)
      && |Ranked(nodes)| == |nodes|
      && forall k :: 0 <= k < |s.notableOperators| ==> Highlighted(s.notableOperators[k], Ranked(nodes)[k])
  {
    hide Walk, Ranked, Highlighted, ToHighlight;
    var nodes := Walk(plan.root);
    RankedSize(nodes);
    forall op ensures Highlighted(ToHighlight(op), op) {
      HighlightShows(op);
    }
  }

  lemma RankedSize(nodes: seq<OperatorNode>)
    ensures |Ranked(nodes)| == |nodes|
  {
    Sorting.SortPermutes(RanksAtMost, nodes);
  }

  // ---------- Selection ----------

  lemma KeyOrder(a: RankKey, b: RankKey, c: RankKey)
    ensures KeyAtMost(a, b) || KeyAtMost(b, a)
    ensures KeyAtMost(a, b) && KeyAtMost(b, a) ==> a == b
    ensures KeyAtMost(a, b) && KeyAtMost(b, c) ==> KeyAtMost(a, c)
  {
    Text.AtMostTotal(a.id, b.id);
    if Text.AtMost(a.id, b.id) && Text.AtMost(b.id, c.id) {
      Text.AtMostTransitive(a.id, b.id, c.id);
    }
  }

  lemma RankingIsTotal()
    ensures Sorting.TotalPreorder(RanksAtMost)
  {
    forall a, b ensures RanksAtMost(a, b) || RanksAtMost(b, a) {
      KeyOrder(SortKey(a), SortKey(b), SortKey(b));
    }
    forall a, b, c | RanksAtMost(a, b) && RanksAtMost(b, c) ensures RanksAtMost(a, c) {
      KeyOrder(SortKey(a), SortKey(b), SortKey(c));
    }
  }

  function Min(a: int, b: int): int {
    if a < b then a else b
  }

  /** The selection is the sorted top of the operators: right size, in rank order, beaten by nothing left out. */
  lemma TopOperators(operators: seq<OperatorNode>, limit: nat) returns (rest: seq<OperatorNode>)
    ensures |SelectNotable(operators, limit)| == Min(limit, |operators|)
    ensures Sorting.Sorted(RanksAtMost, SelectNotable(operators, limit))
    ensures multiset(SelectNotable(operators, limit)) + multiset(rest) == multiset(operators)
    ensures forall s, r :: s in SelectNotable(operators, limit) && r in rest ==> RanksAtMost(s, r)
  {
    hide RanksAtMost, Sorting.SortBy;
    var ranked, selected := Ranked(operators), SelectNotable(operators, limit);
    RankingIsTotal();
    Sorting.SortSorts(RanksAtMost, operators);
    Sorting.SortPermutes(RanksAtMost, operators);
    rest := ranked[|selected|..];
    assert ranked == selected + rest;
  }

  /** No two operators share an id. */
  ghost predicate IdsIdentify(ops: seq<OperatorNode>) {
    forall a, b :: a in ops && b in ops && a.id == b.id ==> a == b
  }

  /** The operators with a cost share come before those without one. */
  ghost predicate NullsLast(ops: seq<OperatorNode>) {
    forall i, j :: 0 <= i < j < |ops| && ops[i].costPctOfTotal.None? ==> ops[j].costPctOfTotal.None?
  }

  /**
   * a, which has a share, ranks before b, which has none: a missing share
   * stands at -1.0, and operators that tie throughout stay as listed.
   */
  predicate AheadOfMissing(a: OperatorNode, b: OperatorNode, listedFirst: bool)
    requires a.costPctOfTotal.Some?
  {
    var x, d, e := a.costPctOfTotal.value, DurationOrMissing(a), DurationOrMissing(b);
    x > -1.0
    || (x == -1.0 && (d > e || (d == e && Text.AtMost(a.id, b.id) && (a.id != b.id || listedFirst))))
  }

  lemma RankAgainstMissing(a: OperatorNode, b: OperatorNode)
    requires a.costPctOfTotal.Some? && b.costPctOfTotal.None?
    ensures AheadOfMissing(a, b, false) <==> !RanksAtMost(b, a)
    ensures AheadOfMissing(a, b, true) <==> RanksAtMost(a, b)
    ensures AheadOfMissing(a, b, true) && !AheadOfMissing(a, b, false) <==> SortKey(a) == SortKey(b)
  {
    Text.AtMostTotal(a.id, b.id);
    Text.AtMostTotal(a.id, a.id);
  }

  function TiedWith(op: OperatorNode): OperatorNode -> bool {
    (other: OperatorNode) => SortKey(other) == SortKey(op)
  }

  /** b is ranked before a: either a ranks strictly later, or they tie and b was listed first. */
  lemma RankedBefore(ops: seq<OperatorNode>, b: OperatorNode, a: OperatorNode)
    requires a in ops && b in ops && a != b
    ensures !RanksAtMost(a, b) ==> Sorting.InOrder(Ranked(ops), b, a)
    ensures !RanksAtMost(b, a) ==> !Sorting.InOrder(Ranked(ops), b, a)
    ensures SortKey(a) == SortKey(b) ==>
              (Sorting.InOrder(Ranked(ops), b, a) <==> Sorting.InOrder(ops, b, a))
  {
    hide Sorting.SortBy, SortKey, KeyAtMost;
    var ranked := Ranked(ops);
    RankingIsTotal();
    Sorting.SortSorts(RanksAtMost, ops);
    Sorting.SortPermutes(RanksAtMost, ops);
    SameMembers(ranked, ops, a);
    SameMembers(ranked, ops, b);
    var i :| 0 <= i < |ranked| && ranked[i] == b;
    var j :| 0 <= j < |ranked| && ranked[j] == a;
    if !RanksAtMost(a, b) {
      assert i < j;
    }
    if SortKey(a) == SortKey(b) {
      KeyOrder(SortKey(a), SortKey(a), SortKey(a));
      Sorting.TiesKeepOrder(RanksAtMost, TiedWith(a), ops, b, a);
    }
  }

  /** Positions p and q hold an operator with a share and one without. */
  predicate MissingPair(ops: seq<OperatorNode>, p: int, q: int) {
    0 <= p < |ops| && 0 <= q < |ops| && ops[p].costPctOfTotal.Some? && ops[q].costPctOfTotal.None?
  }

  /**
   * Missing shares come last exactly when, unless none is missing, every
   * stated share is above -1.0, or at -1.0 and ahead on duration, id or place.
   */
  lemma NullsLastExactly(ops: seq<OperatorNode>)
    ensures NullsLast(Ranked(ops))
       <==> forall p, q :: MissingPair(ops, p, q) ==> AheadOfMissing(ops[p], ops[q], p < q)
  {
    hide Sorting.SortBy, RanksAtMost, AheadOfMissing, SortKey;
    var ranked := Ranked(ops);
    Sorting.SortPermutes(RanksAtMost, ops);
    forall a ensures a in ranked <==> a in ops {
      SameMembers(ranked, ops, a);
    }
    if NullsLast(ranked) {
      forall p, q | MissingPair(ops, p, q) ensures AheadOfMissing(ops[p], ops[q], p < q) {
        RankAgainstMissing(ops[p], ops[q]);
        RankedBefore(ops, ops[q], ops[p]);
        assert !Sorting.InOrder(ranked, ops[q], ops[p]);
        assert q < p ==> Sorting.InOrder(ops, ops[q], ops[p]);
      }
    } else {
      var i, j :| 0 <= i < j < |ranked| && ranked[i].costPctOfTotal.None? && ranked[j].costPctOfTotal.Some?;
      var b, a := ranked[i], ranked[j];
      assert Sorting.InOrder(ranked, b, a) && a in ranked && b in ranked;
      var p, q := PairNotAhead(ops, a, b);
      assert MissingPair(ops, p, q);
    }
  }

  /** Where b ranks before a, some places of theirs in the list show it. */
  lemma PairNotAhead(ops: seq<OperatorNode>, a: OperatorNode, b: OperatorNode) returns (p: int, q: int)
    requires a in ops && b in ops && a.costPctOfTotal.Some? && b.costPctOfTotal.None?
    requires Sorting.InOrder(Ranked(ops), b, a)
    ensures MissingPair(ops, p, q) && !AheadOfMissing(ops[p], ops[q], p < q)
  {
    hide Sorting.SortBy, RanksAtMost, AheadOfMissing, SortKey;
    RankAgainstMissing(a, b);
    RankedBefore(ops, b, a);
    if SortKey(a) == SortKey(b) {
      q, p :| 0 <= q < p < |ops| && ops[q] == b && ops[p] == a;
    } else {
      p :| 0 <= p < |ops| && ops[p] == a;
      q :| 0 <= q < |ops| && ops[q] == b;
    }
  }

  function RankKeys(ops: seq<OperatorNode>): seq<RankKey> {
    Map(SortKey, ops)
  }

  /** However the operators are listed, the ranked keys are the same. */
  lemma RankedKeysUnique(xs: seq<OperatorNode>, ys: seq<OperatorNode>)
    requires multiset(xs) == multiset(ys)
    ensures RankKeys(Ranked(xs)) == RankKeys(Ranked(ys))
  {
    RankingIsTotal();
    Sorting.SortSorts(RanksAtMost, xs);
    Sorting.SortSorts(RanksAtMost, ys);
    Sorting.SortPermutes(RanksAtMost, xs);
    Sorting.SortPermutes(RanksAtMost, ys);
    MapPermuted(SortKey, Ranked(xs), Ranked(ys));
    forall a, b | KeyAtMost(a, b) && KeyAtMost(b, a) ensures a == b {
      KeyOrder(a, b, b);
    }
    forall a ensures KeyAtMost(a, a) {
      KeyOrder(a, a, a);
    }
    SortedKeys(Ranked(xs));
    SortedKeys(Ranked(ys));
    Sorting.SortedUnique(KeyAtMost, RankKeys(Ranked(xs)), RankKeys(Ranked(ys)));
  }

  lemma SortedKeys(ops: seq<OperatorNode>)
    requires Sorting.Sorted(RanksAtMost, ops)
    ensures Sorting.Sorted(KeyAtMost, RankKeys(ops))
  {
    forall i, j | 0 <= i < j < |ops| ensures KeyAtMost(RankKeys(ops)[i], RankKeys(ops)[j]) {
      assert RanksAtMost(ops[i], ops[j]);
    }
  }

  /**
   * The selection does not depend on the order the operators are listed in:
   * its ranks never do, and when ids identify operators neither do the
   * operators themselves.
   */
  lemma SelectionIsOrderFree(xs: seq<OperatorNode>, ys: seq<OperatorNode>, limit: int)
    requires multiset(xs) == multiset(ys)
    ensures RankKeys(SelectNotable(xs, limit)) == RankKeys(SelectNotable(ys, limit))
    ensures IdsIdentify(xs) ==> SelectNotable(xs, limit) == SelectNotable(ys, limit)
  {
    var a, b := Ranked(xs), Ranked(ys);
    RankedKeysUnique(xs, ys);
    assert |a| == |RankKeys(a)| == |RankKeys(b)| == |b|;
    SliceOfKeys(a, limit);
    SliceOfKeys(b, limit);
    if IdsIdentify(xs) {
      Sorting.SortPermutes(RanksAtMost, xs);
      Sorting.SortPermutes(RanksAtMost, ys);
      forall k | 0 <= k < |a| ensures a[k] == b[k] {
        SameMembers(a, xs, a[k]);
        SameMembers(b, xs, b[k]);
        assert RankKeys(a)[k].id == a[k].id && RankKeys(b)[k].id == b[k].id;
      }
      assert a == b;
    }
  }

  /** Ids identify the operators of a plan whose ids are all distinct. */
  lemma PlanIdsIdentify(document: Element, parse: string -> Option<real>, options: ParseOptions)
    requires Parts(document).Some? && Distinct(PlanTree.Ids(PlanRelOps(document)))
    ensures IdsIdentify(Walk(PlanOf(document, parse, options).root))
  {
    hide Walk, PlanRelOps, PlanOf;
    var nodes := Walk(PlanOf(document, parse, options).root);
    forall a, b | a in nodes && b in nodes && a.id == b.id ensures a == b {
      if a != b {
        DistinctNodes(document, parse, options, a, b);
      }
    }
  }

  lemma SliceOfKeys(ops: seq<OperatorNode>, limit: int)
    ensures RankKeys(Slice(ops, limit)) == Slice(RankKeys(ops), limit)
  {
  }

  // ---------- Ancestors ----------

  /** inner is root or lies somewhere under it. */
  predicate Within(root: Operator, inner: Operator) {
    inner == root || exists c :: c in root.children && Within(c, inner)
  }

  /** Subtree costs are known everywhere and strictly fall from parent to child. */
  predicate CostsFall(op: Operator) {
    op.node.estimatedCost.Some?
    && forall c :: c in op.children ==> CostsFall(c) && c.node.estimatedCost.value < op.node.estimatedCost.value
  }

  lemma {:induction false} WithinWalk(root: Operator, inner: Operator)
    requires Within(root, inner)
    ensures inner.node in Walk(root)
    decreases root
  {
    if inner != root {
      var c :| c in root.children && Within(c, inner);
      WithinWalk(c, inner);
      ChildWalk(root.children, c, inner.node);
    }
  }

  lemma {:induction false} ChildWalk(ops: seq<Operator>, c: Operator, node: OperatorNode)
    requires c in ops && node in Walk(c)
    ensures node in WalkAll(ops)
  {
    if c != ops[0] {
      ChildWalk(ops[1..], c, node);
    }
  }

  lemma {:induction false} CostsFallWithin(root: Operator, inner: Operator)
    requires CostsFall(root) && Within(root, inner)
    ensures CostsFall(inner)
    decreases root
  {
    if inner != root {
      var c :| c in root.children && Within(c, inner);
      CostsFallWithin(c, inner);
    }
  }

  lemma ShareOfNode(document: Element, parse: string -> Option<real>, options: ParseOptions, node: OperatorNode)
    requires Parts(document).Some?
    requires node in Walk(PlanOf(document, parse, options).root)
    ensures node.costPctOfTotal == CostPct(node.estimatedCost, PlanOf(document, parse, options).statement.totalCost)
  {
    hide Walk, PlanRelOps, NodeOf, Tree, WithGrant, CostPct;
    var plan := PlanOf(document, parse, options);
    var nodes := Walk(plan.root);
    PlanSize(document, parse, options);
    var i :| 0 <= i < |nodes| && nodes[i] == node;
    WalkOfPlan(document, parse, options, i);
    var (e, id) := PlanRelOps(document)[i];
    NodeFields(e, PlanContext(document, parse, options.source), id);
    assert node.(memoryGrantKb := None).costPctOfTotal == node.costPctOfTotal;
    assert node.(memoryGrantKb := None).estimatedCost == node.estimatedCost;
  }

  lemma ShareMeaning(cost: Option<real>, total: Option<real>)
    ensures var share := CostPct(cost, total);
      (share.Some? <==> cost.Some? && total.Some? && total.value != 0.0)
      && (share.Some? ==> share.value * total.value == cost.value)
  {
  }

  /**
   * Every cost share in a built plan is the operator's subtree cost over the
   * statement's: times the statement's cost it is the subtree cost, and it is
   * missing exactly when a cost is missing or the statement's is 0.
   */
  lemma CostShares(document: Element, parse: string -> Option<real>, options: ParseOptions, node: OperatorNode)
    requires Parts(document).Some?
    requires node in Walk(PlanOf(document, parse, options).root)
    ensures var cost, total, share :=
        node.estimatedCost, PlanOf(document, parse, options).statement.totalCost, node.costPctOfTotal;
      (share.Some? <==> cost.Some? && total.Some? && total.value != 0.0)
      && (share.Some? ==> share.value * total.value == cost.value)
  {
    hide PlanOf, Walk, CostPct, Parts;
    ShareOfNode(document, parse, options, node);
    ShareMeaning(node.estimatedCost, PlanOf(document, parse, options).statement.totalCost);
  }

  /** An operator that strictly outranks a selected one is selected. */
  lemma OutrankingSelected(nodes: seq<OperatorNode>, limit: int, p: OperatorNode, c: OperatorNode)
    requires p in nodes && c in SelectNotable(nodes, limit)
    requires !RanksAtMost(c, p)
    ensures p in SelectNotable(nodes, limit)
  {
    hide RanksAtMost, Sorting.SortBy;
    var ranked, selected := Ranked(nodes), SelectNotable(nodes, limit);
    RankingIsTotal();
    Sorting.SortSorts(RanksAtMost, nodes);
    Sorting.SortPermutes(RanksAtMost, nodes);
    SameMembers(ranked, nodes, p);
    var j :| 0 <= j < |selected| && selected[j] == c;
    var q :| 0 <= q < |ranked| && ranked[q] == p;
    if q >= |selected| {
      assert RanksAtMost(ranked[j], ranked[q]);
    } else {
      assert selected[q] == p;
    }
  }

  lemma SmallerShareRanksLater(p: OperatorNode, c: OperatorNode, total: real)
    requires total > 0.0
    requires p.estimatedCost.Some? && c.estimatedCost.Some? && c.estimatedCost.value < p.estimatedCost.value
    requires p.costPctOfTotal == CostPct(p.estimatedCost, Some(total))
    requires c.costPctOfTotal == CostPct(c.estimatedCost, Some(total))
    ensures !RanksAtMost(c, p)
  {
    var x, y := c.estimatedCost.value / total, p.estimatedCost.value / total;
    assert y - x == (p.estimatedCost.value - c.estimatedCost.value) / total;
    assert x < y;
  }

  /**
   * When subtree costs strictly fall from parent to child and the statement
   * cost is positive, a selected operator's parent is selected too.
   */
  lemma ParentSelected(
    document: Element, parse: string -> Option<real>, options: ParseOptions, limit: int, p: Operator, c: Operator)
    requires Parts(document).Some?
    requires var plan := PlanOf(document, parse, options);
      CostsFall(plan.root) && plan.statement.totalCost.Some? && plan.statement.totalCost.value > 0.0
      && Within(plan.root, p) && c in p.children && c.node in SelectNotable(Walk(plan.root), limit)
    ensures p.node in SelectNotable(Walk(PlanOf(document, parse, options).root), limit)
  {
    hide PlanOf, Walk, SelectNotable, RanksAtMost;
    var plan := PlanOf(document, parse, options);
    var nodes := Walk(plan.root);
    WithinWalk(plan.root, p);
    CostsFallWithin(plan.root, p);
    SelectedAreOperators(nodes, limit, c.node);
    ShareOfNode(document, parse, options, p.node);
    ShareOfNode(document, parse, options, c.node);
    SmallerShareRanksLater(p.node, c.node, plan.statement.totalCost.value);
    OutrankingSelected(nodes, limit, p.node, c.node);
  }

  lemma SelectedAreOperators(nodes: seq<OperatorNode>, limit: int, n: OperatorNode)
    requires n in SelectNotable(nodes, limit)
    ensures n in nodes
  {
    Sorting.SortPermutes(RanksAtMost, nodes);
    SameMembers(Ranked(nodes), nodes, n);
  }

  /** So whatever is selected, the way up to it from the root is selected as well. */
  lemma {:induction false} AncestorsSelected(
    document: Element, parse: string -> Option<real>, options: ParseOptions, limit: int, a: Operator, c: Operator)
    requires Parts(document).Some?
    requires var plan := PlanOf(document, parse, options);
      CostsFall(plan.root) && plan.statement.totalCost.Some? && plan.statement.totalCost.value > 0.0
      && Within(plan.root, a) && c.node in SelectNotable(Walk(plan.root), limit)
    requires Within(a, c)
    ensures a.node in SelectNotable(Walk(PlanOf(document, parse, options).root), limit)
    decreases a
  {
    hide PlanOf, Walk, SelectNotable, CostsFall;
    if c != a {
      var k :| k in a.children && Within(k, c);
      WithinStep(PlanOf(document, parse, options).root, a, k);
      AncestorsSelected(document, parse, options, limit, k, c);
      ParentSelected(document, parse, options, limit, a, k);
    }
  }

  lemma {:induction false} WithinStep(root: Operator, a: Operator, k: Operator)
    requires Within(root, a) && k in a.children
    ensures Within(root, k)
    decreases root
  {
    if a == root {
      assert Within(k, k);
    } else {
      var c :| c in root.children && Within(c, a);
      WithinStep(c, a, k);
    }
  }

  // ---------- Ancestors in the document ----------

  function SubtreeCost(e: Element, parse: string -> Option<real>): Option<real> {
    Number(e, "EstimatedTotalSubtreeCost", parse)
  }

  /** Every RelOp from this one down states a subtree cost, and the nearest RelOps under it smaller ones. */
  ghost predicate CostsFallInXml(relOp: Element, parse: string -> Option<real>) {
    forall e :: e in RelOpsIn([relOp]) ==>
      SubtreeCost(e, parse).Some?
      && forall d :: d in DirectRelOps(e.children) ==>
           SubtreeCost(d, parse).Some? && SubtreeCost(d, parse).value < SubtreeCost(e, parse).value
  }

  lemma CostsFallBelow(e: Element, d: Element, parse: string -> Option<real>)
    requires IsRelOp(e) && CostsFallInXml(e, parse) && d in DirectRelOps(e.children)
    ensures CostsFallInXml(d, parse)
    ensures SubtreeCost(e, parse).Some? && SubtreeCost(d, parse).Some?
    ensures SubtreeCost(d, parse).value < SubtreeCost(e, parse).value
  {
    hide SubtreeCost, RelOpsIn, DirectRelOps;
    PlanTree.RelOpsInOne(e);
    PlanTree.DirectRelOpsCoverAll(e.children);
    assert e in RelOpsIn([e]);
    forall x | x in RelOpsIn([d]) ensures x in RelOpsIn([e]) {
      RelOpsOfMember(DirectRelOps(e.children), d, x);
    }
  }

  lemma {:induction false} RelOpsOfMember(es: seq<Element>, d: Element, x: Element)
    requires d in es && x in RelOpsIn([d])
    ensures x in RelOpsIn(es)
  {
    hide RelOpsIn;
    PlanTree.RelOpsAppend([es[0]], es[1..]);
    assert es == [es[0]] + es[1..];
    if d != es[0] {
      RelOpsOfMember(es[1..], d, x);
    }
  }

  lemma {:induction false} TreeCostsFall(e: Element, ctx: Context, next: nat)
    requires IsRelOp(e) && CostsFallInXml(e, ctx.parse)
    ensures CostsFall(Tree(e, NodeFrom(ctx), next))
    ensures Tree(e, NodeFrom(ctx), next).node.estimatedCost == SubtreeCost(e, ctx.parse)
    decreases |Subtree(e)|, 0
  {
    hide NodeOf, RelOpsIn, DirectRelOps, CostsFallInXml, Forest, CostsFall;
    var children, after := DirectRelOps(e.children), next + if HasOwnId(e) then 0 else 1;
    NodeFields(e, ctx, IdFor(e, next));
    StatesCost(e, ctx.parse);
    PlanTree.DirectRelOpsCoverAll(e.children);
    forall d | d in children
      ensures CostsFallInXml(d, ctx.parse) && SubtreeCost(d, ctx.parse).Some?
      ensures SubtreeCost(d, ctx.parse).value < SubtreeCost(e, ctx.parse).value
    {
      CostsFallBelow(e, d, ctx.parse);
    }
    ForestCostsFall(children, ctx, after, SubtreeCost(e, ctx.parse).value);
    CostsFallStep(Tree(e, NodeFrom(ctx), next));
  }

  lemma StatesCost(e: Element, parse: string -> Option<real>)
    requires IsRelOp(e) && CostsFallInXml(e, parse)
    ensures SubtreeCost(e, parse).Some?
  {
    PlanTree.RelOpsInOne(e);
    assert e in RelOpsIn([e]);
  }

  lemma CostsFallStep(op: Operator)
    requires op.node.estimatedCost.Some?
    requires forall c :: c in op.children ==>
               CostsFall(c) && c.node.estimatedCost.Some? && c.node.estimatedCost.value < op.node.estimatedCost.value
    ensures CostsFall(op)
  {
  }

  lemma {:induction false} ForestCostsFall(es: seq<Element>, ctx: Context, next: nat, bound: real)
    requires forall e :: e in es ==>
               IsRelOp(e) && CostsFallInXml(e, ctx.parse)
               && SubtreeCost(e, ctx.parse).Some? && SubtreeCost(e, ctx.parse).value < bound
    ensures forall c :: c in Forest(es, NodeFrom(ctx), next) ==>
              CostsFall(c) && c.node.estimatedCost.Some? && c.node.estimatedCost.value < bound
    decreases |Below(es)|, 1
  {
    hide NodeFrom, RelOpsIn, CostsFallInXml, CostsFall, SubtreeCost, Tree, Missing, IsRelOp;
    if es != [] {
      assert es[0] in es;
      TreeCostsFall(es[0], ctx, next);
      ForestCostsFall(es[1..], ctx, next + Missing(RelOpsIn([es[0]])), bound);
    }
  }

  lemma {:induction false} OperatorsWithin(root: Operator, inner: Operator)
    requires inner in PlanTree.Operators(root)
    ensures Within(root, inner)
    decreases root
  {
    if inner != root {
      var k := OperatorsInOne(root.children, inner);
      OperatorsWithin(root.children[k], inner);
    }
  }

  lemma {:induction false} OperatorsInOne(ops: seq<Operator>, inner: Operator) returns (k: nat)
    requires inner in PlanTree.OperatorsIn(ops)
    ensures k < |ops| && inner in PlanTree.Operators(ops[k])
  {
    if inner in PlanTree.Operators(ops[0]) {
      k := 0;
    } else {
      k := OperatorsInOne(ops[1..], inner);
      k := k + 1;
    }
  }

  /** The operators of a finished plan: the grant on the root replaces only the root. */
  lemma PlanOperators(document: Element, parse: string -> Option<real>, options: ParseOptions, i: nat)
    requires Parts(document).Some?
    requires i < |RelOpsIn([Parts(document).value.2])|
    ensures var relOps := RelOpsIn([Parts(document).value.2]);
      var ops, n := PlanTree.Operators(PlanOf(document, parse, options).root), |RelOpsIn([relOps[i]])|;
      |ops| == |relOps| && i + n <= |relOps| && ops[i..i + n] == PlanTree.Operators(ops[i])
  {
    hide RelOpsIn, Tree, PlanOf, PlanTree.Operators, Parts, PlanContext;
    var relOp, make := Parts(document).value.2, NodeFrom(PlanContext(document, parse, options.source));
    var root, t := PlanOf(document, parse, options).root, Tree(relOp, make, 1);
    RootIsRelOp(document);
    PlanTree.NestingIsTheDocuments(relOp, make, 1, i);
    PlanTree.RelOpsInOne(relOp);
    RootChildren(document, parse, options);
    SameNesting(root, t, i, |RelOpsIn([RelOpsIn([relOp])[i]])|);
  }

  lemma RootChildren(document: Element, parse: string -> Option<real>, options: ParseOptions)
    requires Parts(document).Some?
    ensures PlanOf(document, parse, options).root.children
         == Tree(Parts(document).value.2, NodeFrom(PlanContext(document, parse, options.source)), 1).children
  {
    hide Tree, NodeFrom, Warnings, MissingIndexesOf, Values;
  }

  lemma SameNesting(root: Operator, t: Operator, i: nat, n: nat)
    requires root.children == t.children && i < |PlanTree.Operators(t)| && i + n <= |PlanTree.Operators(t)|
    requires PlanTree.Operators(t)[i..i + n] == PlanTree.Operators(PlanTree.Operators(t)[i])
    ensures |PlanTree.Operators(root)| == |PlanTree.Operators(t)|
    ensures PlanTree.Operators(root)[i..i + n] == PlanTree.Operators(PlanTree.Operators(root)[i])
  {
    SameBelowRoot(root, t);
    hide PlanTree.Operators;
    var ops, before := PlanTree.Operators(root), PlanTree.Operators(t);
    if i > 0 {
      assert ops[i..i + n] == before[i..i + n] && ops[i] == before[i];
    } else {
      assert |before[0..n]| == |before|;
    }
  }

  lemma SameBelowRoot(a: Operator, b: Operator)
    requires a.children == b.children
    ensures PlanTree.Operators(a) == [a] + PlanTree.Operators(b)[1..]
  {
  }

  /**
   * Of the document: when subtree costs strictly fall and the statement's cost
   * is positive, a RelOp under which a selected RelOp lies is selected too.
   */
  lemma RelOpAncestorsSelected(
    document: Element, parse: string -> Option<real>, options: ParseOptions, limit: int, i: nat, j: nat)
    requires Parts(document).Some?
    requires var (stmt, queryPlan, relOp) := Parts(document).value;
      var es, total := RelOpsIn([relOp]), Number(stmt, "StatementSubTreeCost", parse);
      CostsFallInXml(relOp, parse) && total.Some? && total.value > 0.0
      && i < |es| && i <= j < i + |RelOpsIn([es[i]])|
    requires var nodes := Walk(PlanOf(document, parse, options).root);
      j < |nodes| && nodes[j] in SelectNotable(nodes, limit)
    ensures var nodes := Walk(PlanOf(document, parse, options).root);
      i < |nodes| && nodes[i] in SelectNotable(nodes, limit)
  {
    hide RelOpsIn, Walk, SelectNotable, CostsFallInXml, CostsFall, PlanOf, PlanTree.Operators;
    var root := PlanOf(document, parse, options).root;
    var ops := PlanTree.Operators(root);
    PlanCostsFall(document, parse, options);
    PlanOperators(document, parse, options, i);
    PlanTree.WalkVisitsOperators(root);
    OperatorsWithin(root, ops[i]);
    assert ops[j] == ops[i..i + |RelOpsIn([RelOpsIn([Parts(document).value.2])[i]])|][j - i];
    OperatorsWithin(ops[i], ops[j]);
    AncestorsSelected(document, parse, options, limit, ops[i], ops[j]);
  }

  lemma PlanCostsFall(document: Element, parse: string -> Option<real>, options: ParseOptions)
    requires Parts(document).Some? && CostsFallInXml(Parts(document).value.2, parse)
    ensures var plan := PlanOf(document, parse, options);
      CostsFall(plan.root)
      && plan.statement.totalCost == Number(Parts(document).value.0, "StatementSubTreeCost", parse)
  {
    hide CostsFallInXml, Tree, NodeFrom, RelOpsIn, Warnings, MissingIndexesOf, Values, Number;
    var relOp, ctx := Parts(document).value.2, PlanContext(document, parse, options.source);
    RootIsRelOp(document);
    TreeCostsFall(relOp, ctx, 1);
    CostsFallStep(PlanOf(document, parse, options).root);
  }

  // ---------- A document whose missing share does not come last ----------

  const BELOW_ZERO := Element("RelOp", [("EstimatedTotalSubtreeCost", "-2")], [])
  const LOOPS := Element("NestedLoops", [], [BELOW_ZERO])
  const UNCOSTED := Element("RelOp", [], [LOOPS])
  const UNCOSTED_PLAN := Element("QueryPlan", [], [UNCOSTED])
  const COSTED_STATEMENT := Element("StmtSimple", [("StatementSubTreeCost", "1")], [UNCOSTED_PLAN])
  const NEGATIVE_COST := Element("ShowPlanXML", [], [COSTED_STATEMENT])

  lemma NegativeCostParts()
    ensures Parts(NEGATIVE_COST) == Some((COSTED_STATEMENT, UNCOSTED_PLAN, UNCOSTED))
  {
    PlanTree.BelowOne(COSTED_STATEMENT);
    assert Descendants(NEGATIVE_COST, "StmtSimple")[0] == COSTED_STATEMENT;
    FilterOne(HasTag("QueryPlan"), UNCOSTED_PLAN);
    FilterOne(HasTag("RelOp"), UNCOSTED);
  }

  lemma NegativeCostRelOps()
    ensures RelOpsIn([UNCOSTED]) == [UNCOSTED, BELOW_ZERO]
  {
    hide RelOpsIn;
    PlanTree.RelOpsInOne(UNCOSTED);
    PlanTree.RelOpsInOne(LOOPS);
    PlanTree.RelOpsInOne(BELOW_ZERO);
    PlanTree.NoRelOps();
  }

  /** The operator without a share ranks before the one with share -2.0. */
  lemma NullsLastFails(parse: string -> Option<real>, options: ParseOptions)
    requires parse("1") == Some(1.0) && parse("-2") == Some(-2.0)
    ensures Parts(NEGATIVE_COST).Some?
    ensures !NullsLast(Ranked(Walk(PlanOf(NEGATIVE_COST, parse, options).root)))
  {
    NegativeCostParts();
    hide Parts, PlanOf, Walk, RelOpsIn, NEGATIVE_COST, Ranked;
    var ops := Walk(PlanOf(NEGATIVE_COST, parse, options).root);
    NegativeCostRelOps();
    PlanSize(NEGATIVE_COST, parse, options);
    PlanTree.NumberedLength(RelOpsIn([UNCOSTED]), 1);
    ShareAt(NEGATIVE_COST, parse, options, 0);
    ShareAt(NEGATIVE_COST, parse, options, 1);
    assert ops[0].costPctOfTotal == None && ops[1].costPctOfTotal == Some(-2.0);
    NullsLastExactly(ops);
    assert MissingPair(ops, 1, 0);
  }

  /** The cost share of the i-th operator, read off the i-th RelOp. */
  lemma ShareAt(document: Element, parse: string -> Option<real>, options: ParseOptions, i: nat)
    requires Parts(document).Some? && i < |RelOpsIn([Parts(document).value.2])|
    ensures var nodes, (stmt, queryPlan, relOp) := Walk(PlanOf(document, parse, options).root), Parts(document).value;
      i < |nodes|
      && nodes[i].costPctOfTotal
        == CostPct(SubtreeCost(RelOpsIn([relOp])[i], parse), Number(stmt, "StatementSubTreeCost", parse))
  {
    hide Walk, PlanOf, RelOpsIn, CostPct, Number, Parts, Numbered;
    var es := RelOpsIn([Parts(document).value.2]);
    PlanTree.IdAt(es, 1, i);
    WalkOfPlan(document, parse, options, i);
    var node := Walk(PlanOf(document, parse, options).root)[i];
    var (e, id) := PlanRelOps(document)[i];
    NodeFields(e, PlanContext(document, parse, options.source), id);
    assert node.(memoryGrantKb := None).costPctOfTotal == node.costPctOfTotal;
  }
}
