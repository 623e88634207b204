/** parse_plan_xml: the adapter's loops and its descent through the document. */
module PlanAdapter {
  import opened Wrappers
  import opened Sequences
  import opened Xml
  import opened PlanIr
  import opened OperatorMap
  import opened PlanXmlToIr
  import opened PlanTree
  import Text

  /** itertools.count(1), shared by the whole descent. */
  class Counter {
    var value: nat

    constructor ()
      ensures value == 1
    {
      value := 1;
    }

    method Next() returns (n: nat)
      modifies this
      ensures n == old(value) && value == old(value) + 1
    {
      n := value;
      value := value + 1;
    }
  }

  /** The list every level of the descent appends its warnings to. */
  class WarningList {
    var items: seq<PlanWarning>

    constructor ()
      ensures items == []
    {
      items := [];
    }

    method Extend(more: seq<PlanWarning>)
      modifies this
      ensures items == old(items) + more
    {
      items := items + more;
    }
  }

  method CollectDirectRelOps(e: Element) returns (result: seq<Element>)
    ensures result == DirectRelOps(e.children)
    decreases e
  {
    hide DirectRelOps, IsRelOp;
    result := [];
    var i := 0;
    assert e.children[0..] == e.children;
    while i < |e.children|
      invariant 0 <= i <= |e.children|
      invariant DirectRelOps(e.children) == result + DirectRelOps(e.children[i..])
    {
      var child := e.children[i];
      DirectRelOpsFrom(e.children, i);
      Associative(
        result, if IsRelOp(child) then [child] else DirectRelOps(child.children), DirectRelOps(e.children[i + 1..]));
      if IsRelOp(child) {
        result := result + [child];
      } else {
        var nested := CollectDirectRelOps(child);
        result := result + nested;
      }
      i := i + 1;
    }
    NoneLeft(e.children);
  }

  method ExtractPredicates(wrapper: Option<Element>) returns (predicates: seq<string>)
    ensures predicates == ScalarTexts(ScalarOperators(wrapper))
  {
    predicates := [];
    var es := ScalarOperators(wrapper);
    var i := 0;
    while i < |es|
      invariant 0 <= i <= |es|
      invariant predicates == ScalarTexts(es[..i])
    {
      assert es[..i + 1][..i] == es[..i];
      var text := Get(es[i], "ScalarString");
      if Truthy(text) && text.value !in predicates {
        predicates := predicates + [text.value];
      }
      i := i + 1;
    }
    assert es[..i] == es;
  }

  method ExtractWarnings(e: Element, id: string) returns (result: seq<PlanWarning>)
    ensures result == OwnWarnings(e, id)
  {
    result := [];
    var es := WarningElements(e);
    var i := 0;
    while i < |es|
      invariant 0 <= i <= |es|
      invariant result == FlatMap(WarningFrom(id), es[..i])
    {
      FlatMapStep(WarningFrom(id), es, i);
      result := result + [PlanWarning(WarningOf(es[i].tag), WarningDetail(es[i]), id)];
      i := i + 1;
    }
    assert es[..i] == es;
  }

  lemma ValuesStep(es: seq<Element>, i: nat, name: string, parse: string -> Option<real>)
    requires i < |es|
    ensures Values(es[..i + 1], name, parse)
         == Values(es[..i], name, parse) + match Number(es[i], name, parse) case None => [] case Some(x) => [x]
  {
    FlatMapStep(ValueIn(name, parse), es, i);
  }

  lemma SumStep(xs: seq<real>, x: real)
    ensures Sum([]) == 0.0
    ensures Sum(xs + [x]) == Sum(xs) + x
  {
    assert (xs + [x])[..|xs|] == xs;
  }

  method SumActualRows(info: Option<Element>, parse: string -> Option<real>) returns (r: Result<Option<real>>)
    ensures r.Ok? <==> AllParse(Counters(info), "ActualRows", parse)
    ensures r.Ok? ==> r.value == TotalRows(info, parse)
  {
    hide Values, Sum, TotalRows, Counters;
    var total, found := 0.0, false;
    var es := Counters(info);
    ghost var seen := [];
    assert seen == Values([], "ActualRows", parse) by { NoValues("ActualRows", parse); }
    SumStep(seen, 0.0);
    var i := 0;
    while i < |es|
      invariant 0 <= i <= |es|
      invariant forall k :: 0 <= k < i ==> GetFloat(es[k], "ActualRows", parse).Ok?
      invariant seen == Values(es[..i], "ActualRows", parse)
      invariant total == Sum(seen)
      invariant found <==> seen != []
    {
      var rows :- GetFloat(es[i], "ActualRows", parse);
      ValuesStep(es, i, "ActualRows", parse);
      if rows.Some? {
        SumStep(seen, rows.value);
        total, found := total + rows.value, true;
        seen := seen + [rows.value];
      } else {
        assert seen + [] == seen;
      }
      i := i + 1;
    }
    assert es[..i] == es;
    TotalRowsOf(info, parse);
    r := Ok(if found then Some(total) else None);
  }

  lemma NoValues(name: string, parse: string -> Option<real>)
    ensures Values([], name, parse) == []
  {
  }

  lemma TotalRowsOf(info: Option<Element>, parse: string -> Option<real>)
    ensures var rows := Values(Counters(info), "ActualRows", parse);
      TotalRows(info, parse) == if rows == [] then None else Some(Sum(rows))
  {
  }

  function MaxActualDuration(info: Option<Element>, parse: string -> Option<real>): Result<Option<real>> {
    if AllParse(Counters(info), "ActualElapsedms", parse) then Ok(MaxDuration(info, parse)) else ValueError
  }

  /** A RelOp's own fields, once its id is known; its warnings are already extracted. */
  method ReadNode(e: Element, ctx: Context, id: string, warnings: seq<PlanWarning>) returns (r: Result<OperatorNode>)
    requires warnings == OwnWarnings(e, id)
    ensures r.Ok? <==> Readable(e, ctx)
    ensures r.Ok? ==> r.value == NodeOf(e, ctx, id)
  {
    var physicalOp, logicalOp := GetOrEmpty(e, "PhysicalOp"), GetOrEmpty(e, "LogicalOp");
    var wrapper := DetailWrapper(e);
    var isLookup := wrapper.Some? && Get(wrapper.value, "Lookup") == Some("1");
    var estimatedRows :- GetFloat(e, "EstimateRows", ctx.parse);
    var estimatedCost :- GetFloat(e, "EstimatedTotalSubtreeCost", ctx.parse);
    var info := RuntimeInfo(e, ctx.source);
    var actualRows :- SumActualRows(info, ctx.parse);
    var duration :- MaxActualDuration(info, ctx.parse);
    var predicates := ExtractPredicates(wrapper);
    r := Ok(OperatorNode(
      id,
      MapOperatorType(physicalOp, logicalOp, isLookup),
      physicalOp,
      ObjectRefIn(wrapper),
      estimatedRows,
      actualRows,
      RowEstimateRatio(estimatedRows, actualRows),
      estimatedCost,
      CostPct(estimatedCost, ctx.totalCost),
      duration,
      predicates,
      MapJoinType(physicalOp, logicalOp),
      MapAccessType(physicalOp, isLookup),
      wrapper.Some? && wrapper.value.tag == "Sort",
      Get(e, "Parallel") == Some("1"),
      None,
      exists w :: w in warnings && IsSpill(w)));
  }

  ghost predicate AllReadable(es: seq<Element>, ctx: Context) {
    forall e :: e in es ==> Readable(e, ctx)
  }

  /** The recursive descent, with its shared counter and its shared warning list. */
  method BuildOperatorTree(e: Element, ctx: Context, counter: Counter, warningsOut: WarningList)
    returns (r: Result<Operator>)
    requires IsRelOp(e)
    modifies counter, warningsOut
    ensures r.Ok? <==> AllReadable(RelOpsIn([e]), ctx)
    ensures r.Ok? ==> r.value == Tree(e, NodeFrom(ctx), old(counter.value))
    ensures r.Ok? ==> counter.value == old(counter.value) + Missing(RelOpsIn([e]))
    ensures r.Ok? ==>
      warningsOut.items == old(warningsOut.items) + Warnings(Numbered(RelOpsIn([e]), old(counter.value)))
    decreases |Subtree(e)|, 0
  {
    hide NodeOf, Readable, Tree, Forest, Missing, Numbered, Warnings, RelOpsIn, OwnWarnings;
    RelOpsInOne(e);
    DirectRelOpsCoverAll(e.children);
    ghost var start := counter.value;
    var id: string;
    var stated := Get(e, "NodeId");
    if Truthy(stated) {
      id := stated.value;
    } else {
      var n := counter.Next();
      id := Text.Decimal(n);
    }
    ghost var after := counter.value;
    var nodeWarnings := ExtractWarnings(e, id);
    warningsOut.Extend(nodeWarnings);
    var node :- ReadNode(e, ctx, id, nodeWarnings);
    var elements := CollectDirectRelOps(e);
    var children :- BuildChildren(elements, ctx, counter, warningsOut);
    HeadOfNumbered(e, RelOpsIn(elements), start);
    TreeParts(e, ctx, start);
    r := Ok(Operator(node, children));
  }

  /** The children, built one after another. */
  method BuildChildren(es: seq<Element>, ctx: Context, counter: Counter, warningsOut: WarningList)
    returns (r: Result<seq<Operator>>)
    requires forall e :: e in es ==> IsRelOp(e)
    modifies counter, warningsOut
    ensures r.Ok? <==> AllReadable(RelOpsIn(es), ctx)
    ensures r.Ok? ==> r.value == Forest(es, NodeFrom(ctx), old(counter.value))
    ensures r.Ok? ==> counter.value == old(counter.value) + Missing(RelOpsIn(es))
    ensures r.Ok? ==>
      warningsOut.items == old(warningsOut.items) + Warnings(Numbered(RelOpsIn(es), old(counter.value)))
    decreases |Below(es)|, 1
  {
    hide NodeOf, Readable, Forest, Missing, Numbered, Warnings, RelOpsIn;
    ghost var start, listed := counter.value, warningsOut.items;
    var children := [];
    var i := 0;
    while i < |es|
      invariant 0 <= i <= |es|
      invariant AllReadable(RelOpsIn(es), ctx) <==> AllReadable(RelOpsIn(es[i..]), ctx)
      invariant children + Forest(es[i..], NodeFrom(ctx), counter.value) == Forest(es, NodeFrom(ctx), start)
      invariant counter.value + Missing(RelOpsIn(es[i..])) == start + Missing(RelOpsIn(es))
      invariant warningsOut.items + Warnings(Numbered(RelOpsIn(es[i..]), counter.value))
             == listed + Warnings(Numbered(RelOpsIn(es), start))
    {
      assert es[i..] == [es[i]] + es[i + 1..];
      MemberSpan(es, es[i]);
      SiblingStep(es[i], es[i + 1..], ctx, counter.value);
      ghost var forest := Forest(es[i..], NodeFrom(ctx), counter.value);
      ghost var soFar := warningsOut.items;
      ghost var own := Warnings(Numbered(RelOpsIn([es[i]]), counter.value));
      var built :- BuildOperatorTree(es[i], ctx, counter, warningsOut);
      ghost var laterForest := Forest(es[i + 1..], NodeFrom(ctx), counter.value);
      ghost var laterWarnings := Warnings(Numbered(RelOpsIn(es[i + 1..]), counter.value));
      Associative(children, [built], laterForest);
      Associative(soFar, own, laterWarnings);
      children := children + [built];
      i := i + 1;
    }
    NothingLeft(ctx, counter.value);
    r := Ok(children);
  }

  lemma NothingLeft(ctx: Context, next: nat)
    ensures Forest([], NodeFrom(ctx), next) == [] && Missing(RelOpsIn([])) == 0
    ensures Warnings(Numbered(RelOpsIn([]), next)) == [] && AllReadable(RelOpsIn([]), ctx)
  {
  }

  /** What a RelOp and its later siblings contribute to the tree, the counter and the warnings. */
  lemma SiblingStep(e: Element, es: seq<Element>, ctx: Context, next: nat)
    ensures Forest([e] + es, NodeFrom(ctx), next)
         == [Tree(e, NodeFrom(ctx), next)] + Forest(es, NodeFrom(ctx), next + Missing(RelOpsIn([e])))
    ensures Missing(RelOpsIn([e] + es)) == Missing(RelOpsIn([e])) + Missing(RelOpsIn(es))
    ensures Warnings(Numbered(RelOpsIn([e] + es), next))
         == Warnings(Numbered(RelOpsIn([e]), next)) + Warnings(Numbered(RelOpsIn(es), next + Missing(RelOpsIn([e]))))
    ensures AllReadable(RelOpsIn([e] + es), ctx) <==> AllReadable(RelOpsIn([e]), ctx) && AllReadable(RelOpsIn(es), ctx)
  {
    hide Readable, Tree, Forest, Missing, Numbered, Warnings, RelOpsIn;
    ForestStep(e, es, NodeFrom(ctx), next);
    RelOpsAppend([e], es);
    ListsJoin(RelOpsIn([e]), RelOpsIn(es), ctx, next);
  }

  lemma ListsJoin(own: seq<Element>, later: seq<Element>, ctx: Context, next: nat)
    ensures Missing(own + later) == Missing(own) + Missing(later)
    ensures Warnings(Numbered(own + later, next))
         == Warnings(Numbered(own, next)) + Warnings(Numbered(later, next + Missing(own)))
    ensures AllReadable(own + later, ctx) <==> AllReadable(own, ctx) && AllReadable(later, ctx)
  {
    hide Missing, Numbered, Readable, OwnWarnings;
    MissingAppend(own, later);
    NumberedAppend(own, later, next);
    FlatMapAppend(WarningsFrom, Numbered(own, next), Numbered(later, next + Missing(own)));
    AllReadableAppend(own, later, ctx);
  }

  lemma AllReadableAppend(es: seq<Element>, fs: seq<Element>, ctx: Context)
    ensures AllReadable(es + fs, ctx) <==> AllReadable(es, ctx) && AllReadable(fs, ctx)
  {
    forall e ensures e in es + fs <==> e in es || e in fs {
    }
  }

  lemma TreeParts(e: Element, ctx: Context, next: nat)
    ensures Tree(e, NodeFrom(ctx), next)
         == Operator(
              NodeOf(e, ctx, IdFor(e, next)),
              Forest(DirectRelOps(e.children), NodeFrom(ctx), next + if HasOwnId(e) then 0 else 1))
  {
  }

  lemma HeadOfNumbered(e: Element, below: seq<Element>, next: nat)
    ensures var after := next + if HasOwnId(e) then 0 else 1;
      Missing([e] + below) == after - next + Missing(below)
      && Warnings(Numbered([e] + below, next)) == OwnWarnings(e, IdFor(e, next)) + Warnings(Numbered(below, after))
  {
    assert ([e] + below)[1..] == below;
    var after := next + if HasOwnId(e) then 0 else 1;
    var numbered := Numbered([e] + below, next);
    assert numbered[0] == (e, IdFor(e, next)) && numbered[1..] == Numbered(below, after);
    assert FlatMap(WarningsFrom, numbered) == WarningsFrom(numbered[0]) + FlatMap(WarningsFrom, numbered[1..]);
  }

  // ---------- Missing indexes ----------

  const USAGES := {"EQUALITY", "INEQUALITY", "INCLUDE"}

  /** A later group of the same usage replaces an earlier one; unknown usages are skipped. */
  method ColumnsByUsage(columnGroups: seq<Element>) returns (columns: map<string, seq<string>>)
    ensures columns.Keys == USAGES
    ensures forall usage :: usage in USAGES ==> columns[usage] == ColumnsFor(usage, columnGroups)
  {
    columns := map["EQUALITY" := [], "INEQUALITY" := [], "INCLUDE" := []];
    var i := 0;
    while i < |columnGroups|
      invariant 0 <= i <= |columnGroups|
      invariant columns.Keys == USAGES
      invariant forall usage :: usage in USAGES ==> columns[usage] == ColumnsFor(usage, columnGroups[..i])
    {
      assert columnGroups[..i + 1][..i] == columnGroups[..i];
      var usage := Get(columnGroups[i], "Usage");
      if usage.Some? && usage.value in columns {
        columns := columns[usage.value := ColumnNames(columnGroups[i])];
      }
      i := i + 1;
    }
    assert columnGroups[..i] == columnGroups;
  }

  method IndexesOfGroup(group: Element, impact: Option<real>) returns (result: seq<MissingIndex>)
    ensures result == FlatMap(IndexFrom(impact), FindAll(group, "MissingIndex"))
  {
    result := [];
    var es := FindAll(group, "MissingIndex");
    var i := 0;
    while i < |es|
      invariant 0 <= i <= |es|
      invariant result == FlatMap(IndexFrom(impact), es[..i])
    {
      FlatMapStep(IndexFrom(impact), es, i);
      var columns := ColumnsByUsage(FindAll(es[i], "ColumnGroup"));
      var table := StripBrackets(Get(es[i], "Table"));
      result := result + [MissingIndex(
        if table.Some? then table.value else "",
        columns["EQUALITY"],
        columns["INEQUALITY"],
        columns["INCLUDE"],
        impact)];
      i := i + 1;
    }
    assert es[..i] == es;
  }

  method ExtractMissingIndexes(queryPlan: Element, parse: string -> Option<real>) returns (r: Result<seq<MissingIndex>>)
    ensures r.Ok? <==> AllParse(IndexGroups(queryPlan), "Impact", parse)
    ensures r.Ok? ==> r.value == MissingIndexesOf(queryPlan, parse)
  {
    hide IndexesIn, IndexFrom, IndexGroups, FindAll;
    var result := [];
    var groups := IndexGroups(queryPlan);
    var i := 0;
    while i < |groups|
      invariant 0 <= i <= |groups|
      invariant forall k :: 0 <= k < i ==> GetFloat(groups[k], "Impact", parse).Ok?
      invariant result == FlatMap(IndexesIn(parse), groups[..i])
    {
      GroupStep(groups, i, parse);
      var impact :- GetFloat(groups[i], "Impact", parse);
      var indexes := IndexesOfGroup(groups[i], impact);
      result := result + indexes;
      i := i + 1;
    }
    assert groups[..i] == groups;
    r := Ok(result);
  }

  lemma GroupStep(groups: seq<Element>, i: nat, parse: string -> Option<real>)
    requires i < |groups|
    ensures FlatMap(IndexesIn(parse), groups[..i + 1])
         == FlatMap(IndexesIn(parse), groups[..i])
            + FlatMap(IndexFrom(Number(groups[i], "Impact", parse)), FindAll(groups[i], "MissingIndex"))
  {
    FlatMapStep(IndexesIn(parse), groups, i);
  }

  // ---------- The whole plan ----------

  method ParsePlanXml(document: Element, parse: string -> Option<real>, options: ParseOptions) returns (r: Result<Plan>)
    ensures r.Ok? <==> Parseable(document, parse, options.source)
    ensures r.Ok? ==> r.value == PlanOf(document, parse, options)
  {
    hide NodeOf, Tree, Forest, Numbered, Warnings, Readable, RelOpsIn, MissingIndexesOf, Values, GrantElements,
      IndexGroups, DatabaseName, Truncate, MapStatementType, AllParse;
    var stmt := First(Descendants(document, "StmtSimple"));
    if stmt.None? { return ValueError; }
    var queryPlan := Find(stmt.value, "QueryPlan");
    if queryPlan.None? { return ValueError; }
    var relOp := Find(queryPlan.value, "RelOp");
    if relOp.None? { return ValueError; }
    assert IsRelOp(relOp.value) by {
      FilterMembers(HasTag("RelOp"), queryPlan.value.children, relOp.value);
    }

    var totalCost :- GetFloat(stmt.value, "StatementSubTreeCost", parse);
    var ctx := Context(parse, options.source, totalCost);
    var counter := new Counter();
    var warnings := new WarningList();
    var root :- BuildOperatorTree(relOp.value, ctx, counter, warnings);

    GrantMeaning(queryPlan.value, parse);
    var grant := Find(queryPlan.value, "MemoryGrantInfo");
    if grant.Some? {
      var granted :- GetFloat(grant.value, "GrantedMemory", parse);
      if granted.Some? {
        root := root.(node := root.node.(memoryGrantKb := Some(Truncate(granted.value))));
      }
    }

    var missingIndexes :- ExtractMissingIndexes(queryPlan.value, parse);
    var databaseName := options.databaseName;
    if databaseName.None? {
      databaseName := DatabaseName(queryPlan.value);
    }
    var actual := options.source == Actual;
    r := Ok(Plan(
      PlanMeta(options.engineVersion, options.source, options.objectType, options.objectName, databaseName),
      Statement(
        GetOrEmpty(stmt.value, "StatementText"),
        MapStatementType(GetOrEmpty(stmt.value, "StatementType")),
        totalCost,
        if actual then root.node.actualDurationMs else None,
        if actual && root.node.actualRows.Some? then Some(Truncate(root.node.actualRows.value)) else None),
      root,
      warnings.items,
      missingIndexes));
  }

  lemma GrantMeaning(queryPlan: Element, parse: string -> Option<real>)
    ensures var grant := Find(queryPlan, "MemoryGrantInfo");
      (AllParse(GrantElements(queryPlan), "GrantedMemory", parse) <==>
         (grant.Some? ==> GetFloat(grant.value, "GrantedMemory", parse).Ok?))
      && Values(GrantElements(queryPlan), "GrantedMemory", parse)
        == (if grant.None? then []
            else match Number(grant.value, "GrantedMemory", parse) case None => [] case Some(x) => [x])
  {
    if Find(queryPlan, "MemoryGrantInfo").Some? {
      ValuesStep(GrantElements(queryPlan), 0, "GrantedMemory", parse);
      assert GrantElements(queryPlan)[..1] == GrantElements(queryPlan);
    }
  }
}
