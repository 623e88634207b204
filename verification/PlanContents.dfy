/** Everything in a built plan, in the document's own terms. */
module PlanContents {
  import opened Wrappers
  import opened Sequences
  import opened Xml
  import opened PlanIr
  import opened PlanXmlToIr
  import opened PlanTree
  import opened Showplan
  import opened PlanReading
  import opened Pipeline
  import opened PlanProperties

  /** int(x) drops the fraction. */
  lemma TruncateMeaning(x: real)
    ensures x >= 0.0 ==> 0 <= Truncate(x) && Truncate(x) as real <= x < (Truncate(x) + 1) as real
    ensures x < 0.0 ==> Truncate(x) <= 0 && (Truncate(x) - 1) as real < x <= Truncate(x) as real
  {
    if x < 0.0 {
      assert (-x).Floor as real <= -x < ((-x).Floor + 1) as real;
    }
  }

  /** The grant goes on the root alone. */
  function GrantAt(queryPlan: Element, i: nat, parse: string -> Option<real>): Option<int> {
    if i > 0 || GrantOf(queryPlan, parse).None? then None else Some(Truncate(GrantOf(queryPlan, parse).value))
  }

  /**
   * The plan has one operator per RelOp, in document order, and each is in
   * every field what the document says of its RelOp.
   */
  lemma OperatorsOfPlan(document: Element, parse: string -> Option<real>, options: ParseOptions)
    requires Parts(document).Some?
    ensures PartsOf(document) == Parts(document)
    ensures var (stmt, queryPlan, root) := PartsOf(document).value;
      var es, total := RelOpsOf(root), NumberAt(stmt, "StatementSubTreeCost", parse);
      var nodes := Walk(PlanOf(document, parse, options).root);
      |nodes| == |es|
      && forall i :: 0 <= i < |es| ==>
           nodes[i] == OperatorOf(es[i], IdOf(es, i), options.source, total, parse)
                       .(memoryGrantKb := GrantAt(queryPlan, i, parse))
  {
    hide PlanOf, Walk, PlanRelOps, OperatorOf, NodeOf, RelOpsOf, IdOf, Parts, PartsOf, GrantAt, NumberAt;
    PartsAgree(document);
    PlanEntries(document);
    PlanSize(document, parse, options);
    var (stmt, queryPlan, root) := PartsOf(document).value;
    var es, nodes := RelOpsOf(root), Walk(PlanOf(document, parse, options).root);
    ContextAgrees(document, parse, options.source);
    forall i | 0 <= i < |es|
      ensures nodes[i] == OperatorOf(
                es[i], IdOf(es, i), options.source, NumberAt(stmt, "StatementSubTreeCost", parse), parse)
                .(memoryGrantKb := GrantAt(queryPlan, i, parse))
    {
      WalkOfPlan(document, parse, options, i);
      OperatorAgrees(es[i], PlanContext(document, parse, options.source), IdOf(es, i));
      GrantOfPlan(document, parse, options, i);
    }
  }

  /** The operators of a document's plan, one per RelOp in document order. */
  function OperatorsIn(document: Element, parse: string -> Option<real>, source: PlanSource): seq<OperatorNode>
    requires PartsOf(document).Some?
  {
    var (stmt, queryPlan, root) := PartsOf(document).value;
    var es, total := RelOpsOf(root), NumberAt(stmt, "StatementSubTreeCost", parse);
    seq(|es|, i requires 0 <= i < |es| =>
      OperatorOf(es[i], IdOf(es, i), source, total, parse).(memoryGrantKb := GrantAt(queryPlan, i, parse)))
  }

  lemma WalkIsOperatorsIn(document: Element, parse: string -> Option<real>, options: ParseOptions)
    requires Parts(document).Some?
    ensures PartsOf(document) == Parts(document)
    ensures Walk(PlanOf(document, parse, options).root) == OperatorsIn(document, parse, options.source)
  {
    hide PlanOf, Walk, OperatorOf, RelOpsOf, IdOf, Parts, PartsOf, GrantAt, NumberAt;
    OperatorsOfPlan(document, parse, options);
  }

  lemma PlanEntries(document: Element)
    requires Parts(document).Some?
    ensures var es := RelOpsOf(Parts(document).value.2);
      |PlanRelOps(document)| == |es|
      && forall i :: 0 <= i < |es| ==> PlanRelOps(document)[i] == (es[i], IdOf(es, i))
  {
    hide Numbered, Parts, RelOpsIn, RelOpsOf, IdOf;
    RelOpsAgree(Parts(document).value.2);
    IdsAgree(RelOpsIn([Parts(document).value.2]));
  }

  lemma ContextAgrees(document: Element, parse: string -> Option<real>, source: PlanSource)
    requires Parts(document).Some?
    ensures var ctx := PlanContext(document, parse, source);
      ctx.source == source && ctx.parse == parse
      && ctx.totalCost == NumberAt(Parts(document).value.0, "StatementSubTreeCost", parse)
  {
    hide Parts;
    AttributesAgree(Parts(document).value.0, "StatementSubTreeCost", parse);
  }

  lemma GrantOfPlan(document: Element, parse: string -> Option<real>, options: ParseOptions, i: nat)
    requires Parts(document).Some?
    requires i < |Walk(PlanOf(document, parse, options).root)| == |PlanRelOps(document)|
    ensures Walk(PlanOf(document, parse, options).root)[i].memoryGrantKb
         == GrantAt(Parts(document).value.1, i, parse)
  {
    hide NodeOf, Tree, Warnings, MissingIndexesOf, GrantElements, GrantOf, RelOpsIn, Numbered, Truncate, Values;
    WalkOfPlan(document, parse, options, i);
    GrantAgrees(Parts(document).value.1, parse);
    if i == 0 {
      var ctx := PlanContext(document, parse, options.source);
      RootWithoutGrant(Parts(document).value.2, ctx);
    }
  }

  lemma RootWithoutGrant(relOp: Element, ctx: Context)
    ensures Tree(relOp, NodeFrom(ctx), 1).node.memoryGrantKb == None
  {
    hide NodeOf, Forest, DirectRelOps, IdFor, HasOwnId;
    NodeFields(relOp, ctx, IdFor(relOp, 1));
  }

  function IndexesAmong(groups: seq<Element>, parse: string -> Option<real>): seq<MissingIndex> {
    if groups == [] then []
    else
      Map((e: Element) => IndexOf(e, NumberAt(groups[0], "Impact", parse)),
        AllTagged("MissingIndex", groups[0].children))
      + IndexesAmong(groups[1..], parse)
  }

  lemma {:induction false} OneEach(impact: Option<real>, es: seq<Element>)
    ensures FlatMap(IndexFrom(impact), es) == Map((e: Element) => IndexOf(e, impact), es)
  {
    hide IndexIn, IndexOf;
    if es != [] {
      OneEach(impact, es[1..]);
      IndexAgrees(es[0], impact);
      assert Map((e: Element) => IndexOf(e, impact), es)
          == [IndexOf(es[0], impact)] + Map((e: Element) => IndexOf(e, impact), es[1..]);
    }
  }

  lemma {:induction false} IndexesAgree(groups: seq<Element>, parse: string -> Option<real>)
    ensures FlatMap(IndexesIn(parse), groups) == IndexesAmong(groups, parse)
  {
    hide IndexFrom, IndexOf, Number, NumberAt, FindAll, AllTagged, Map;
    if groups != [] {
      var g := groups[0];
      IndexesAgree(groups[1..], parse);
      AttributesAgree(g, "Impact", parse);
      MissingIndexElements(g);
      OneEach(NumberAt(g, "Impact", parse), AllTagged("MissingIndex", g.children));
    }
  }

  /** An attribute, if it is there, is a number. */
  predicate Parses(e: Element, name: string, parse: string -> Option<real>) {
    Get(e, name).Some? ==> parse(Get(e, name).value).Some?
  }

  lemma ParsesAgree(e: Element, name: string, parse: string -> Option<real>)
    ensures GetFloat(e, name, parse).Ok? <==> Parses(e, name, parse)
  {
  }

  lemma AllParsesAgree(es: seq<Element>, name: string, parse: string -> Option<real>)
    ensures AllParse(es, name, parse) <==> forall e :: e in es ==> Parses(e, name, parse)
  {
    forall e ensures GetFloat(e, name, parse).Ok? <==> Parses(e, name, parse) {
      ParsesAgree(e, name, parse);
    }
  }

  /** The numbers a RelOp is read for. */
  predicate RelOpParses(e: Element, source: PlanSource, parse: string -> Option<real>) {
    Parses(e, "EstimateRows", parse)
    && Parses(e, "EstimatedTotalSubtreeCost", parse)
    && (forall c :: c in ThreadsOf(e, source) ==> Parses(c, "ActualRows", parse))
    && (forall c :: c in ThreadsOf(e, source) ==> Parses(c, "ActualElapsedms", parse))
  }

  lemma ReadableAgrees(e: Element, ctx: Context)
    ensures Readable(e, ctx) <==> RelOpParses(e, ctx.source, ctx.parse)
  {
    hide Parses, Counters, ThreadsOf, RuntimeInfo;
    ThreadsAgree(e, ctx.source);
    ParsesAgree(e, "EstimateRows", ctx.parse);
    ParsesAgree(e, "EstimatedTotalSubtreeCost", ctx.parse);
    AllParsesAgree(ThreadsOf(e, ctx.source), "ActualRows", ctx.parse);
    AllParsesAgree(ThreadsOf(e, ctx.source), "ActualElapsedms", ctx.parse);
  }

  /** A document becomes a plan exactly when its three parts are there and its numbers are numbers. */
  lemma PlansOfWhichDocuments(document: Element, parse: string -> Option<real>, source: PlanSource)
    ensures Parseable(document, parse, source)
       <==> PartsOf(document).Some?
            && var (stmt, queryPlan, root) := PartsOf(document).value;
               var grant := FirstTagged("MemoryGrantInfo", queryPlan.children);
               Parses(stmt, "StatementSubTreeCost", parse)
               && (forall e :: e in RelOpsOf(root) ==> RelOpParses(e, source, parse))
               && (grant.Some? ==> Parses(grant.value, "GrantedMemory", parse))
               && (forall g :: g in GroupsOf(queryPlan) ==> Parses(g, "Impact", parse))
  {
    PartsAgree(document);
    hide PartsOf, Parses, RelOpParses, Readable, RelOpsOf, RelOpsIn, GroupsOf, IndexGroups, FirstTagged, AllParse,
      GetFloat;
    if PartsOf(document).Some? {
      var (stmt, queryPlan, root) := PartsOf(document).value;
      ParsesAgree(stmt, "StatementSubTreeCost", parse);
      RelOpsAgree(root);
      forall e ensures Readable(e, ContextFor(stmt, parse, source)) <==> RelOpParses(e, source, parse) {
        ReadableAgrees(e, ContextFor(stmt, parse, source));
      }
      GroupsAgree(queryPlan);
      AllParsesAgree(GroupsOf(queryPlan), "Impact", parse);
      TagsAgree("MemoryGrantInfo", queryPlan.children);
      AllParsesAgree(GrantElements(queryPlan), "GrantedMemory", parse);
    }
  }

  /** Statement, missing indexes and meta data of the plan, from the document and the caller's options. */
  lemma StatementOfPlan(document: Element, parse: string -> Option<real>, options: ParseOptions)
    requires Parts(document).Some?
    ensures PartsOf(document) == Parts(document)
    ensures var plan, (stmt, queryPlan, root) := PlanOf(document, parse, options), PartsOf(document).value;
      plan.statement.text == TextAt(stmt, "StatementText")
      && plan.statement.statementType == StatementTypeFor(TextAt(stmt, "StatementType"))
      && plan.statement.totalCost == NumberAt(stmt, "StatementSubTreeCost", parse)
      && (options.source != Actual ==> plan.statement.totalDurationMs == None && plan.statement.totalRows == None)
      && (options.source == Actual ==>
            plan.statement.totalDurationMs == MaxAt(ThreadsOf(root, Actual), "ActualElapsedms", parse)
            && plan.statement.totalRows
              == match RowsOf(root, Actual, parse) case None => None case Some(x) => Some(Truncate(x)))
      && plan.missingIndexes == IndexesAmong(GroupsOf(queryPlan), parse)
      && plan.meta == PlanMeta(
           options.engineVersion, options.source, options.objectType, options.objectName,
           if options.databaseName.Some? then options.databaseName else DatabaseOf(queryPlan))
  {
    PartsAgree(document);
    hide Parts, PartsOf, NodeFrom, Tree, Warnings, DatabaseName, DatabaseOf, IndexGroups, GroupsOf, MapStatementType,
      StatementTypeFor, Truncate, NumberAt, Number, TextAt, GetOrEmpty, Numbered, RelOpsIn, Values, GrantElements;
    var (stmt, queryPlan, root) := PartsOf(document).value;
    AttributesAgree(stmt, "StatementText", parse);
    AttributesAgree(stmt, "StatementType", parse);
    AttributesAgree(stmt, "StatementSubTreeCost", parse);
    StatementTypeAgrees(TextAt(stmt, "StatementType"));
    GroupsAgree(queryPlan);
    IndexesAgree(GroupsOf(queryPlan), parse);
    DatabaseAgrees(queryPlan);
    RootRuns(root, PlanContext(document, parse, options.source));
  }

  lemma RootRuns(relOp: Element, ctx: Context)
    ensures var node := Tree(relOp, NodeFrom(ctx), 1).node;
      node.actualDurationMs == MaxAt(ThreadsOf(relOp, ctx.source), "ActualElapsedms", ctx.parse)
      && node.actualRows == RowsOf(relOp, ctx.source, ctx.parse)
  {
    hide NodeOf, Forest, DirectRelOps, IdFor, HasOwnId, RowsOf, MaxAt, ThreadsOf;
    OperatorAgrees(relOp, ctx, IdFor(relOp, 1));
  }
}
