/** The adapter's readings are the document's: each part of the plan against what the document says there. */
module PlanReading {
  import opened Wrappers
  import opened Sequences
  import opened Xml
  import opened PlanIr
  import opened OperatorMap
  import opened PlanXmlToIr
  import opened PlanTree
  import opened Showplan
  import Text

  // ---------- Attributes and children ----------

  lemma AttributesAgree(e: Element, name: string, parse: string -> Option<real>)
    ensures TextAt(e, name) == GetOrEmpty(e, name)
    ensures NumberAt(e, name, parse) == Number(e, name, parse)
    ensures NameAt(e, name) == StripBrackets(Get(e, name))
  {
  }

  lemma {:induction false} TagsAgree(tag: string, es: seq<Element>)
    ensures AllTagged(tag, es) == Filter(HasTag(tag), es)
    ensures FirstTagged(tag, es) == First(Filter(HasTag(tag), es))
  {
    if es != [] {
      TagsAgree(tag, es[1..]);
    }
  }

  // ---------- The detail element ----------

  lemma {:induction false} DetailAgreesAmong(es: seq<Element>)
    ensures DetailAmong(es) == First(Filter(IsDetail, es))
  {
    if es != [] {
      DetailAgreesAmong(es[1..]);
    }
  }

  lemma {:induction false} DetailAmongMeaning(es: seq<Element>, k: nat)
    requires k < |es| && CanBeDetail(es[k].tag) && forall j :: 0 <= j < k ==> !CanBeDetail(es[j].tag)
    ensures DetailAmong(es) == Some(es[k])
  {
    if k > 0 {
      assert forall j :: 0 <= j < k - 1 ==> es[1..][j] == es[j + 1];
      DetailAmongMeaning(es[1..], k - 1);
    }
  }

  lemma {:induction false} NoDetail(es: seq<Element>)
    requires DetailAmong(es) == None
    ensures forall k :: 0 <= k < |es| ==> !CanBeDetail(es[k].tag)
  {
    if es != [] {
      NoDetail(es[1..]);
      assert forall k :: 0 < k < |es| ==> es[k] == es[1..][k - 1];
    }
  }

  /**
   * The adapter takes as a RelOp's detail the first child that is no
   * OutputList, RunTimeInformation, Warnings or RelOp, and none only if there
   * is no such child.
   */
  lemma DetailMeaning(e: Element)
    ensures DetailWrapper(e) == Detail(e)
    ensures forall w :: DetailWrapper(e) == Some(w) <==> exists k :: DetailAt(e, k) && e.children[k] == w
    ensures DetailWrapper(e) == None <==> forall k :: 0 <= k < |e.children| ==> !CanBeDetail(e.children[k].tag)
  {
    hide DetailAmong;
    DetailAgreesAmong(e.children);
    forall k | DetailAt(e, k) ensures Detail(e) == Some(e.children[k]) {
      DetailAmongMeaning(e.children, k);
    }
    if Detail(e) == None {
      NoDetail(e.children);
    } else {
      var k := DetailFound(e.children);
      assert DetailAt(e, k);
    }
  }

  lemma {:induction false} DetailFound(es: seq<Element>) returns (k: nat)
    requires DetailAmong(es).Some?
    ensures k < |es| && DetailAmong(es) == Some(es[k])
    ensures CanBeDetail(es[k].tag) && forall j :: 0 <= j < k ==> !CanBeDetail(es[j].tag)
  {
    if CanBeDetail(es[0].tag) {
      k := 0;
    } else {
      k := DetailFound(es[1..]);
      k := k + 1;
      assert forall j :: 0 < j < |es| ==> es[j] == es[1..][j - 1];
    }
  }

  lemma LookupAgrees(e: Element)
    ensures IsLookup(e) <==> MarkedLookup(e)
  {
    hide DetailWrapper, Detail;
    DetailMeaning(e);
  }

  lemma ObjectAgrees(e: Element)
    ensures ObjectRefIn(DetailWrapper(e)) == ObjectOf(e)
  {
    hide DetailWrapper, Detail, Below;
    DetailMeaning(e);
    if Detail(e).Some? {
      TagsAgree("Object", Below(Detail(e).value.children));
    }
  }

  lemma TextStep(done: seq<Element>, e: Element)
    ensures var text := TextAt(e, "ScalarString");
      ScalarTexts(done + [e])
        == if text != "" && text !in ScalarTexts(done) then ScalarTexts(done) + [text] else ScalarTexts(done)
  {
    assert (done + [e])[..|done|] == done;
  }

  lemma TextsAmongStep(es: seq<Element>, seen: seq<string>)
    requires es != []
    ensures var text := TextAt(es[0], "ScalarString");
      TextsAmong(es, seen)
        == if es[0].tag == "ScalarOperator" && text != "" && text !in seen
           then [text] + TextsAmong(es[1..], seen + [text])
           else TextsAmong(es[1..], seen)
  {
    hide TextAt;
  }

  lemma {:induction false} TextsFrom(done: seq<Element>, es: seq<Element>)
    ensures ScalarTexts(done + Filter(HasTag("ScalarOperator"), es))
         == ScalarTexts(done) + TextsAmong(es, ScalarTexts(done))
    decreases es
  {
    hide ScalarTexts, TextAt;
    if es == [] {
      assert done + [] == done;
    } else {
      hide Filter, TextsAmong;
      var e, rest := es[0], Filter(HasTag("ScalarOperator"), es[1..]);
      FilterStep(HasTag("ScalarOperator"), es);
      TextsAmongStep(es, ScalarTexts(done));
      if e.tag == "ScalarOperator" {
        TextStep(done, e);
        TextsFrom(done + [e], es[1..]);
        Associative(done, [e], rest);
        var seen, text := ScalarTexts(done), TextAt(e, "ScalarString");
        Associative(seen, [text], TextsAmong(es[1..], seen + [text]));
      } else {
        TextsFrom(done, es[1..]);
        assert [] + rest == rest;
      }
    }
  }

  lemma PredicatesAgree(e: Element)
    ensures ScalarTexts(ScalarOperators(DetailWrapper(e))) == PredicatesOf(e)
  {
    hide DetailWrapper, Detail, Below, TextsAmong, ScalarTexts, Filter;
    DetailMeaning(e);
    assert ScalarTexts([]) == [] by { NoTexts(); }
    if Detail(e).Some? {
      var es := Below(Detail(e).value.children);
      TextsFrom([], es);
      assert [] + Filter(HasTag("ScalarOperator"), es) == Filter(HasTag("ScalarOperator"), es);
    }
  }

  lemma NoTexts()
    ensures ScalarTexts([]) == []
  {
  }

  // ---------- What ran ----------

  lemma ThreadsAgree(e: Element, source: PlanSource)
    ensures Counters(RuntimeInfo(e, source)) == ThreadsOf(e, source)
  {
    TagsAgree("RunTimeInformation", e.children);
    if RuntimeInfo(e, source).Some? {
      TagsAgree("RunTimeCountersPerThread", RuntimeInfo(e, source).value.children);
    }
  }

  lemma {:induction false} SumHead(x: real, xs: seq<real>)
    ensures Sum([x] + xs) == x + Sum(xs)
  {
    if xs == [] {
      assert Sum([x]) == Sum([x][..0]) + x;
    } else {
      assert ([x] + xs)[..|xs|] == [x] + xs[..|xs| - 1];
      SumHead(x, xs[..|xs| - 1]);
    }
  }

  lemma ValuesHead(e: Element, es: seq<Element>, name: string, parse: string -> Option<real>)
    ensures Values([], name, parse) == []
    ensures Values([e] + es, name, parse)
         == (match NumberAt(e, name, parse) case None => [] case Some(x) => [x]) + Values(es, name, parse)
  {
    assert ([e] + es)[1..] == es;
  }

  lemma {:induction false} SumAgrees(es: seq<Element>, name: string, parse: string -> Option<real>)
    ensures var xs := Values(es, name, parse);
      SumAt(es, name, parse) == if xs == [] then None else Some(Sum(xs))
  {
    hide Values, NumberAt;
    if es == [] {
      ValuesHead(Element("", [], []), [], name, parse);
    } else {
      SumAgrees(es[1..], name, parse);
      ValuesHead(es[0], es[1..], name, parse);
      assert es == [es[0]] + es[1..];
      if NumberAt(es[0], name, parse).Some? {
        SumHead(NumberAt(es[0], name, parse).value, Values(es[1..], name, parse));
      } else {
        assert [] + Values(es[1..], name, parse) == Values(es[1..], name, parse);
      }
    }
  }

  lemma MaxHead(x: real, xs: seq<real>)
    ensures Max([x] + xs) == if xs == [] || Max(xs) < x then x else Max(xs)
  {
    var all := [x] + xs;
    assert forall y :: y in all <==> y == x || y in xs;
  }

  lemma {:induction false} MaxAgrees(es: seq<Element>, name: string, parse: string -> Option<real>)
    ensures var xs := Values(es, name, parse);
      MaxAt(es, name, parse) == if xs == [] then None else Some(Max(xs))
  {
    hide Values, NumberAt, Max;
    if es == [] {
      ValuesHead(Element("", [], []), [], name, parse);
    } else {
      MaxAgrees(es[1..], name, parse);
      ValuesHead(es[0], es[1..], name, parse);
      assert es == [es[0]] + es[1..];
      if NumberAt(es[0], name, parse).Some? {
        MaxHead(NumberAt(es[0], name, parse).value, Values(es[1..], name, parse));
      } else {
        assert [] + Values(es[1..], name, parse) == Values(es[1..], name, parse);
      }
    }
  }

  /** Rows are the sum, and the duration the maximum, over the threads that ran. */
  lemma RunAgrees(e: Element, source: PlanSource, parse: string -> Option<real>)
    ensures TotalRows(RuntimeInfo(e, source), parse) == RowsOf(e, source, parse)
    ensures MaxDuration(RuntimeInfo(e, source), parse) == MaxAt(ThreadsOf(e, source), "ActualElapsedms", parse)
  {
    hide Values, Sum, Max, SumAt, MaxAt, ThreadsOf, Counters, RuntimeInfo;
    ThreadsAgree(e, source);
    SumAgrees(ThreadsOf(e, source), "ActualRows", parse);
    MaxAgrees(ThreadsOf(e, source), "ActualElapsedms", parse);
  }

  // ---------- Names and warnings ----------

  lemma LookupNamesAgree(op: string)
    ensures op in LOOKUP_CAPABLE_PHYSICAL_OPS
       <==> op == "Clustered Index Seek" || op == "Index Seek" || op == "RID Lookup"
  {
  }

  lemma HashNamesAgree(logical: string)
    ensures MapOperatorType("Hash Match", logical, false) == TypeFor("Hash Match", logical, false)
  {
  }

  lemma OtherNamesAgree(op: string, logical: string)
    requires op != "Hash Match"
    ensures MapOperatorType(op, logical, false) == TypeFor(op, logical, false)
  {
    hide HASH_MATCH_LOGICAL_OP_MAP, LOOKUP_CAPABLE_PHYSICAL_OPS;
  }

  lemma LookupOrPlain(op: string, logical: string, lookup: bool)
    ensures MapOperatorType(op, logical, lookup)
         == if lookup && op in LOOKUP_CAPABLE_PHYSICAL_OPS then BookmarkLookup
            else MapOperatorType(op, logical, false)
    ensures TypeFor(op, logical, lookup)
         == if lookup && (op == "Clustered Index Seek" || op == "Index Seek" || op == "RID Lookup") then BookmarkLookup
            else TypeFor(op, logical, false)
  {
    hide HASH_MATCH_LOGICAL_OP_MAP, PHYSICAL_OP_MAP, LOOKUP_CAPABLE_PHYSICAL_OPS;
  }

  /** Operator types are those of the names in full. */
  lemma TypeAgrees(op: string, logical: string, lookup: bool)
    ensures MapOperatorType(op, logical, lookup) == TypeFor(op, logical, lookup)
  {
    hide MapOperatorType, TypeFor, LOOKUP_CAPABLE_PHYSICAL_OPS;
    LookupOrPlain(op, logical, lookup);
    LookupNamesAgree(op);
    if op == "Hash Match" {
      HashNamesAgree(logical);
    } else {
      OtherNamesAgree(op, logical);
    }
  }

  lemma WarningElementsAgree(e: Element)
    ensures WarningElements(e) == WarningsOf(e)
  {
    TagsAgree("Warnings", e.children);
  }

  lemma {:induction false} AttributesTextAgrees(attributes: seq<(string, string)>)
    ensures Text.Join(", ", Pairs(attributes)) == AttributesText(attributes)
  {
    if |attributes| > 1 {
      AttributesTextAgrees(attributes[1..]);
      assert Pairs(attributes)[1..] == Pairs(attributes[1..]);
    }
  }

  lemma WarningTextAgrees(w: Element)
    ensures WarningDetail(w) == WarningText(w)
  {
    hide Text.Join, AttributesText;
    AttributesTextAgrees(w.attributes);
  }

  // ---------- RelOps, ids and parts ----------

  lemma RelOpsAgree(root: Element)
    ensures RelOpsIn([root]) == RelOpsOf(root)
  {
    TagsAgree("RelOp", Below([root]));
    SameFilter(IsRelOp, HasTag("RelOp"), Below([root]));
  }

  lemma {:induction false} BlankAgrees(es: seq<Element>)
    ensures Missing(es) == Blank(es)
  {
    if es != [] {
      BlankAgrees(es[1..]);
    }
  }

  /** RelOps and ids, one by one, are those of the document. */
  lemma IdsAgree(es: seq<Element>)
    ensures Numbered(es, 1) == WithIds(es)
  {
    hide Numbered, Missing, Blank;
    NumberedLength(es, 1);
    forall i | 0 <= i < |es| ensures Numbered(es, 1)[i] == WithIds(es)[i] {
      IdAt(es, 1, i);
      BlankAgrees(es[..i]);
    }
  }

  lemma PartsAgree(document: Element)
    ensures Parts(document) == PartsOf(document)
  {
    hide Below;
    TagsAgree("StmtSimple", Below(document.children));
    var stmt := FirstTagged("StmtSimple", Below(document.children));
    if stmt.Some? {
      TagsAgree("QueryPlan", stmt.value.children);
      var queryPlan := FirstTagged("QueryPlan", stmt.value.children);
      if queryPlan.Some? {
        TagsAgree("RelOp", queryPlan.value.children);
      }
    }
  }

  // ---------- Missing indexes ----------

  lemma GroupsAgree(queryPlan: Element)
    ensures IndexGroups(queryPlan) == GroupsOf(queryPlan)
  {
    TagsAgree("MissingIndexes", queryPlan.children);
    if Find(queryPlan, "MissingIndexes").Some? {
      TagsAgree("MissingIndexGroup", Find(queryPlan, "MissingIndexes").value.children);
    }
  }

  lemma {:induction false} NamesAgree(columns: seq<Element>)
    ensures FlatMap(NameIn, Filter(HasTag("Column"), columns)) == NamesAmong(columns)
  {
    if columns != [] {
      NamesAgree(columns[1..]);
      var head := if columns[0].tag == "Column" then [columns[0]] else [];
      FlatMapAppend(NameIn, head, Filter(HasTag("Column"), columns[1..]));
      FlatMapOne(NameIn, columns[0]);
      NothingFlat(NameIn);
    }
  }

  lemma LastStep(usage: string, init: seq<Element>, last: Element)
    ensures ColumnsFor(usage, init + [last])
         == if HasUsage(last, usage) then ColumnNames(last) else ColumnsFor(usage, init)
  {
    assert (init + [last])[..|init|] == init;
  }

  lemma {:induction false} ColumnsHead(usage: string, g: Element, later: seq<Element>)
    ensures ColumnsFor(usage, [g] + later)
         == if exists h :: h in later && HasUsage(h, usage) then ColumnsFor(usage, later)
            else if HasUsage(g, usage) then ColumnNames(g)
            else []
  {
    hide ColumnNames;
    if later == [] {
      assert [g] + later == [g] && [g][..0] == [];
    } else {
      hide ColumnsFor;
      var init, last := later[..|later| - 1], later[|later| - 1];
      assert later == init + [last];
      assert [g] + later == ([g] + init) + [last];
      ColumnsHead(usage, g, init);
      assert last in later && (forall h :: h in later <==> h in init || h == last);
      assert (exists h :: h in later && HasUsage(h, usage))
        <==> HasUsage(last, usage) || exists h :: h in init && HasUsage(h, usage);
      LastStep(usage, [g] + init, last);
      LastStep(usage, init, last);
    }
  }

  lemma {:induction false} ColumnsAgree(usage: string, es: seq<Element>)
    ensures ColumnsFor(usage, Filter(HasTag("ColumnGroup"), es)) == ColumnsUsed(usage, es)
  {
    hide ColumnsFor, ColumnNames, NamesAmong;
    if es == [] {
      NoColumns(usage);
    } else {
      hide Filter;
      var g, rest := es[0], Filter(HasTag("ColumnGroup"), es[1..]);
      FilterStep(HasTag("ColumnGroup"), es);
      ColumnsAgree(usage, es[1..]);
      ColumnsHead(usage, g, rest);
      GroupNames(g);
      forall h ensures h in rest <==> h in es[1..] && h.tag == "ColumnGroup" {
        FilterMembers(HasTag("ColumnGroup"), es[1..], h);
      }
      if forall h :: h in rest ==> !HasUsage(h, usage) {
        NoneUsed(usage, rest);
      }
      assert [] + rest == rest;
    }
  }

  lemma NoColumns(usage: string)
    ensures ColumnsFor(usage, []) == []
  {
  }

  lemma {:induction false} NoneUsed(usage: string, groups: seq<Element>)
    requires forall h :: h in groups ==> !HasUsage(h, usage)
    ensures ColumnsFor(usage, groups) == []
  {
    if groups != [] {
      assert groups[|groups| - 1] in groups;
      NoneUsed(usage, groups[..|groups| - 1]);
    }
  }

  lemma GroupNames(g: Element)
    ensures ColumnNames(g) == NamesAmong(g.children)
  {
    NamesAgree(g.children);
  }

  /** A missing index has the columns the document lists under each usage. */
  lemma IndexAgrees(e: Element, impact: Option<real>)
    ensures IndexIn(e, impact) == IndexOf(e, impact)
  {
    hide ColumnsFor, ColumnsUsed;
    ColumnsAgree("EQUALITY", e.children);
    ColumnsAgree("INEQUALITY", e.children);
    ColumnsAgree("INCLUDE", e.children);
  }

  // ---------- Operators and statements ----------

  lemma JoinAgrees(op: string, logical: string)
    ensures MapJoinType(op, logical) == JoinFor(op, logical)
  {
  }

  lemma AccessAgrees(op: string, lookup: bool)
    ensures MapAccessType(op, lookup) == AccessFor(op, lookup)
  {
    hide Text.Contains;
  }

  lemma SpillTag(tag: string)
    ensures WarningOf(tag) == TempdbSpill <==> tag == "SpillToTempDb"
  {
    hide WarningOf;
    WarningTagMeaning(tag);
  }

  lemma SpillAgrees(e: Element, id: string)
    ensures (exists w :: w in OwnWarnings(e, id) && IsSpill(w))
       <==> (exists w :: w in WarningsOf(e) && w.tag == "SpillToTempDb")
  {
    hide FlatMap, WarningOf, WarningDetail;
    WarningElementsAgree(e);
    var es := WarningsOf(e);
    if w :| w in OwnWarnings(e, id) && IsSpill(w) {
      FlatMapMembers(WarningFrom(id), es, w);
      var i :| 0 <= i < |es| && w in WarningFrom(id)(es[i]);
      SpillTag(es[i].tag);
      assert es[i] in es;
    }
    if x :| x in es && x.tag == "SpillToTempDb" {
      var i :| 0 <= i < |es| && es[i] == x;
      var w := PlanWarning(WarningOf(x.tag), WarningDetail(x), id);
      SpillTag(x.tag);
      assert w in WarningFrom(id)(es[i]);
      FlatMapMembers(WarningFrom(id), es, w);
      assert w in OwnWarnings(e, id) && IsSpill(w);
    }
  }

  /** An operator's every field is what the document says of its RelOp. */
  lemma OperatorAgrees(e: Element, ctx: Context, id: string)
    ensures NodeOf(e, ctx, id) == OperatorOf(e, id, ctx.source, ctx.totalCost, ctx.parse)
  {
    hide MapOperatorType, TypeFor, MapJoinType, JoinFor, MapAccessType, AccessFor, IsLookup, MarkedLookup, Number,
      NumberAt, GetOrEmpty, TextAt, ObjectRefIn, ObjectOf, ScalarTexts, ScalarOperators, PredicatesOf, TotalRows,
      RowsOf, MaxDuration, MaxAt, ThreadsOf, RuntimeInfo, OwnWarnings, WarningsOf, DetailWrapper, Detail;
    var op, logical := TextAt(e, "PhysicalOp"), TextAt(e, "LogicalOp");
    AttributesAgree(e, "PhysicalOp", ctx.parse);
    AttributesAgree(e, "LogicalOp", ctx.parse);
    AttributesAgree(e, "EstimateRows", ctx.parse);
    AttributesAgree(e, "EstimatedTotalSubtreeCost", ctx.parse);
    DetailMeaning(e);
    LookupAgrees(e);
    ObjectAgrees(e);
    PredicatesAgree(e);
    RunAgrees(e, ctx.source, ctx.parse);
    TypeAgrees(op, logical, MarkedLookup(e));
    JoinAgrees(op, logical);
    AccessAgrees(op, MarkedLookup(e));
    SpillAgrees(e, id);
  }

  lemma GrantAgrees(queryPlan: Element, parse: string -> Option<real>)
    ensures Values(GrantElements(queryPlan), "GrantedMemory", parse)
         == match GrantOf(queryPlan, parse) case None => [] case Some(x) => [x]
  {
    hide Values, NumberAt;
    TagsAgree("MemoryGrantInfo", queryPlan.children);
    if FirstTagged("MemoryGrantInfo", queryPlan.children).Some? {
      var e := FirstTagged("MemoryGrantInfo", queryPlan.children).value;
      ValuesHead(e, [], "GrantedMemory", parse);
      assert [e] + [] == [e];
    } else {
      ValuesHead(Element("", [], []), [], "GrantedMemory", parse);
    }
  }

  lemma {:induction false} NamingAgrees(es: seq<Element>)
    ensures FirstNaming(es)
         == match First(Filter(HasDatabase, Filter(HasTag("Object"), es)))
            case None => None
            case Some(o) => StripBrackets(Get(o, "Database"))
  {
    if es != [] {
      NamingAgrees(es[1..]);
      var head := if es[0].tag == "Object" then [es[0]] else [];
      FilterAppend(HasDatabase, head, Filter(HasTag("Object"), es[1..]));
      FilterOne(HasDatabase, es[0]);
      assert [] + Filter(HasDatabase, Filter(HasTag("Object"), es[1..]))
          == Filter(HasDatabase, Filter(HasTag("Object"), es[1..]));
    }
  }

  lemma DatabaseAgrees(queryPlan: Element)
    ensures DatabaseName(queryPlan) == DatabaseOf(queryPlan)
  {
    hide Below, FirstNaming, Filter;
    NamingAgrees(Below(queryPlan.children));
  }

  lemma StatementTypeAgrees(raw: string)
    ensures MapStatementType(raw) == StatementTypeFor(raw)
  {
  }
}
