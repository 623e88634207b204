/** Which objects and predicates are an operator's own when child RelOps are nested in its detail wrapper. */
module PlanScope {
  import opened Wrappers
  import opened Sequences
  import opened Xml
  import opened PlanIr
  import opened PlanXmlToIr
  import opened PlanTree

  /** Elements at or below the given ones in document order, each marked if it is a RelOp or inside one. */
  function Scoped(es: seq<Element>, inside: bool): seq<(Element, bool)> {
    if es == [] then []
    else
      var within := inside || IsRelOp(es[0]);
      [(es[0], within)] + Scoped(es[0].children, within) + Scoped(es[1..], inside)
  }

  /** The same, stopping at RelOps. */
  function Own(es: seq<Element>): seq<Element> {
    if es == [] then []
    else (if IsRelOp(es[0]) then [] else [es[0]] + Own(es[0].children)) + Own(es[1..])
  }

  function Unmarked(m: (Element, bool)): Element {
    m.0
  }

  function Elements(ms: seq<(Element, bool)>): seq<Element> {
    Map(Unmarked, ms)
  }

  predicate IsOwn(m: (Element, bool)) {
    !m.1
  }

  predicate IsNested(m: (Element, bool)) {
    m.1
  }

  function OwnObjectRef(wrapper: Element): Option<ObjectRef> {
    match First(Filter(HasTag("Object"), Own(wrapper.children))) case None => None case Some(o) => Some(RefOf(o))
  }

  function OwnTexts(wrapper: Element): seq<string> {
    ScalarTexts(Filter(HasTag("ScalarOperator"), Own(wrapper.children)))
  }

  // ---------- The marked listing ----------

  lemma ElementsAppend(a: seq<(Element, bool)>, b: seq<(Element, bool)>)
    ensures Elements(a + b) == Elements(a) + Elements(b)
  {
  }

  lemma ScopedStep(es: seq<Element>, inside: bool, keep: ((Element, bool)) -> bool)
    requires es != []
    ensures var within := inside || IsRelOp(es[0]);
      Elements(Filter(keep, Scoped(es, inside)))
        == (if keep((es[0], within)) then [es[0]] else [])
           + Elements(Filter(keep, Scoped(es[0].children, within)))
           + Elements(Filter(keep, Scoped(es[1..], inside)))
  {
    hide Scoped, Filter, Elements, IsRelOp;
    var within := inside || IsRelOp(es[0]);
    var head, below, later := [(es[0], within)], Scoped(es[0].children, within), Scoped(es[1..], inside);
    ScopedUnfolds(es, inside);
    FilterAppend(keep, head + below, later);
    FilterAppend(keep, head, below);
    FilterOne(keep, (es[0], within));
    ElementsAppend(Filter(keep, head) + Filter(keep, below), Filter(keep, later));
    ElementsAppend(Filter(keep, head), Filter(keep, below));
    ElementsOfOne((es[0], within));
  }

  lemma ScopedUnfolds(es: seq<Element>, inside: bool)
    requires es != []
    ensures var within := inside || IsRelOp(es[0]);
      Scoped(es, inside) == [(es[0], within)] + Scoped(es[0].children, within) + Scoped(es[1..], inside)
  {
  }

  lemma ElementsOfOne(m: (Element, bool))
    ensures Elements([m]) == [m.0] && Elements([]) == []
  {
  }

  lemma {:induction false} ScopedIsBelow(es: seq<Element>, inside: bool)
    ensures Elements(Scoped(es, inside)) == Below(es)
  {
    if es != [] {
      hide Scoped, Elements, IsRelOp;
      var within := inside || IsRelOp(es[0]);
      var head, below, later := [(es[0], within)], Scoped(es[0].children, within), Scoped(es[1..], inside);
      ScopedUnfolds(es, inside);
      ScopedIsBelow(es[0].children, within);
      ScopedIsBelow(es[1..], inside);
      ElementsAppend(head + below, later);
      ElementsAppend(head, below);
      ElementsOfOne((es[0], within));
    }
  }

  /** Everything inside a RelOp is marked. */
  lemma {:induction false} InsideIsNested(es: seq<Element>)
    ensures Elements(Filter(IsOwn, Scoped(es, true))) == []
    ensures Elements(Filter(IsNested, Scoped(es, true))) == Below(es)
  {
    if es != [] {
      InsideIsNested(es[0].children);
      InsideIsNested(es[1..]);
      ScopedStep(es, true, IsOwn);
      ScopedStep(es, true, IsNested);
    }
  }

  lemma OwnStep(es: seq<Element>)
    requires es != []
    ensures Own(es) == (if IsRelOp(es[0]) then [] else [es[0]] + Own(es[0].children)) + Own(es[1..])
  {
  }

  /** The unmarked elements are the own ones; the marked ones are those at or below the nearest RelOps. */
  lemma {:induction false} ScopedSplits(es: seq<Element>)
    ensures Elements(Filter(IsOwn, Scoped(es, false))) == Own(es)
    ensures Elements(Filter(IsNested, Scoped(es, false))) == Below(DirectRelOps(es))
  {
    hide Scoped, Filter, Elements, Own, Below, DirectRelOps, IsRelOp;
    if es == [] {
      NothingScoped();
    } else {
      ScopedStep(es, false, IsOwn);
      ScopedStep(es, false, IsNested);
      OwnStep(es);
      DirectRelOpsStep(es);
      ScopedSplits(es[1..]);
      BelowAppend(if IsRelOp(es[0]) then [es[0]] else DirectRelOps(es[0].children), DirectRelOps(es[1..]));
      if IsRelOp(es[0]) {
        InsideIsNested(es[0].children);
        BelowOne(es[0]);
      } else {
        ScopedSplits(es[0].children);
      }
    }
  }

  lemma NothingScoped()
    ensures Elements(Filter(IsOwn, Scoped([], false))) == [] == Elements(Filter(IsNested, Scoped([], false)))
    ensures Own([]) == [] == Below(DirectRelOps([]))
  {
  }

  // ---------- Objects ----------

  predicate IsMarkedObject(m: (Element, bool)) {
    m.0.tag == "Object"
  }

  /** The objects under a wrapper, marked if they are a nested RelOp's. */
  function Objects(wrapper: Element): seq<(Element, bool)> {
    Filter(IsMarkedObject, Scoped(wrapper.children, false))
  }

  lemma ObjectsAreDescendants(wrapper: Element)
    ensures Elements(Objects(wrapper)) == Descendants(wrapper, "Object")
    ensures Elements(Filter(IsOwn, Objects(wrapper))) == Filter(HasTag("Object"), Own(wrapper.children))
  {
    hide Scoped, Filter, Own, Below, Map;
    var all := Scoped(wrapper.children, false);
    ScopedIsBelow(wrapper.children, false);
    ScopedSplits(wrapper.children);
    FilterOfMap(Unmarked, HasTag("Object"), IsMarkedObject, all);
    FilterOfMap(Unmarked, HasTag("Object"), IsMarkedObject, Filter(IsOwn, all));
    FiltersCommute(IsOwn, IsMarkedObject, all);
  }

  /** The first unmarked entry of the list is at k. */
  predicate FirstOwnAt(ms: seq<(Element, bool)>, k: int) {
    0 <= k < |ms| && IsOwn(ms[k]) && forall j :: 0 <= j < k ==> IsNested(ms[j])
  }

  lemma {:induction false} FirstOwn(ms: seq<(Element, bool)>) returns (k: int)
    ensures Filter(IsOwn, ms) == [] ==> forall j :: 0 <= j < |ms| ==> IsNested(ms[j])
    ensures Filter(IsOwn, ms) != [] ==> FirstOwnAt(ms, k) && Filter(IsOwn, ms)[0] == ms[k]
  {
    k := 0;
    if ms != [] && IsNested(ms[0]) {
      k := FirstOwn(ms[1..]);
      k := k + 1;
      assert forall j :: 1 <= j < |ms| ==> ms[j] == ms[1..][j - 1];
    }
  }

  /**
   * The object reported for an operator is its own exactly when there is none
   * at all, or the first in document order is outside nested RelOps, or the
   * first own one happens to have the same names.
   */
  lemma ObjectIsOwnExactly(wrapper: Element)
    ensures var objects := Objects(wrapper);
      (ObjectRefIn(Some(wrapper)) == OwnObjectRef(wrapper))
        <==> (objects == []
              || IsOwn(objects[0])
              || exists k :: FirstOwnAt(objects, k) && RefOf(objects[k].0) == RefOf(objects[0].0))
  {
    hide Descendants, Own, RefOf, Scoped, Filter, Objects;
    var objects := Objects(wrapper);
    ObjectsAreDescendants(wrapper);
    var k := FirstOwn(objects);
    var own := Filter(IsOwn, objects);
    if own != [] {
      assert Elements(own)[0] == own[0].0;
      assert forall j :: FirstOwnAt(objects, j) ==> j == k;
    } else {
      assert forall j :: !FirstOwnAt(objects, j);
    }
    if objects != [] {
      assert Elements(objects)[0] == objects[0].0;
    }
  }

  // ---------- Predicates ----------

  lemma MemberOfElements(ms: seq<(Element, bool)>, e: Element)
    ensures e in Elements(ms) <==> exists m :: m in ms && m.0 == e
  {
    if e in Elements(ms) {
      var i :| 0 <= i < |ms| && Elements(ms)[i] == e;
      assert ms[i] in ms;
    }
    if m :| m in ms && m.0 == e {
      var i :| 0 <= i < |ms| && ms[i] == m;
      assert Elements(ms)[i] == e;
    }
  }

  lemma BelowSplits(es: seq<Element>, e: Element)
    ensures e in Below(es) <==> e in Own(es) || e in Below(DirectRelOps(es))
  {
    hide Scoped, Own, Below, DirectRelOps, Filter, Elements;
    var ms := Scoped(es, false);
    ScopedIsBelow(es, false);
    ScopedSplits(es);
    MemberOfElements(ms, e);
    MemberOfElements(Filter(IsOwn, ms), e);
    MemberOfElements(Filter(IsNested, ms), e);
    forall m ensures (m in Filter(IsOwn, ms) <==> m in ms && IsOwn(m))
      && (m in Filter(IsNested, ms) <==> m in ms && IsNested(m))
    {
      FilterMembers(IsOwn, ms, m);
      FilterMembers(IsNested, ms, m);
    }
    assert forall m :: m in ms && m.0 == e ==> IsOwn(m) || IsNested(m);
  }

  /** e is a scalar operator, inside a nested RelOp of the wrapper, with this text. */
  predicate NestedText(wrapper: Element, e: Element, text: string) {
    e in Below(DirectRelOps(wrapper.children)) && e.tag == "ScalarOperator" && HoldsText(e, text) && text != ""
  }

  /** The texts reported are the operator's own exactly when every nested text also occurs among its own. */
  lemma SameTextsExactly(wrapper: Element)
    ensures (forall text ::
               text in ScalarTexts(ScalarOperators(Some(wrapper))) <==> text in OwnTexts(wrapper))
       <==> (forall e, text :: NestedText(wrapper, e, text) ==> text in OwnTexts(wrapper))
  {
    hide Below, Own, DirectRelOps, ScalarTexts, HoldsText;
    var all, own := ScalarOperators(Some(wrapper)), Filter(HasTag("ScalarOperator"), Own(wrapper.children));
    ScalarTextsMeaning(all);
    ScalarTextsMeaning(own);
    forall e ensures ScalarSplits(wrapper, e) {
      FilterMembers(HasTag("ScalarOperator"), Below(wrapper.children), e);
      FilterMembers(HasTag("ScalarOperator"), Own(wrapper.children), e);
      BelowSplits(wrapper.children, e);
    }
    forall text | text in OwnTexts(wrapper) ensures text in ScalarTexts(all) {
      var e :| e in own && HoldsText(e, text);
      assert ScalarSplits(wrapper, e);
    }
    forall text | text in ScalarTexts(all)
      ensures text in OwnTexts(wrapper) || exists e :: NestedText(wrapper, e, text)
    {
      var e :| e in all && HoldsText(e, text);
      assert ScalarSplits(wrapper, e);
      assert e in own || NestedText(wrapper, e, text);
    }
    forall e, text | NestedText(wrapper, e, text) ensures text in ScalarTexts(all) {
      assert ScalarSplits(wrapper, e);
    }
  }

  /** A scalar operator under the wrapper is an own one, or lies at or below a nearest RelOp. */
  ghost predicate ScalarSplits(wrapper: Element, e: Element) {
    (e in ScalarOperators(Some(wrapper))
     <==> e in Filter(HasTag("ScalarOperator"), Own(wrapper.children))
          || (e in Below(DirectRelOps(wrapper.children)) && e.tag == "ScalarOperator"))
  }

  lemma NotBothFirst(es: seq<Element>, a: string, b: string, p: int, q: int)
    ensures !(MetAt(es, a, b, p) && MetAt(es, b, a, q))
  {
    hide HoldsText;
    assert MetAt(es, a, b, p) && 0 <= q <= p ==> !HoldsText(es[q], b);
    assert MetAt(es, b, a, q) && 0 <= p <= q ==> !HoldsText(es[p], a);
  }

  lemma MetBeforeOneWay(es: seq<Element>, a: string, b: string)
    ensures !(MetBefore(es, a, b) && MetBefore(es, b, a))
  {
    hide MetAt;
    forall p, q ensures !(MetAt(es, a, b, p) && MetAt(es, b, a, q)) {
      NotBothFirst(es, a, b, p, q);
    }
  }

  lemma SomeMember(xs: seq<string>)
    ensures xs != [] ==> exists x :: x in xs
  {
    if xs != [] {
      assert xs[0] in xs;
    }
  }

  /** Sequences without repetition that hold the same and never in opposite orders are equal. */
  lemma {:induction false} SameOrder(xs: seq<string>, ys: seq<string>)
    requires Distinct(xs) && Distinct(ys)
    requires forall x :: x in xs <==> x in ys
    requires forall i, j, k, l :: 0 <= i < j < |xs| && 0 <= k < l < |ys| ==> !(xs[i] == ys[l] && xs[j] == ys[k])
    ensures xs == ys
  {
    if xs == [] {
      SomeMember(ys);
    } else {
      assert xs[0] in ys && |ys| > 0 && ys[0] in xs;
      var l :| 0 <= l < |ys| && ys[l] == xs[0];
      var j :| 0 <= j < |xs| && xs[j] == ys[0];
      assert j == 0 || l == 0;
      assert xs[0] == ys[0];
      forall x ensures x in xs[1..] <==> x in ys[1..] {
        TailMembers(xs, x);
        TailMembers(ys, x);
      }
      SameOrder(xs[1..], ys[1..]);
    }
  }

  lemma TailMembers(xs: seq<string>, x: string)
    requires xs != [] && Distinct(xs)
    ensures x in xs[1..] <==> x in xs && x != xs[0]
    ensures Distinct(xs[1..])
  {
    assert forall i :: 0 < i < |xs| ==> xs[i] == xs[1..][i - 1];
  }

  /**
   * An operator reports exactly its own predicates, in their order, when every
   * nested text also occurs among its own and own texts are met in the same
   * order with the nested ones in between - and only then.
   */
  lemma TextsAreOwnExactly(wrapper: Element)
    ensures var all, own := ScalarOperators(Some(wrapper)), OwnTexts(wrapper);
      (ScalarTexts(all) == own)
        <==> ((forall e, text :: NestedText(wrapper, e, text) ==> text in own)
              && forall i, j :: 0 <= i < j < |own| ==> MetBefore(all, own[i], own[j]))
  {
    hide Below, Own, ScalarTexts, ScalarOperators, MetBefore, NestedText;
    var all, own := ScalarOperators(Some(wrapper)), OwnTexts(wrapper);
    var texts := ScalarTexts(all);
    SameTextsExactly(wrapper);
    ScalarTextsMeaning(all);
    OwnTextsDistinct(wrapper);
    if (forall text :: text in texts <==> text in own)
       && forall i, j :: 0 <= i < j < |own| ==> MetBefore(all, own[i], own[j]) {
      forall i, j, k, l | 0 <= i < j < |own| && 0 <= k < l < |texts| ensures !(own[i] == texts[l] && own[j] == texts[k])
      {
        MetBeforeOneWay(all, own[i], own[j]);
      }
      SameOrder(own, texts);
    }
  }

  lemma OwnTextsDistinct(wrapper: Element)
    ensures Distinct(OwnTexts(wrapper))
  {
    ScalarTextsMeaning(Filter(HasTag("ScalarOperator"), Own(wrapper.children)));
  }

  // ---------- A join that reports its child's object and predicate ----------

  const SCANNED := Element("Object", [("Table", "[Orders]")], [])
  const CONDITION := Element("ScalarOperator", [("ScalarString", "Total>1")], [])
  const SCAN_DETAIL := Element("IndexScan", [], [SCANNED, CONDITION])
  const SCAN := Element("RelOp", [("PhysicalOp", "Index Scan")], [SCAN_DETAIL])
  const JOIN_DETAIL := Element("NestedLoops", [], [SCAN])
  const JOIN := Element("RelOp", [("PhysicalOp", "Nested Loops")], [JOIN_DETAIL])

  /** Under a over b over c and d, only c and d can have the tag. */
  lemma InnermostOnly(a: Element, b: Element, c: Element, d: Element, tag: string)
    requires a.children == [b] && b.children == [c, d] && c.children == [] && d.children == []
    requires a.tag != tag && b.tag != tag
    ensures Filter(HasTag(tag), Below([a])) == Filter(HasTag(tag), [c, d])
  {
    BelowOne(a);
    BelowOne(b);
    BelowOne(c);
    BelowOne(d);
    BelowAppend([c], [d]);
    assert [c] + [d] == [c, d];
    assert Below([a]) == ([a] + [b]) + [c, d];
    FilterAppend(HasTag(tag), [a] + [b], [c, d]);
    FilterAppend(HasTag(tag), [a], [b]);
    FilterOne(HasTag(tag), a);
    FilterOne(HasTag(tag), b);
  }

  lemma FilterTwo(tag: string, c: Element, d: Element)
    ensures Filter(HasTag(tag), [c, d])
         == (if c.tag == tag then [c] else []) + (if d.tag == tag then [d] else [])
  {
    assert [c, d] == [c] + [d];
    FilterAppend(HasTag(tag), [c], [d]);
    FilterOne(HasTag(tag), c);
    FilterOne(HasTag(tag), d);
  }

  lemma JoinWrapper()
    ensures DetailWrapper(JOIN) == Some(JOIN_DETAIL)
  {
    FilterOne(IsDetail, JOIN_DETAIL);
  }

  /** The join has no object and no predicate of its own, and reports those of the scan under it. */
  lemma JoinReportsChild(ctx: Context, id: string)
    ensures OwnObjectRef(JOIN_DETAIL) == None && OwnTexts(JOIN_DETAIL) == []
    ensures DetailWrapper(JOIN) == Some(JOIN_DETAIL)
    ensures NodeOf(JOIN, ctx, id).objectRef == Some(ObjectRef(None, Some("Orders"), None))
    ensures NodeOf(JOIN, ctx, id).predicates == ["Total>1"]
  {
    JoinWrapper();
    NodeFields(JOIN, ctx, id);
    OwnStep([SCAN]);
    hide NodeOf, DetailWrapper, Below, Filter;
    JoinObject();
    JoinTexts();
    NothingFound();
  }

  lemma NothingFound()
    ensures Filter(HasTag("Object"), []) == [] == Filter(HasTag("ScalarOperator"), [])
    ensures ScalarTexts([]) == []
  {
  }

  lemma JoinObject()
    ensures ObjectRefIn(Some(JOIN_DETAIL)) == Some(ObjectRef(None, Some("Orders"), None))
  {
    hide Below, Filter;
    InnermostOnly(SCAN, SCAN_DETAIL, SCANNED, CONDITION, "Object");
    FilterTwo("Object", SCANNED, CONDITION);
    assert Descendants(JOIN_DETAIL, "Object") == [SCANNED];
    BracketsRestoredExactly("Orders");
    assert "[Orders]" == "[" + "Orders" + "]";
  }

  lemma JoinTexts()
    ensures ScalarTexts(ScalarOperators(Some(JOIN_DETAIL))) == ["Total>1"]
  {
    hide Below, Filter;
    InnermostOnly(SCAN, SCAN_DETAIL, SCANNED, CONDITION, "ScalarOperator");
    FilterTwo("ScalarOperator", SCANNED, CONDITION);
    assert Descendants(JOIN_DETAIL, "ScalarOperator") == [CONDITION];
    assert [CONDITION][..0] == [];
  }
}
