/** The operator tree against the document: order, numbering and warnings. */
module PlanTree {
  import opened Sequences
  import opened Xml
  import opened PlanIr
  import opened PlanXmlToIr
  import Text

  // ---------- RelOps in document order ----------

  lemma RelOpsAppend(es: seq<Element>, fs: seq<Element>)
    ensures RelOpsIn(es + fs) == RelOpsIn(es) + RelOpsIn(fs)
  {
    BelowAppend(es, fs);
    FilterAppend(IsRelOp, Below(es), Below(fs));
  }

  lemma BelowOne(e: Element)
    ensures Below([e]) == [e] + Below(e.children)
  {
    assert [e][1..] == [];
  }

  lemma RelOpsInOne(e: Element)
    ensures RelOpsIn([e]) == (if IsRelOp(e) then [e] else []) + RelOpsIn(e.children)
  {
    assert Below([e]) == [e] + Below(e.children);
    FilterAppend(IsRelOp, [e], Below(e.children));
    assert Filter(IsRelOp, [e]) == (if IsRelOp(e) then [e] else []) + Filter(IsRelOp, []);
  }

  lemma DirectRelOpsStep(es: seq<Element>)
    requires es != []
    ensures DirectRelOps(es)
         == (if IsRelOp(es[0]) then [es[0]] else DirectRelOps(es[0].children)) + DirectRelOps(es[1..])
  {
  }

  /** The descent over the rest of a list, one element further. */
  lemma DirectRelOpsFrom(es: seq<Element>, i: nat)
    requires i < |es|
    ensures DirectRelOps(es[i..])
         == (if IsRelOp(es[i]) then [es[i]] else DirectRelOps(es[i].children)) + DirectRelOps(es[i + 1..])
  {
    hide DirectRelOps, IsRelOp;
    assert es[i..][1..] == es[i + 1..];
    DirectRelOpsStep(es[i..]);
  }

  lemma NoneLeft(es: seq<Element>)
    ensures DirectRelOps(es[|es|..]) == []
  {
  }

  /** The wrapper-skipping descent loses, duplicates and reorders no RelOp of the whole subtree. */
  lemma {:induction false} DirectRelOpsCoverAll(es: seq<Element>)
    ensures RelOpsIn(DirectRelOps(es)) == RelOpsIn(es)
    ensures forall d :: d in DirectRelOps(es) ==> IsRelOp(d)
  {
    if es == [] {
      assert DirectRelOps(es) == es;
    } else {
      CoverStep(es);
    }
  }

  lemma {:induction false} CoverStep(es: seq<Element>)
    requires es != []
    ensures RelOpsIn(DirectRelOps(es)) == RelOpsIn(es)
    ensures forall d :: d in DirectRelOps(es) ==> IsRelOp(d)
    decreases es, 0
  {
    hide RelOpsIn, Below, Subtree, DirectRelOps;
    var head := if IsRelOp(es[0]) then [es[0]] else DirectRelOps(es[0].children);
    DirectRelOpsCoverAll(es[1..]);
    if !IsRelOp(es[0]) {
      DirectRelOpsCoverAll(es[0].children);
      assert [] + RelOpsIn(es[0].children) == RelOpsIn(es[0].children);
    }
    RelOpsInOne(es[0]);
    DirectRelOpsStep(es);
    RelOpsAppend(head, DirectRelOps(es[1..]));
    RelOpsAppend([es[0]], es[1..]);
    assert es == [es[0]] + es[1..];
  }

  /** Every direct child spans strictly less of the document than its parent, so the descent terminates. */
  lemma {:induction false} DirectRelOpsShrink(e: Element, d: Element)
    requires d in DirectRelOps(e.children)
    ensures |Subtree(d)| < |Subtree(e)|
  {
    MemberSpan(DirectRelOps(e.children), d);
  }

  lemma {:induction false} MemberSpan(es: seq<Element>, d: Element)
    requires d in es
    ensures |Subtree(d)| <= |Below(es)|
  {
    if d != es[0] {
      MemberSpan(es[1..], d);
    }
  }

  // ---------- Numbering ----------

  lemma {:induction false} MissingAppend(es: seq<Element>, fs: seq<Element>)
    ensures Missing(es + fs) == Missing(es) + Missing(fs)
  {
    if es == [] {
      assert es + fs == fs;
    } else {
      assert (es + fs)[1..] == es[1..] + fs;
      MissingAppend(es[1..], fs);
    }
  }

  lemma {:induction false} NumberedAppend(es: seq<Element>, fs: seq<Element>, next: nat)
    ensures Numbered(es + fs, next) == Numbered(es, next) + Numbered(fs, next + Missing(es))
  {
    hide HasOwnId, IdFor;
    if es == [] {
      assert es + fs == fs;
    } else {
      var after := next + if HasOwnId(es[0]) then 0 else 1;
      assert (es + fs)[1..] == es[1..] + fs;
      NumberedAppend(es[1..], fs, after);
      Associative([(es[0], IdFor(es[0], next))], Numbered(es[1..], after), Numbered(fs, next + Missing(es)));
    }
  }

  /** The i-th RelOp keeps its own NodeId, or else is numbered by the count of id-less RelOps up to it. */
  lemma {:induction false} IdAt(es: seq<Element>, next: nat, i: nat)
    requires i < |es|
    ensures |Numbered(es, next)| == |es|
    ensures Numbered(es, next)[i] == (es[i], if HasOwnId(es[i]) then Get(es[i], "NodeId").value
                                             else Text.Decimal(next + Missing(es[..i])))
  {
    NumberedAppend(es[..i], es[i..], next);
    NumberedLength(es[..i], next);
    NumberedLength(es, next);
    assert es == es[..i] + es[i..];
  }

  lemma {:induction false} NumberedLength(es: seq<Element>, next: nat)
    ensures |Numbered(es, next)| == |es|
  {
    if es != [] {
      NumberedLength(es[1..], next + if HasOwnId(es[0]) then 0 else 1);
    }
  }

  // ---------- Tree faithfulness ----------

  lemma ForestStep(e: Element, es: seq<Element>, make: NodeMaker, next: nat)
    ensures Forest([e] + es, make, next)
         == [Tree(e, make, next)] + Forest(es, make, next + Missing(RelOpsIn([e])))
  {
    assert ([e] + es)[1..] == es;
  }

  /** An operator and all under it, parents first. */
  function Operators(op: Operator): (ops: seq<Operator>)
    ensures ops != [] && ops[0] == op
    decreases op, 1
  {
    [op] + OperatorsIn(op.children)
  }

  function OperatorsIn(ops: seq<Operator>): seq<Operator>
    decreases ops, 0
  {
    if ops == [] then [] else Operators(ops[0]) + OperatorsIn(ops[1..])
  }

  /** The operators built for RelOps in document order, the counter standing at next before the first. */
  function Built(es: seq<Element>, make: NodeMaker, next: nat): (ops: seq<Operator>)
    ensures |ops| == |es|
  {
    if es == [] then []
    else [Tree(es[0], make, next)] + Built(es[1..], make, next + if HasOwnId(es[0]) then 0 else 1)
  }

  lemma BuiltHead(e: Element, below: seq<Element>, make: NodeMaker, next: nat)
    ensures Built([e] + below, make, next)
         == [Tree(e, make, next)] + Built(below, make, next + if HasOwnId(e) then 0 else 1)
  {
    assert ([e] + below)[1..] == below;
  }

  lemma {:induction false} BuiltAppend(es: seq<Element>, fs: seq<Element>, make: NodeMaker, next: nat)
    ensures Built(es + fs, make, next) == Built(es, make, next) + Built(fs, make, next + Missing(es))
  {
    hide Tree, HasOwnId;
    if es == [] {
      assert es + fs == fs;
    } else {
      var after := next + if HasOwnId(es[0]) then 0 else 1;
      assert (es + fs)[1..] == es[1..] + fs;
      BuiltAppend(es[1..], fs, make, after);
      Associative([Tree(es[0], make, next)], Built(es[1..], make, after), Built(fs, make, next + Missing(es)));
    }
  }

  /** The i-th operator is the tree of the i-th RelOp, numbered from where the earlier ones leave the counter. */
  lemma BuiltSegment(es: seq<Element>, make: NodeMaker, next: nat, i: nat, n: nat)
    requires i + n <= |es|
    ensures Built(es, make, next)[i..i + n] == Built(es[i..i + n], make, next + Missing(es[..i]))
  {
    hide Built, Missing;
    var after := next + Missing(es[..i]);
    assert es == es[..i] + es[i..] && es[i..] == es[i..i + n] + es[i + n..];
    BuiltAppend(es[..i], es[i..], make, next);
    BuiltAppend(es[i..i + n], es[i + n..], make, after);
  }

  lemma TreeOperators(e: Element, make: NodeMaker, next: nat)
    ensures Operators(Tree(e, make, next))
         == [Tree(e, make, next)]
            + OperatorsIn(Forest(DirectRelOps(e.children), make, next + if HasOwnId(e) then 0 else 1))
  {
  }

  lemma OperatorsStep(op: Operator, ops: seq<Operator>)
    ensures OperatorsIn([]) == []
    ensures OperatorsIn([op] + ops) == Operators(op) + OperatorsIn(ops)
  {
    assert ([op] + ops)[1..] == ops;
  }

  /** All operators of a built tree, parents first, are those built for the RelOps in document order. */
  lemma {:induction false} OperatorsAreBuilt(e: Element, make: NodeMaker, next: nat)
    requires IsRelOp(e)
    ensures Operators(Tree(e, make, next)) == Built(RelOpsIn([e]), make, next)
    decreases |Subtree(e)|, 0
  {
    hide RelOpsIn, Tree, Forest, Operators, OperatorsIn, Built, DirectRelOps, HasOwnId;
    var after := next + if HasOwnId(e) then 0 else 1;
    DirectRelOpsCoverAll(e.children);
    ForestIsBuilt(DirectRelOps(e.children), make, after);
    TreeOperators(e, make, next);
    RelOpsInOne(e);
    BuiltHead(e, RelOpsIn(e.children), make, next);
  }

  lemma {:induction false} ForestIsBuilt(es: seq<Element>, make: NodeMaker, next: nat)
    requires forall e :: e in es ==> IsRelOp(e)
    ensures OperatorsIn(Forest(es, make, next)) == Built(RelOpsIn(es), make, next)
    decreases |Below(es)|, 1
  {
    hide RelOpsIn, Tree, Forest, Operators, OperatorsIn, Built, Missing, IsRelOp;
    if es == [] {
      NothingBuilt(make, next);
    } else {
      var first, later := RelOpsIn([es[0]]), RelOpsIn(es[1..]);
      var after := next + Missing(first);
      OperatorsAreBuilt(es[0], make, next);
      ForestIsBuilt(es[1..], make, after);
      ForestStep(es[0], es[1..], make, next);
      OperatorsStep(Tree(es[0], make, next), Forest(es[1..], make, after));
      RelOpsAppend([es[0]], es[1..]);
      assert es == [es[0]] + es[1..];
      BuiltAppend(first, later, make, next);
    }
  }

  lemma NothingBuilt(make: NodeMaker, next: nat)
    ensures OperatorsIn(Forest([], make, next)) == Built(RelOpsIn([]), make, next)
  {
  }

  /** In document order, the RelOps of the i-th RelOp's subtree follow it in one stretch. */
  lemma {:induction false} RelOpSegment(es: seq<Element>, i: nat)
    requires i < |RelOpsIn(es)|
    ensures var n := |RelOpsIn([RelOpsIn(es)[i]])|;
      i + n <= |RelOpsIn(es)| && RelOpsIn(es)[i..i + n] == RelOpsIn([RelOpsIn(es)[i]])
  {
    hide RelOpsIn, Below, Subtree;
    if es == [] {
      assert RelOpsIn(es) == [] by { NoRelOps(); }
    } else {
      var first, later := RelOpsIn([es[0]]), RelOpsIn(es[1..]);
      RelOpsAppend([es[0]], es[1..]);
      assert es == [es[0]] + es[1..];
      RelOpsInOne(es[0]);
      var own := if IsRelOp(es[0]) then 1 else 0;
      if i >= |first| {
        RelOpSegment(es[1..], i - |first|);
        Stretch(first, later, [], i - |first|, |RelOpsIn([RelOpsIn(es)[i]])|);
      } else if i >= own {
        RelOpSegment(es[0].children, i - own);
        Stretch(first[..own], RelOpsIn(es[0].children), later, i - own, |RelOpsIn([RelOpsIn(es)[i]])|);
      }
    }
  }

  lemma NoRelOps()
    ensures RelOpsIn([]) == []
  {
  }

  lemma Stretch<T>(a: seq<T>, b: seq<T>, c: seq<T>, i: nat, n: nat)
    requires i + n <= |b|
    ensures (a + b + c)[|a| + i..|a| + i + n] == b[i..i + n]
  {
  }

  /**
   * Nesting is the document's: the i-th operator is the one built for the i-th
   * RelOp, and the operators under it are, in place, those of the RelOps under
   * that RelOp.
   */
  lemma NestingIsTheDocuments(e: Element, make: NodeMaker, next: nat, i: nat)
    requires IsRelOp(e) && i < |RelOpsIn([e])|
    ensures var es, ops := RelOpsIn([e]), Operators(Tree(e, make, next));
      var n := |RelOpsIn([es[i]])|;
      |ops| == |es|
      && ops[i] == Tree(es[i], make, next + Missing(es[..i]))
      && i + n <= |es|
      && es[i..i + n] == RelOpsIn([es[i]])
      && ops[i..i + n] == Operators(ops[i])
  {
    hide RelOpsIn, Tree, Operators, Built, Missing;
    var es := RelOpsIn([e]);
    OperatorsAreBuilt(e, make, next);
    RelOpSegment([e], i);
    AllRelOps([e]);
    assert es[i] in es;
    BuiltSegment(es, make, next, i, |RelOpsIn([es[i]])|);
    OperatorsAreBuilt(es[i], make, next + Missing(es[..i]));
    BuiltSegment(es, make, next, i, 1);
    BuiltHead(es[i], [], make, next + Missing(es[..i]));
    assert es[i..i + 1] == [es[i]] + [];
  }

  lemma AllRelOps(es: seq<Element>)
    ensures forall d :: d in RelOpsIn(es) ==> IsRelOp(d)
  {
    forall d | d in RelOpsIn(es) ensures IsRelOp(d) {
      FilterMembers(IsRelOp, Below(es), d);
    }
  }

  function NodesOf(ops: seq<Operator>): seq<OperatorNode> {
    Map((op: Operator) => op.node, ops)
  }

  lemma {:induction false} WalkVisitsOperators(op: Operator)
    ensures Walk(op) == NodesOf(Operators(op))
    decreases op, 1
  {
    WalkAllVisitsOperators(op.children);
  }

  lemma {:induction false} WalkAllVisitsOperators(ops: seq<Operator>)
    ensures WalkAll(ops) == NodesOf(OperatorsIn(ops))
    decreases ops, 0
  {
    if ops != [] {
      WalkVisitsOperators(ops[0]);
      WalkAllVisitsOperators(ops[1..]);
    }
  }

  lemma {:induction false} NodesOfBuilt(es: seq<Element>, make: NodeMaker, next: nat)
    ensures NodesOf(Built(es, make, next)) == Nodes(Numbered(es, next), make)
  {
    hide Tree, HasOwnId, IdFor, NodesOf, Nodes;
    if es == [] {
      NoNodes(make);
    } else {
      var after := next + if HasOwnId(es[0]) then 0 else 1;
      NodesOfBuilt(es[1..], make, after);
      NodesStep(Tree(es[0], make, next), Built(es[1..], make, after));
      NumberedNodesStep((es[0], IdFor(es[0], next)), Numbered(es[1..], after), make);
      TreeNode(es[0], make, next);
    }
  }

  lemma NoNodes(make: NodeMaker)
    ensures NodesOf([]) == [] == Nodes([], make)
  {
  }

  lemma NodesStep(op: Operator, ops: seq<Operator>)
    ensures NodesOf([op] + ops) == [op.node] + NodesOf(ops)
  {
  }

  lemma NumberedNodesStep(p: NumberedRelOp, numbered: seq<NumberedRelOp>, make: NodeMaker)
    ensures Nodes([p] + numbered, make) == [make(p.0, p.1)] + Nodes(numbered, make)
  {
  }

  lemma TreeNode(e: Element, make: NodeMaker, next: nat)
    ensures Tree(e, make, next).node == make(e, IdFor(e, next))
  {
  }

  /** The preorder walk of a built tree is, node for node, the RelOps of the document in document order. */
  lemma WalkIsDocumentOrder(e: Element, make: NodeMaker, next: nat)
    requires IsRelOp(e)
    ensures Walk(Tree(e, make, next)) == Nodes(Numbered(RelOpsIn([e]), next), make)
  {
    hide Tree, Walk, Operators, Built, Numbered, RelOpsIn, NodesOf, Nodes;
    WalkVisitsOperators(Tree(e, make, next));
    OperatorsAreBuilt(e, make, next);
    NodesOfBuilt(RelOpsIn([e]), make, next);
  }

  // ---------- Distinct ids ----------

  function Ids(numbered: seq<NumberedRelOp>): seq<string> {
    seq(|numbered|, i requires 0 <= i < |numbered| => numbered[i].1)
  }

  /** The NodeIds the document states, in document order. */
  function ExplicitIds(es: seq<Element>): seq<string> {
    if es == [] then [] else (if HasOwnId(es[0]) then [Get(es[0], "NodeId").value] else []) + ExplicitIds(es[1..])
  }

  /** count consecutive values of the counter. */
  function GeneratedIds(next: nat, count: nat): seq<string> {
    seq(count, i requires 0 <= i < count => Text.Decimal(next + i))
  }

  lemma {:induction false} IdsSplit(es: seq<Element>, next: nat)
    ensures multiset(Ids(Numbered(es, next))) == multiset(ExplicitIds(es)) + multiset(GeneratedIds(next, Missing(es)))
  {
    if es != [] {
      var e, tail := es[0], es[1..];
      IdsSplit(tail, next + if HasOwnId(e) then 0 else 1);
      IdsStep((e, IdFor(e, next)), Numbered(tail, next + if HasOwnId(e) then 0 else 1));
      SplitStep(es, next);
    }
  }

  lemma SplitStep(es: seq<Element>, next: nat)
    requires es != []
    ensures HasOwnId(es[0]) ==>
              ExplicitIds(es) == [IdFor(es[0], next)] + ExplicitIds(es[1..]) && Missing(es) == Missing(es[1..])
    ensures !HasOwnId(es[0]) ==>
              ExplicitIds(es) == ExplicitIds(es[1..])
              && GeneratedIds(next, Missing(es)) == [IdFor(es[0], next)] + GeneratedIds(next + 1, Missing(es[1..]))
  {
    GeneratedStep(next, Missing(es[1..]));
  }

  lemma GeneratedStep(next: nat, count: nat)
    ensures GeneratedIds(next, count + 1) == [Text.Decimal(next)] + GeneratedIds(next + 1, count)
  {
  }

  lemma IdsStep(p: NumberedRelOp, numbered: seq<NumberedRelOp>)
    ensures Ids([p] + numbered) == [p.1] + Ids(numbered)
  {
  }

  lemma GeneratedDistinct(next: nat, count: nat)
    ensures Distinct(GeneratedIds(next, count))
  {
    var drawn := GeneratedIds(next, count);
    forall i, j | 0 <= i < j < count ensures drawn[i] != drawn[j] {
      if drawn[i] == drawn[j] {
        Text.DecimalInjective(next + i, next + j);
      }
    }
  }

  lemma GeneratedAvoid(next: nat, count: nat, stated: seq<string>)
    ensures (forall id :: id in GeneratedIds(next, count) ==> id !in stated)
       <==> (forall j: nat :: next <= j < next + count ==> Text.Decimal(j) !in stated)
  {
    var drawn := GeneratedIds(next, count);
    if forall id :: id in drawn ==> id !in stated {
      forall j: nat | next <= j < next + count ensures Text.Decimal(j) !in stated {
        assert drawn[j - next] in drawn;
      }
    } else {
      var id :| id in drawn && id in stated;
      var i :| 0 <= i < |drawn| && drawn[i] == id;
      assert Text.Decimal(next + i) in stated;
    }
  }

  /**
   * Ids are all distinct exactly when the stated NodeIds are, and none of them
   * is one of the numbers the counter hands out.
   */
  lemma IdsDistinctExactly(es: seq<Element>, next: nat)
    ensures Distinct(Ids(Numbered(es, next))) <==>
              Distinct(ExplicitIds(es))
              && forall j: nat :: next <= j < next + Missing(es) ==> Text.Decimal(j) !in ExplicitIds(es)
  {
    IdsSplit(es, next);
    GeneratedDistinct(next, Missing(es));
    DistinctMix(Ids(Numbered(es, next)), ExplicitIds(es), GeneratedIds(next, Missing(es)));
    GeneratedAvoid(next, Missing(es), ExplicitIds(es));
  }
}
