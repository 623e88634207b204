/** On-demand fix proposals: model-written SQL, kept only where Tier 0 has no fix and only if validated. */
module FixEngine {
  import opened Wrappers
  import opened Sequences
  import opened PlanIr
  import opened RulesEngine
  import opened ModelResponse
  import opened PlanProperties
  import Text

  datatype FindingFix = FindingFix(findingIndex: nat, rewrittenQuery: Option<string>, indexScript: Option<string>)

  datatype FixProposal = FixProposal(
    fixes: seq<FindingFix>,
    degraded: bool,
    degradedReason: Option<string>,
    modelName: string)

  /** validate_select_only and validate_create_index_only: which stripped texts they let through. */
  datatype Validators = Validators(isSelect: string -> bool, isCreateIndex: string -> bool)

  function QueryReader(count: nat, v: Validators): Reader {
    EntryReader("rewritten_query", count, v.isSelect)
  }

  function ScriptReader(count: nat, v: Validators): Reader {
    EntryReader("index_script", count, v.isCreateIndex)
  }

  /** Offers count only for findings Tier 0 left without a fix. */
  function OpenQueryReader(fs: seq<Finding>, v: Validators): Reader {
    OnlyFor(QueryReader(|fs|, v), IsOpen(fs))
  }

  function OpenScriptReader(fs: seq<Finding>, v: Validators): Reader {
    OnlyFor(ScriptReader(|fs|, v), IsOpen(fs))
  }

  /** The validated texts the response offers for finding i. */
  function Offer(items: seq<Json>, count: nat, v: Validators, i: nat): FindingFix {
    FindingFix(i, Earliest(items, QueryReader(count, v), i), Earliest(items, ScriptReader(count, v), i))
  }

  predicate Offers(fix: FindingFix) {
    fix.rewrittenQuery.Some? || fix.indexScript.Some?
  }

  /** The offers for the findings from k on that Tier 0 left without a fix. */
  function FixesFrom(fs: seq<Finding>, items: seq<Json>, v: Validators, k: nat): seq<FindingFix>
    requires k <= |fs|
    decreases |fs| - k
  {
    if k == |fs| then []
    else
      (if !Truthy(fs[k].suggestedFix) && Offers(Offer(items, |fs|, v, k)) then [Offer(items, |fs|, v, k)] else [])
      + FixesFrom(fs, items, v, k + 1)
  }

  function Proposal(fs: seq<Finding>, model: string, outcome: Outcome, v: Validators): FixProposal {
    FixProposal(
      FixesFrom(fs, Entries(Raw(outcome), "fixes"), v, 0),
      Raw(outcome).None?,
      match outcome
      case ClientError(message) => Some("client_error: " + message)
      case Response(_) => if Raw(outcome).None? then Some("invalid_response_shape") else None,
      model)
  }

  // ---------- The engine ----------

  /** _extract_field: an entry the validator rejects leaves its index open for a later one. */
  method ExtractField(raw: Option<Json>, count: nat, field: string, validator: string -> bool)
    returns (result: map<int, string>)
    ensures forall i :: i in result <==> Earliest(Entries(raw, "fixes"), EntryReader(field, count, validator), i).Some?
    ensures forall i :: i in result ==>
      Earliest(Entries(raw, "fixes"), EntryReader(field, count, validator), i) == Some(result[i])
  {
    hide Text.Strip, Earliest, Entries, Filter;
    result := map[];
    var items := Entries(raw, "fixes");
    ghost var read := EntryReader(field, count, validator);
    EarliestOfNone(read);
    var k := 0;
    while k < |items|
      invariant 0 <= k <= |items|
      invariant forall i :: i in result <==> Earliest(items[..k], read, i).Some?
      invariant forall i :: i in result ==> Earliest(items[..k], read, i) == Some(result[i])
    {
      forall i {
        EarliestStep(items, k, read, i);
      }
      var item := items[k];
      k := k + 1;
      var index, text := AsIndex(Get(item, "finding_index")), Get(item, field);
      if index.None? || !text.JString? || Text.Strip(text.text) == "" { continue; }
      if !(0 <= index.value < count) { continue; }
      if index.value in result { continue; }
      if !validator(Text.Strip(text.text)) { continue; }
      result := result[index.value := Text.Strip(text.text)];
    }
    assert items[..k] == items;
  }

  /** None stands for the model call's error passing through. */
  method ProposeFixes(fs: seq<Finding>, model: string, call: CallResult, v: Validators)
    returns (proposal: Option<FixProposal>)
    ensures proposal
         == match call
            case CallRaised => None
            case Answered(outcome) => Some(Proposal(fs, model, outcome, v))
  {
    hide Earliest, Entries;
    var raw := None;
    var reason := None;
    if call.CallRaised? { return None; }
    match call.outcome {
      case ClientError(message) => reason := Some("client_error: " + message);
      case Response(body) =>
        if body.JObject? {
          raw := Some(body);
        } else {
          reason := Some("invalid_response_shape");
        }
    }
    ghost var items := Entries(raw, "fixes");
    var rewrites := ExtractField(raw, |fs|, "rewritten_query", v.isSelect);
    var scripts := ExtractField(raw, |fs|, "index_script", v.isCreateIndex);

    var fixes := [];
    var i := 0;
    while i < |fs|
      invariant 0 <= i <= |fs|
      invariant fixes + FixesFrom(fs, items, v, i) == FixesFrom(fs, items, v, 0)
    {
      var finding := fs[i];
      var query := if i in rewrites then Some(rewrites[i]) else None;
      var script := if i in scripts then Some(scripts[i]) else None;
      OfferTruthy(items, |fs|, v, i);
      ghost var later := FixesFrom(fs, items, v, i + 1);
      if !Truthy(finding.suggestedFix) && (Truthy(query) || Truthy(script)) {
        Associative(fixes, [FindingFix(i, query, script)], later);
        fixes := fixes + [FindingFix(i, query, script)];
      } else {
        assert [] + later == later;
      }
      i := i + 1;
    }
    assert fixes == FixesFrom(fs, items, v, 0);
    var degraded := raw.None?;
    proposal := Some(FixProposal(fixes, degraded, if degraded then reason else None, model));
  }

  /** A kept text is never blank, so truthiness and presence coincide. */
  lemma OfferTruthy(items: seq<Json>, count: nat, v: Validators, i: nat)
    ensures var fix := Offer(items, count, v, i);
      (Truthy(fix.rewrittenQuery) <==> fix.rewrittenQuery.Some?)
      && (Truthy(fix.indexScript) <==> fix.indexScript.Some?)
  {
    hide Text.Strip, Earliest;
    if Earliest(items, QueryReader(count, v), i).Some? {
      EarliestIsSound(items, "rewritten_query", count, v.isSelect, i);
    }
    if Earliest(items, ScriptReader(count, v), i).Some? {
      EarliestIsSound(items, "index_script", count, v.isCreateIndex, i);
    }
  }

  // ---------- Gating ----------

  lemma {:induction false} FixesFromMembers(fs: seq<Finding>, items: seq<Json>, v: Validators, k: nat, fix: FindingFix)
    requires k <= |fs|
    ensures fix in FixesFrom(fs, items, v, k) <==>
              k <= fix.findingIndex < |fs| && !Truthy(fs[fix.findingIndex].suggestedFix)
              && Offers(fix) && fix == Offer(items, |fs|, v, fix.findingIndex)
    decreases |fs| - k
  {
    hide Earliest;
    if k < |fs| {
      FixesFromMembers(fs, items, v, k + 1, fix);
    }
  }

  ghost predicate Increasing(fixes: seq<FindingFix>) {
    forall p, q :: 0 <= p < q < |fixes| ==> fixes[p].findingIndex < fixes[q].findingIndex
  }

  lemma {:induction false} FixesFromIncreasing(fs: seq<Finding>, items: seq<Json>, v: Validators, k: nat)
    requires k <= |fs|
    ensures Increasing(FixesFrom(fs, items, v, k))
    decreases |fs| - k
  {
    hide Earliest, Offer;
    if k < |fs| {
      FixesFromIncreasing(fs, items, v, k + 1);
      var rest := FixesFrom(fs, items, v, k + 1);
      forall fix | fix in rest ensures fix.findingIndex > k {
        FixesFromMembers(fs, items, v, k + 1, fix);
      }
      OfferIndex(items, |fs|, v, k);
      var fixes := FixesFrom(fs, items, v, k);
      forall p, q | 0 <= p < q < |fixes| ensures fixes[p].findingIndex < fixes[q].findingIndex {
        if |fixes| > |rest| {
          assert fixes[q] == rest[q - 1];
          assert p == 0 || fixes[p] == rest[p - 1];
        }
      }
    }
  }

  lemma OfferIndex(items: seq<Json>, count: nat, v: Validators, i: nat)
    ensures Offer(items, count, v, i).findingIndex == i
  {
  }

  ghost predicate Validated(items: seq<Json>, read: Reader, i: nat) {
    exists item :: item in items && CarriesIndex(read, i)(item)
  }

  /** Kept texts were validated themselves, wherever in the response they stood. */
  predicate KeptTextsPass(fix: FindingFix, v: Validators) {
    (fix.rewrittenQuery.Some? ==> fix.rewrittenQuery.value != "" && v.isSelect(fix.rewrittenQuery.value))
    && (fix.indexScript.Some? ==> fix.indexScript.value != "" && v.isCreateIndex(fix.indexScript.value))
  }

  /** Every proposed fix is in range, in order, for a finding without a Tier 0 fix, and validated. */
  lemma ProposalSound(fs: seq<Finding>, model: string, outcome: Outcome, v: Validators)
    ensures var fixes := Proposal(fs, model, outcome, v).fixes;
      Increasing(fixes)
      && forall fix :: fix in fixes ==>
        fix.findingIndex < |fs| && !Truthy(fs[fix.findingIndex].suggestedFix) && Offers(fix) && KeptTextsPass(fix, v)
  {
    hide Earliest, Text.Strip;
    var items := Entries(Raw(outcome), "fixes");
    FixesFromIncreasing(fs, items, v, 0);
    forall fix | fix in FixesFrom(fs, items, v, 0)
      ensures fix.findingIndex < |fs| && !Truthy(fs[fix.findingIndex].suggestedFix) && Offers(fix)
              && KeptTextsPass(fix, v)
    {
      FixesFromMembers(fs, items, v, 0, fix);
      var i := fix.findingIndex;
      if fix.rewrittenQuery.Some? { EarliestIsSound(items, "rewritten_query", |fs|, v.isSelect, i); }
      if fix.indexScript.Some? { EarliestIsSound(items, "index_script", |fs|, v.isCreateIndex, i); }
    }
  }

  /**
   * A fix is proposed for finding i exactly when Tier 0 has none and some
   * entry, rejected earlier ones notwithstanding, offers a validated text.
   */
  lemma ProposalComplete(fs: seq<Finding>, model: string, outcome: Outcome, v: Validators, i: nat)
    requires i < |fs|
    ensures (exists fix :: fix in Proposal(fs, model, outcome, v).fixes && fix.findingIndex == i) <==>
              !Truthy(fs[i].suggestedFix)
              && (Validated(Entries(Raw(outcome), "fixes"), QueryReader(|fs|, v), i)
                  || Validated(Entries(Raw(outcome), "fixes"), ScriptReader(|fs|, v), i))
  {
    hide Earliest;
    var items := Entries(Raw(outcome), "fixes");
    EarliestExists(items, QueryReader(|fs|, v), i);
    EarliestExists(items, ScriptReader(|fs|, v), i);
    var offer := Offer(items, |fs|, v, i);
    FixesFromMembers(fs, items, v, 0, offer);
    forall fix | fix in FixesFrom(fs, items, v, 0) && fix.findingIndex == i ensures fix == offer {
      FixesFromMembers(fs, items, v, 0, fix);
    }
  }

  /** What is merged for an open finding is offered for it, and nothing is for any other. */
  lemma OpenMerge(fs: seq<Finding>, items: seq<Json>, v: Validators, i: int)
    ensures IsOpen(fs)(i) ==>
              Offer(items, |fs|, v, i)
              == FindingFix(
                   i, Earliest(items, OpenQueryReader(fs, v), i), Earliest(items, OpenScriptReader(fs, v), i))
    ensures !IsOpen(fs)(i) ==>
              Earliest(items, OpenQueryReader(fs, v), i) == None == Earliest(items, OpenScriptReader(fs, v), i)
  {
    hide Earliest;
    EarliestOnlyFor(items, QueryReader(|fs|, v), IsOpen(fs), i);
    EarliestOnlyFor(items, ScriptReader(|fs|, v), IsOpen(fs), i);
  }

  lemma {:induction false} SameOffersSameFixes(
    fs: seq<Finding>, xs: seq<Json>, ys: seq<Json>, v: Validators, k: nat)
    requires k <= |fs|
    requires forall i: nat :: IsOpen(fs)(i) ==> Offer(xs, |fs|, v, i) == Offer(ys, |fs|, v, i)
    ensures FixesFrom(fs, xs, v, k) == FixesFrom(fs, ys, v, k)
    decreases |fs| - k
  {
    hide Earliest, Offer;
    if k < |fs| {
      assert IsOpen(fs)(k) <==> !Truthy(fs[k].suggestedFix);
      SameOffersSameFixes(fs, xs, ys, v, k + 1);
    }
  }

  /** An open finding's offer can be read off the fixes: it is there if it offers anything. */
  lemma FixesShowOffers(fs: seq<Finding>, xs: seq<Json>, ys: seq<Json>, v: Validators, i: nat)
    requires FixesFrom(fs, xs, v, 0) == FixesFrom(fs, ys, v, 0) && IsOpen(fs)(i)
    ensures Offer(xs, |fs|, v, i) == Offer(ys, |fs|, v, i)
  {
    hide Earliest, FixesFrom;
    var x, y := Offer(xs, |fs|, v, i), Offer(ys, |fs|, v, i);
    FixesFromMembers(fs, xs, v, 0, x);
    FixesFromMembers(fs, ys, v, 0, x);
    FixesFromMembers(fs, xs, v, 0, y);
    FixesFromMembers(fs, ys, v, 0, y);
  }

  /** The proposed fixes are the same exactly when both fields merge alike for the open findings. */
  lemma ProposedAlikeExactly(fs: seq<Finding>, xs: seq<Json>, ys: seq<Json>, v: Validators)
    ensures FixesFrom(fs, xs, v, 0) == FixesFrom(fs, ys, v, 0)
       <==> SameMerge(xs, ys, OpenQueryReader(fs, v)) && SameMerge(xs, ys, OpenScriptReader(fs, v))
  {
    hide Earliest, FixesFrom, Offer, OpenQueryReader, OpenScriptReader, IsOpen;
    if FixesFrom(fs, xs, v, 0) == FixesFrom(fs, ys, v, 0) {
      forall i
        ensures Earliest(xs, OpenQueryReader(fs, v), i) == Earliest(ys, OpenQueryReader(fs, v), i)
        ensures Earliest(xs, OpenScriptReader(fs, v), i) == Earliest(ys, OpenScriptReader(fs, v), i)
      {
        OpenMerge(fs, xs, v, i);
        OpenMerge(fs, ys, v, i);
        if IsOpen(fs)(i) {
          OpenInRange(fs, i);
          FixesShowOffers(fs, xs, ys, v, i);
        }
      }
    }
    if SameMerge(xs, ys, OpenQueryReader(fs, v)) && SameMerge(xs, ys, OpenScriptReader(fs, v)) {
      forall i: nat | IsOpen(fs)(i) ensures Offer(xs, |fs|, v, i) == Offer(ys, |fs|, v, i) {
        OpenMerge(fs, xs, v, i);
        OpenMerge(fs, ys, v, i);
      }
      SameOffersSameFixes(fs, xs, ys, v, 0);
    }
  }

  lemma OpenInRange(fs: seq<Finding>, i: int)
    requires IsOpen(fs)(i)
    ensures 0 <= i < |fs|
  {
  }

  lemma SameProposal(fs: seq<Finding>, model: string, a: Json, b: Json, v: Validators)
    requires a.JObject? && b.JObject?
    ensures Proposal(fs, model, Response(a), v) == Proposal(fs, model, Response(b), v)
       <==> FixesFrom(fs, Entries(Some(a), "fixes"), v, 0) == FixesFrom(fs, Entries(Some(b), "fixes"), v, 0)
  {
    hide FixesFrom, Entries;
  }

  /** The entries may come in any order, and be repeated, as long as usable ones do not contradict each other. */
  lemma ProposalOrderIrrelevant(fs: seq<Finding>, model: string, a: Json, b: Json, v: Validators)
    requires a.JObject? && b.JObject?
    requires SameEntries(Entries(Some(a), "fixes"), Entries(Some(b), "fixes"))
    requires Agreeing(Entries(Some(a), "fixes"), OpenQueryReader(fs, v))
    requires Agreeing(Entries(Some(a), "fixes"), OpenScriptReader(fs, v))
    ensures Proposal(fs, model, Response(a), v) == Proposal(fs, model, Response(b), v)
  {
    hide Proposal, Earliest, Agreeing, SameMerge, OpenQueryReader, OpenScriptReader;
    AgreeingMerge(Entries(Some(a), "fixes"), Entries(Some(b), "fixes"), OpenQueryReader(fs, v));
    AgreeingMerge(Entries(Some(a), "fixes"), Entries(Some(b), "fixes"), OpenScriptReader(fs, v));
    ProposedAlikeExactly(fs, Entries(Some(a), "fixes"), Entries(Some(b), "fixes"), v);
    SameProposal(fs, model, a, b, v);
  }

  /** The proposal ignores the order of the entries exactly when validated texts for open findings never contradict. */
  lemma ProposalOrderExactly(fs: seq<Finding>, model: string, response: Json, items: seq<Json>, v: Validators)
    requires response.JObject?
    ensures (forall ys :: multiset(ys) == multiset(items) ==>
               Proposal(fs, model, Response(WithEntries(response, "fixes", ys)), v)
               == Proposal(fs, model, Response(WithEntries(response, "fixes", items)), v))
       <==> Agreeing(items, OpenQueryReader(fs, v)) && Agreeing(items, OpenScriptReader(fs, v))
  {
    hide Proposal, Earliest, Agreeing, SameMerge, OpenQueryReader, OpenScriptReader, FixesFrom;
    forall ys
      ensures Proposal(fs, model, Response(WithEntries(response, "fixes", ys)), v)
           == Proposal(fs, model, Response(WithEntries(response, "fixes", items)), v)
         <==> SameMerge(items, ys, OpenQueryReader(fs, v)) && SameMerge(items, ys, OpenScriptReader(fs, v))
    {
      SameProposal(fs, model, WithEntries(response, "fixes", items), WithEntries(response, "fixes", ys), v);
      ProposedAlikeExactly(fs, items, ys, v);
    }
    OrderIrrelevantExactly(items, OpenQueryReader(fs, v));
    OrderIrrelevantExactly(items, OpenScriptReader(fs, v));
  }

  /** A response with one validated entry per finding proposes alike in every order of its entries. */
  lemma OneOfferPerFinding(
    fs: seq<Finding>, model: string, response: Json, items: seq<Json>, ys: seq<Json>, v: Validators)
    requires response.JObject? && multiset(ys) == multiset(items)
    requires DistinctIndices(items, OpenQueryReader(fs, v)) && DistinctIndices(items, OpenScriptReader(fs, v))
    ensures Proposal(fs, model, Response(WithEntries(response, "fixes", ys)), v)
         == Proposal(fs, model, Response(WithEntries(response, "fixes", items)), v)
  {
    hide Proposal, Agreeing, DistinctIndices, OpenQueryReader, OpenScriptReader, WithEntries;
    DistinctIndicesAgree(items, OpenQueryReader(fs, v));
    DistinctIndicesAgree(items, OpenScriptReader(fs, v));
    ProposalOrderExactly(fs, model, response, items, v);
  }

  /** Entries that offer an open finding nothing validated may be added or dropped anywhere. */
  lemma ProposalJunkIrrelevant(
    fs: seq<Finding>, model: string, a: Json, b: Json, v: Validators,
    before: seq<Json>, junk: seq<Json>, after: seq<Json>)
    requires a.JObject? && b.JObject?
    requires Entries(Some(a), "fixes") == before + junk + after
    requires Entries(Some(b), "fixes") == before + after
    requires forall item :: item in junk ==> OpenQueryReader(fs, v)(item).None? && OpenScriptReader(fs, v)(item).None?
    ensures Proposal(fs, model, Response(a), v) == Proposal(fs, model, Response(b), v)
  {
    hide Proposal, Earliest, SameMerge, OpenQueryReader, OpenScriptReader, FixesFrom;
    JunkIgnored(before, junk, after, OpenQueryReader(fs, v));
    JunkIgnored(before, junk, after, OpenScriptReader(fs, v));
    ProposedAlikeExactly(fs, before + junk + after, before + after, v);
    SameProposal(fs, model, a, b, v);
  }

  /** What is proposed for finding i depends on nothing but finding i and the entries that name i. */
  lemma OffersDoNotInterfere(
    fs: seq<Finding>, model: string, a: Outcome, b: Outcome, v: Validators, fix: FindingFix)
    requires Filter(Mentions(fix.findingIndex), Entries(Raw(a), "fixes"))
          == Filter(Mentions(fix.findingIndex), Entries(Raw(b), "fixes"))
    ensures fix in Proposal(fs, model, a, v).fixes <==> fix in Proposal(fs, model, b, v).fixes
  {
    hide Earliest, Filter, Mentions, FixesFrom, Entries, Raw;
    var xs, ys := Entries(Raw(a), "fixes"), Entries(Raw(b), "fixes");
    MentionsDecide(xs, ys, "rewritten_query", |fs|, v.isSelect, fix.findingIndex);
    MentionsDecide(xs, ys, "index_script", |fs|, v.isCreateIndex, fix.findingIndex);
    FixesFromMembers(fs, xs, v, 0, fix);
    FixesFromMembers(fs, ys, v, 0, fix);
  }

  /** Over a plan's own findings: never for a missing-index suggestion, for any other exactly when validated. */
  lemma PlanFixGating(plan: Plan, fmt: Format, model: string, outcome: Outcome, v: Validators, i: nat)
    requires i < |Findings(plan, fmt)|
    ensures var fs := Findings(plan, fmt);
      (exists fix :: fix in Proposal(fs, model, outcome, v).fixes && fix.findingIndex == i) <==>
        fs[i].ruleId != "missing_index_available"
        && (Validated(Entries(Raw(outcome), "fixes"), QueryReader(|fs|, v), i)
            || Validated(Entries(Raw(outcome), "fixes"), ScriptReader(|fs|, v), i))
  {
    hide Findings, Proposal, Validated, Entries, Raw;
    var fs := Findings(plan, fmt);
    ProposalComplete(fs, model, outcome, v, i);
    FixOnlyForIndexes(plan, fmt, fs[i]);
  }
}
