/** Tier 1 narration: the model explains findings, and only that. */
module NarrationEngine {
  import opened Wrappers
  import opened Sequences
  import opened PlanIr
  import opened RulesEngine
  import opened ModelResponse
  import opened PlanSummaries
  import Text

  datatype Source = FromModel | Fallback

  datatype FindingNarration = FindingNarration(
    ruleId: string,
    severity: Severity,
    operatorId: Option<string>,
    summary: string,
    detail: string,
    explanation: string,
    explanationSource: Source,
    suggestedFix: Option<string>)

  datatype Narration = Narration(
    overview: string,
    overviewSource: Source,
    findings: seq<FindingNarration>,
    degraded: bool,
    degradedReason: Option<string>,
    modelName: string)

  function ExplanationReader(count: nat): Reader {
    EntryReader("explanation", count, AnyText)
  }

  function FixReader(count: nat): Reader {
    EntryReader("suggested_fix", count, AnyText)
  }

  /** Fixes count only for findings Tier 0 left without one. */
  function OpenFixReader(fs: seq<Finding>): Reader {
    OnlyFor(FixReader(|fs|), IsOpen(fs))
  }

  // ---------- Fallback texts ----------

  function FallbackExplanation(f: Finding): string {
    Text.Strip(f.summary + ". " + f.detail)
  }

  function SeverityValue(s: Severity): string {
    match s
    case Critical => "critical"
    case Warning => "warning"
    case Info => "info"
  }

  function CountText(fs: seq<Finding>, s: Severity): seq<string> {
    var n := |Filter(HasSeverity(s), fs)|;
    if n == 0 then [] else [Text.Decimal(n) + " " + SeverityValue(s)]
  }

  function LowerStatementType(t: StatementType): string {
    match t
    case Select => "select"
    case InsertStatement => "insert"
    case Update => "update"
    case Delete => "delete"
    case Merge => "merge"
    case OtherStatement => "other"
  }

  function FallbackOverview(summary: PlanSummary, fs: seq<Finding>): string {
    var parts := CountText(fs, Critical) + CountText(fs, Warning) + CountText(fs, Info);
    var counts := if parts == [] then "no findings" else Text.Join(", ", parts);
    var subject := if Truthy(summary.objectName) then summary.objectName.value
                   else "this " + LowerStatementType(summary.statementType) + " statement";
    "Automated narration was unavailable for this plan. Showing the rules engine's own findings for "
    + subject + ": " + counts + "."
  }

  // ---------- What a response amounts to ----------

  /** One finding's narration, given what the model usably said about it. */
  function Narrated(f: Finding, explanation: Option<string>, fix: Option<string>): FindingNarration {
    FindingNarration(
      f.ruleId, f.severity, f.operatorId, f.summary, f.detail,
      if explanation.Some? then explanation.value else FallbackExplanation(f),
      if explanation.Some? then FromModel else Fallback,
      if Truthy(f.suggestedFix) then None else fix)
  }

  function NarratedAll(fs: seq<Finding>, items: seq<Json>): seq<FindingNarration> {
    seq(|fs|, i requires 0 <= i < |fs| =>
      Narrated(fs[i], Earliest(items, ExplanationReader(|fs|), i), Earliest(items, FixReader(|fs|), i)))
  }

  /** The model's overview, stripped, if it is non-blank text. */
  function ModelOverview(raw: Option<Json>): Option<string> {
    if raw.None? then None
    else
      match Get(raw.value, "overview")
      case JString(text) => if Text.Strip(text) != "" then Some(Text.Strip(text)) else None
      case _ => None
  }

  function CallFailure(outcome: Outcome): Option<string> {
    match outcome
    case ClientError(message) => Some("client_error: " + message)
    case Response(_) => if Raw(outcome).None? then Some("invalid_response_shape") else None
  }

  predicate ModelSpoke(n: FindingNarration) {
    n.explanationSource == FromModel
  }

  /** Degraded means no model text is shown at all; only then is a reason given. */
  function NarrationOf(fs: seq<Finding>, summary: PlanSummary, model: string, outcome: Outcome): (n: Narration)
    ensures |n.findings| == |fs|
  {
    var raw := Raw(outcome);
    var narrations := NarratedAll(fs, Entries(raw, "findings"));
    var overview := ModelOverview(raw);
    var degraded := overview.None? && !exists n :: n in narrations && ModelSpoke(n);
    Narration(
      if overview.Some? then overview.value else FallbackOverview(summary, fs),
      if overview.Some? then FromModel else Fallback,
      narrations,
      degraded,
      if !degraded then None
      else if CallFailure(outcome).Some? then CallFailure(outcome)
      else Some("invalid_response_shape"),
      model)
  }

  // ---------- The engine ----------

  /** _extract_explanations and _extract_suggested_fixes: one loop, run for either field. */
  method ExtractTexts(raw: Option<Json>, count: nat, field: string) returns (result: map<int, string>)
    ensures forall i :: i in result <==> Earliest(Entries(raw, "findings"), EntryReader(field, count, AnyText), i).Some?
    ensures forall i :: i in result ==>
      Earliest(Entries(raw, "findings"), EntryReader(field, count, AnyText), i) == Some(result[i])
  {
    hide Text.Strip, Earliest, Entries, Filter;
    result := map[];
    ghost var read := EntryReader(field, count, AnyText);
    var items := Entries(raw, "findings");
    EarliestOfNone(read);
    var k := 0;
    while k < |items|
      invariant 0 <= k <= |items|
      invariant forall i :: i in result <==> Earliest(items[..k], read, i).Some?
      invariant forall i :: i in result ==> Earliest(items[..k], read, i) == Some(result[i])
    {
      forall i {
        EarliestStep(items, k, read, i);
      }
      var item := items[k];
      k := k + 1;
      var index, text := AsIndex(Get(item, "finding_index")), Get(item, field);
      if index.None? || !text.JString? || Text.Strip(text.text) == "" { continue; }
      if !(0 <= index.value < count) { continue; }
      if index.value in result { continue; }
      result := result[index.value := Text.Strip(text.text)];
    }
    assert items[..k] == items;
  }

  /** summary is what the prompt was built from; None stands for the model call's error passing through. */
  method GetNarration(fs: seq<Finding>, summary: PlanSummary, model: string, call: CallResult)
    returns (narration: Option<Narration>)
    ensures narration
         == match call
            case CallRaised => None
            case Answered(outcome) => Some(NarrationOf(fs, summary, model, outcome))
  {
    hide Earliest, FallbackOverview, FallbackExplanation, Text.Strip;
    var raw := None;
    var reason := None;
    if call.CallRaised? { return None; }
    match call.outcome {
      case ClientError(message) => reason := Some("client_error: " + message);
      case Response(body) =>
        if body.JObject? {
          raw := Some(body);
        } else {
          reason := Some("invalid_response_shape");
        }
    }
    var explanations := ExtractTexts(raw, |fs|, "explanation");
    var fixes := ExtractTexts(raw, |fs|, "suggested_fix");
    ghost var items := Entries(raw, "findings");

    var narrations := [];
    for i := 0 to |fs|
      invariant narrations == NarratedAll(fs, items)[..i]
    {
      if i in explanations {
        EarliestIsSound(items, "explanation", |fs|, AnyText, i);
      }
      var explanation := FallbackExplanation(fs[i]);
      var source := Fallback;
      if i in explanations && explanations[i] != "" {
        explanation, source := explanations[i], FromModel;
      }
      var fix := None;
      if !Truthy(fs[i].suggestedFix) && i in fixes {
        fix := Some(fixes[i]);
      }
      narrations := narrations + [FindingNarration(
        fs[i].ruleId, fs[i].severity, fs[i].operatorId, fs[i].summary, fs[i].detail, explanation, source, fix)];
    }
    assert NarratedAll(fs, items)[..|fs|] == NarratedAll(fs, items);

    var overview, overviewSource := FallbackOverview(summary, fs), Fallback;
    if raw.Some? {
      var text := Get(raw.value, "overview");
      if text.JString? && Text.Strip(text.text) != "" {
        overview, overviewSource := Text.Strip(text.text), FromModel;
      }
    }
    var degraded := !(overviewSource == FromModel || exists n :: n in narrations && ModelSpoke(n));
    if !degraded {
      reason := None;
    } else if reason.None? {
      reason := Some("invalid_response_shape");
    }
    narration := Some(Narration(overview, overviewSource, narrations, degraded, reason, model));
  }

  // ---------- What no response can change ----------

  /** Order, membership, identity and Tier 0 fixes of the findings survive every response. */
  lemma FindingsAreAuthoritative(fs: seq<Finding>, summary: PlanSummary, model: string, outcome: Outcome, i: nat)
    requires i < |fs|
    ensures var ns := NarrationOf(fs, summary, model, outcome).findings;
      |ns| == |fs|
      && ns[i].ruleId == fs[i].ruleId && ns[i].severity == fs[i].severity && ns[i].operatorId == fs[i].operatorId
      && ns[i].summary == fs[i].summary && ns[i].detail == fs[i].detail
      && (Truthy(fs[i].suggestedFix) ==> ns[i].suggestedFix == None)
      && (ns[i].suggestedFix.Some? ==> Truthy(ns[i].suggestedFix))
      && (ns[i].explanationSource == Fallback ==> ns[i].explanation == FallbackExplanation(fs[i]))
      && (ns[i].explanationSource == FromModel ==> ns[i].explanation != "")
  {
    hide Earliest, FallbackOverview, FallbackExplanation;
    var items := Entries(Raw(outcome), "findings");
    if Earliest(items, ExplanationReader(|fs|), i).Some? {
      EarliestIsSound(items, "explanation", |fs|, AnyText, i);
    }
    if Earliest(items, FixReader(|fs|), i).Some? {
      EarliestIsSound(items, "suggested_fix", |fs|, AnyText, i);
    }
  }

  /** What is merged for finding i, read off its narration. */
  lemma NarrationShowsMerge(fs: seq<Finding>, items: seq<Json>, i: nat)
    requires i < |fs|
    ensures var n := NarratedAll(fs, items)[i];
      Earliest(items, ExplanationReader(|fs|), i) == (if ModelSpoke(n) then Some(n.explanation) else None)
      && Earliest(items, OpenFixReader(fs), i) == n.suggestedFix
  {
    hide Earliest, FallbackExplanation;
    EarliestOnlyFor(items, FixReader(|fs|), IsOpen(fs), i);
  }

  lemma MergeDecidesNarration(fs: seq<Finding>, xs: seq<Json>, ys: seq<Json>, i: nat)
    requires i < |fs|
    requires Earliest(xs, ExplanationReader(|fs|), i) == Earliest(ys, ExplanationReader(|fs|), i)
    requires Earliest(xs, OpenFixReader(fs), i) == Earliest(ys, OpenFixReader(fs), i)
    ensures NarratedAll(fs, xs)[i] == NarratedAll(fs, ys)[i]
  {
    hide Earliest, FallbackExplanation;
    EarliestOnlyFor(xs, FixReader(|fs|), IsOpen(fs), i);
    EarliestOnlyFor(ys, FixReader(|fs|), IsOpen(fs), i);
  }

  lemma NothingOutOfRange(fs: seq<Finding>, items: seq<Json>, i: int)
    requires !(0 <= i < |fs|)
    ensures Earliest(items, ExplanationReader(|fs|), i) == None == Earliest(items, OpenFixReader(fs), i)
  {
    hide Earliest;
    OutOfRange(items, "explanation", |fs|, AnyText, i);
    EarliestOnlyFor(items, FixReader(|fs|), IsOpen(fs), i);
  }

  /** The findings are narrated alike exactly when explanations, and fixes of open findings, merge alike. */
  lemma NarratedAlikeExactly(fs: seq<Finding>, xs: seq<Json>, ys: seq<Json>)
    ensures NarratedAll(fs, xs) == NarratedAll(fs, ys)
       <==> SameMerge(xs, ys, ExplanationReader(|fs|)) && SameMerge(xs, ys, OpenFixReader(fs))
  {
    hide Earliest, Narrated, ExplanationReader, OpenFixReader;
    if NarratedAll(fs, xs) == NarratedAll(fs, ys) {
      forall i
        ensures Earliest(xs, ExplanationReader(|fs|), i) == Earliest(ys, ExplanationReader(|fs|), i)
        ensures Earliest(xs, OpenFixReader(fs), i) == Earliest(ys, OpenFixReader(fs), i)
      {
        if 0 <= i < |fs| {
          NarrationShowsMerge(fs, xs, i);
          NarrationShowsMerge(fs, ys, i);
        } else {
          NothingOutOfRange(fs, xs, i);
          NothingOutOfRange(fs, ys, i);
        }
      }
    }
    if SameMerge(xs, ys, ExplanationReader(|fs|)) && SameMerge(xs, ys, OpenFixReader(fs)) {
      forall i | 0 <= i < |fs| ensures NarratedAll(fs, xs)[i] == NarratedAll(fs, ys)[i] {
        MergeDecidesNarration(fs, xs, ys, i);
      }
    }
  }

  lemma NarrationParts(fs: seq<Finding>, summary: PlanSummary, model: string, a: Json, b: Json)
    requires a.JObject? && b.JObject?
    ensures NarrationOf(fs, summary, model, Response(a)) == NarrationOf(fs, summary, model, Response(b))
       <==> ModelOverview(Some(a)) == ModelOverview(Some(b))
            && NarratedAll(fs, Entries(Some(a), "findings")) == NarratedAll(fs, Entries(Some(b), "findings"))
  {
    hide NarratedAll, FallbackOverview, ModelOverview, Entries;
  }

  /**
   * Two responses give one narration exactly when their overviews come to the
   * same, and so do explanations and, for findings Tier 0 left without a fix,
   * fixes.
   */
  lemma SameNarrationExactly(fs: seq<Finding>, summary: PlanSummary, model: string, a: Json, b: Json)
    requires a.JObject? && b.JObject?
    ensures NarrationOf(fs, summary, model, Response(a)) == NarrationOf(fs, summary, model, Response(b))
       <==> ModelOverview(Some(a)) == ModelOverview(Some(b))
            && SameMerge(Entries(Some(a), "findings"), Entries(Some(b), "findings"), ExplanationReader(|fs|))
            && SameMerge(Entries(Some(a), "findings"), Entries(Some(b), "findings"), OpenFixReader(fs))
  {
    hide NarrationOf, NarratedAll, ModelOverview, Entries, SameMerge, ExplanationReader, OpenFixReader;
    NarrationParts(fs, summary, model, a, b);
    NarratedAlikeExactly(fs, Entries(Some(a), "findings"), Entries(Some(b), "findings"));
  }

  /** The entries may come in any order, and be repeated, as long as usable ones do not contradict each other. */
  lemma ResponseOrderIrrelevant(fs: seq<Finding>, summary: PlanSummary, model: string, a: Json, b: Json)
    requires a.JObject? && b.JObject? && Get(a, "overview") == Get(b, "overview")
    requires SameEntries(Entries(Some(a), "findings"), Entries(Some(b), "findings"))
    requires Agreeing(Entries(Some(a), "findings"), ExplanationReader(|fs|))
    requires Agreeing(Entries(Some(a), "findings"), OpenFixReader(fs))
    ensures NarrationOf(fs, summary, model, Response(a)) == NarrationOf(fs, summary, model, Response(b))
  {
    hide NarrationOf, Earliest, Agreeing, SameMerge, ExplanationReader, OpenFixReader, NarratedAll;
    AgreeingMerge(Entries(Some(a), "findings"), Entries(Some(b), "findings"), ExplanationReader(|fs|));
    AgreeingMerge(Entries(Some(a), "findings"), Entries(Some(b), "findings"), OpenFixReader(fs));
    SameNarrationExactly(fs, summary, model, a, b);
  }

  /**
   * And only then: the narration ignores the order of the entries exactly when
   * usable explanations never contradict each other, and usable fixes do not
   * for any finding Tier 0 left without one.
   */
  lemma ResponseOrderExactly(fs: seq<Finding>, summary: PlanSummary, model: string, response: Json, items: seq<Json>)
    requires response.JObject?
    ensures (forall ys :: multiset(ys) == multiset(items) ==>
               NarrationOf(fs, summary, model, Response(WithEntries(response, "findings", ys)))
               == NarrationOf(fs, summary, model, Response(WithEntries(response, "findings", items))))
       <==> Agreeing(items, ExplanationReader(|fs|)) && Agreeing(items, OpenFixReader(fs))
  {
    hide NarrationOf, Earliest, Agreeing, SameMerge, ExplanationReader, OpenFixReader, NarratedAll;
    forall ys
      ensures NarrationOf(fs, summary, model, Response(WithEntries(response, "findings", ys)))
           == NarrationOf(fs, summary, model, Response(WithEntries(response, "findings", items)))
         <==> SameMerge(items, ys, ExplanationReader(|fs|)) && SameMerge(items, ys, OpenFixReader(fs))
    {
      SameNarrationExactly(
        fs, summary, model, WithEntries(response, "findings", items), WithEntries(response, "findings", ys));
    }
    OrderIrrelevantExactly(items, ExplanationReader(|fs|));
    OrderIrrelevantExactly(items, OpenFixReader(fs));
  }

  /** A response with one usable entry per finding narrates alike in every order of its entries. */
  lemma OneEntryPerFinding(
    fs: seq<Finding>, summary: PlanSummary, model: string, response: Json, items: seq<Json>, ys: seq<Json>)
    requires response.JObject? && multiset(ys) == multiset(items)
    requires DistinctIndices(items, ExplanationReader(|fs|)) && DistinctIndices(items, OpenFixReader(fs))
    ensures NarrationOf(fs, summary, model, Response(WithEntries(response, "findings", ys)))
         == NarrationOf(fs, summary, model, Response(WithEntries(response, "findings", items)))
  {
    hide NarrationOf, Agreeing, DistinctIndices, ExplanationReader, OpenFixReader, WithEntries;
    DistinctIndicesAgree(items, ExplanationReader(|fs|));
    DistinctIndicesAgree(items, OpenFixReader(fs));
    ResponseOrderExactly(fs, summary, model, response, items);
  }

  /** Entries that give no explanation and no fix for an open finding may be added or dropped anywhere. */
  lemma ResponseJunkIrrelevant(
    fs: seq<Finding>, summary: PlanSummary, model: string, a: Json, b: Json,
    before: seq<Json>, junk: seq<Json>, after: seq<Json>)
    requires a.JObject? && b.JObject? && Get(a, "overview") == Get(b, "overview")
    requires Entries(Some(a), "findings") == before + junk + after
    requires Entries(Some(b), "findings") == before + after
    requires forall item :: item in junk ==>
      ExplanationReader(|fs|)(item).None? && OpenFixReader(fs)(item).None?
    ensures NarrationOf(fs, summary, model, Response(a)) == NarrationOf(fs, summary, model, Response(b))
  {
    hide NarrationOf, Earliest, SameMerge, ExplanationReader, OpenFixReader, NarratedAll;
    JunkIgnored(before, junk, after, ExplanationReader(|fs|));
    JunkIgnored(before, junk, after, OpenFixReader(fs));
    SameNarrationExactly(fs, summary, model, a, b);
  }

  /** Finding i's narration depends on nothing but finding i and the entries that name i. */
  lemma EntriesDoNotInterfere(fs: seq<Finding>, summary: PlanSummary, model: string, a: Outcome, b: Outcome, i: nat)
    requires i < |fs|
    requires Filter(Mentions(i), Entries(Raw(a), "findings")) == Filter(Mentions(i), Entries(Raw(b), "findings"))
    ensures NarrationOf(fs, summary, model, a).findings[i] == NarrationOf(fs, summary, model, b).findings[i]
  {
    hide FallbackOverview, FallbackExplanation, Earliest, Filter, ReadEntry;
    var xs, ys := Entries(Raw(a), "findings"), Entries(Raw(b), "findings");
    MentionsDecide(xs, ys, "explanation", |fs|, AnyText, i);
    MentionsDecide(xs, ys, "suggested_fix", |fs|, AnyText, i);
  }

  /** A narration is degraded exactly when the response holds neither a usable overview nor a usable explanation. */
  lemma DegradedExactly(fs: seq<Finding>, summary: PlanSummary, model: string, outcome: Outcome)
    ensures var n := NarrationOf(fs, summary, model, outcome);
      (n.degraded <==>
         ModelOverview(Raw(outcome)).None?
         && forall item :: item in Entries(Raw(outcome), "findings") ==> ExplanationReader(|fs|)(item).None?)
      && (n.degraded <==> n.degradedReason.Some?)
      && (outcome.ClientError? ==> n.degradedReason == Some("client_error: " + outcome.message))
  {
    hide Earliest, FallbackOverview, FallbackExplanation, Text.Strip;
    var items, read := Entries(Raw(outcome), "findings"), ExplanationReader(|fs|);
    var narrations := NarratedAll(fs, items);
    if item :| item in items && read(item).Some? {
      var i := read(item).value.0;
      EarliestExists(items, read, i);
      assert CarriesIndex(read, i)(item);
      assert narrations[i] in narrations && ModelSpoke(narrations[i]);
    }
    if n :| n in narrations && ModelSpoke(n) {
      var i :| 0 <= i < |narrations| && narrations[i] == n;
      EarliestExists(items, read, i);
      var item :| item in items && CarriesIndex(read, i)(item);
      assert read(item).Some?;
    }
  }
}
