/** What narration and fix proposal take from a response, in terms of its JSON. */
module ModelAnswers {
  import opened Wrappers
  import opened Sequences
  import opened PlanIr
  import opened RulesEngine
  import opened ModelResponse
  import opened PlanSummaries
  import opened NarrationEngine
  import opened FixEngine
  import Text

  /** The list under a key of an answer that is a JSON object. */
  function ItemsUnder(outcome: Outcome, key: string): seq<Json> {
    if outcome.Response? && outcome.body.JObject? && key in outcome.body.fields && outcome.body.fields[key].JList?
    then outcome.body.fields[key].items
    else []
  }

  /** The entry names finding i; Python takes true for 1 and false for 0. */
  predicate NamesFinding(item: Json, i: int) {
    item.JObject? && "finding_index" in item.fields
    && (item.fields["finding_index"] == JInt(i)
        || (i == 1 && item.fields["finding_index"] == JBool(true))
        || (i == 0 && item.fields["finding_index"] == JBool(false)))
  }

  /** The entry has this text about finding i under a field, and it is not blank. */
  predicate Says(item: Json, i: int, field: string, text: string) {
    NamesFinding(item, i)
    && field in item.fields && item.fields[field] == JString(text)
    && Text.Strip(text) != ""
  }

  /** Entry p is the first to say something about finding i that passes. */
  ghost predicate FirstToSay(
    items: seq<Json>, i: int, field: string, passes: string -> bool, p: int, text: string)
  {
    0 <= p < |items| && Says(items[p], i, field, text) && passes(Text.Strip(text))
    && forall q, other :: 0 <= q < p && Says(items[q], i, field, other) ==> !passes(Text.Strip(other))
  }

  /** t is what the first entry to say something that passes says, stripped. */
  ghost predicate Said(items: seq<Json>, i: int, field: string, passes: string -> bool, t: string) {
    exists p, text :: FirstToSay(items, i, field, passes, p, text) && t == Text.Strip(text)
  }

  /** Entry p says this about finding i, and no earlier entry says anything about it. */
  ghost predicate SaysFirst(items: seq<Json>, i: int, field: string, p: int, text: string) {
    0 <= p < |items| && Says(items[p], i, field, text)
    && forall q, other :: 0 <= q < p ==> !Says(items[q], i, field, other)
  }

  /** t is what the first entry to say anything says, stripped. */
  ghost predicate SaidFirst(items: seq<Json>, i: int, field: string, t: string) {
    exists p, text :: SaysFirst(items, i, field, p, text) && t == Text.Strip(text)
  }

  // ---------- Entries ----------

  lemma ItemsAgree(outcome: Outcome, key: string)
    ensures Entries(Raw(outcome), key) == ItemsUnder(outcome, key)
  {
  }

  lemma NamesAgree(item: Json, i: int)
    ensures AsIndex(Get(item, "finding_index")) == Some(i) <==> NamesFinding(item, i)
  {
  }

  lemma ReadAgrees(item: Json, field: string, count: nat, accept: string -> bool, i: int, t: string)
    requires 0 <= i < count
    ensures ReadEntry(item, field, count, accept) == Some((i, t))
       <==> exists text :: Says(item, i, field, text) && accept(Text.Strip(text)) && t == Text.Strip(text)
  {
    hide Text.Strip;
    NamesAgree(item, i);
    if ReadEntry(item, field, count, accept) == Some((i, t)) {
      assert Says(item, i, field, Get(item, field).text);
    }
    if text :| Says(item, i, field, text) && accept(Text.Strip(text)) && t == Text.Strip(text) {
      assert Get(item, field) == JString(text);
    }
  }

  /** An entry carries index i for a reader iff it says something about i that the reader accepts. */
  lemma CarriesAgrees(item: Json, field: string, count: nat, accept: string -> bool, i: int)
    requires 0 <= i < count
    ensures CarriesIndex(EntryReader(field, count, accept), i)(item)
       <==> exists text :: Says(item, i, field, text) && accept(Text.Strip(text))
  {
    hide ReadEntry, Says, Text.Strip;
    var read := ReadEntry(item, field, count, accept);
    if read.Some? && read.value.0 == i {
      ReadAgrees(item, field, count, accept, i, read.value.1);
    }
    if text :| Says(item, i, field, text) && accept(Text.Strip(text)) {
      ReadAgrees(item, field, count, accept, i, Text.Strip(text));
    }
  }

  /** The merge takes, for a finding in range, what the first entry to say something acceptable says. */
  lemma EarliestIsSaid(items: seq<Json>, field: string, count: nat, accept: string -> bool, i: int, t: string)
    requires 0 <= i < count
    ensures Earliest(items, EntryReader(field, count, accept), i) == Some(t) <==> Said(items, i, field, accept, t)
  {
    hide Earliest, ReadEntry, Says, Text.Strip;
    var read := EntryReader(field, count, accept);
    EarliestIsFirst(items, read, i, t);
    forall q | 0 <= q < |items|
      ensures CarriesIndex(read, i)(items[q])
         <==> exists text :: Says(items[q], i, field, text) && accept(Text.Strip(text))
    {
      CarriesAgrees(items[q], field, count, accept, i);
    }
    if p :| FirstAt(items, read, i, p) && read(items[p]).value.1 == t {
      ReadAgrees(items[p], field, count, accept, i, t);
      var text :| Says(items[p], i, field, text) && accept(Text.Strip(text)) && t == Text.Strip(text);
      assert FirstToSay(items, i, field, accept, p, text);
    }
    if p, text :| FirstToSay(items, i, field, accept, p, text) && t == Text.Strip(text) {
      ReadAgrees(items[p], field, count, accept, i, t);
      assert FirstAt(items, read, i, p);
    }
  }

  lemma SaidWhateverItIs(items: seq<Json>, i: int, field: string, t: string)
    ensures Said(items, i, field, AnyText, t) <==> SaidFirst(items, i, field, t)
  {
    hide Says, Text.Strip;
    forall p, text ensures FirstToSay(items, i, field, AnyText, p, text) <==> SaysFirst(items, i, field, p, text) {
      if FirstToSay(items, i, field, AnyText, p, text) {
        forall q, other | 0 <= q < p ensures !Says(items[q], i, field, other) {
          assert AnyText(Text.Strip(other));
        }
      }
    }
  }

  // ---------- Narration ----------

  /** Tier 0 left the finding without a fix. */
  predicate IsOpenFinding(f: Finding) {
    f.suggestedFix == None || f.suggestedFix == Some("")
  }

  /**
   * A finding is narrated with the stripped "explanation" of the first entry
   * that names it and has one, and otherwise with its own summary and detail;
   * with the "suggested_fix" of the first entry that names it and has one if
   * Tier 0 has none.
   */
  lemma NarrationShows(fs: seq<Finding>, summary: PlanSummary, model: string, outcome: Outcome, i: nat, t: string)
    requires i < |fs|
    ensures var n, items := NarrationOf(fs, summary, model, outcome).findings[i], ItemsUnder(outcome, "findings");
      (n.explanationSource == FromModel && n.explanation == t <==> SaidFirst(items, i, "explanation", t))
      && (n.explanationSource == Fallback ==> n.explanation == Text.Strip(fs[i].summary + ". " + fs[i].detail))
      && (n.suggestedFix == Some(t) <==> IsOpenFinding(fs[i]) && SaidFirst(items, i, "suggested_fix", t))
  {
    hide Earliest, Said, SaidFirst, Entries, ItemsUnder, FallbackOverview, Text.Strip;
    ItemsAgree(outcome, "findings");
    EarliestIsSaid(ItemsUnder(outcome, "findings"), "explanation", |fs|, AnyText, i, t);
    EarliestIsSaid(ItemsUnder(outcome, "findings"), "suggested_fix", |fs|, AnyText, i, t);
    SaidWhateverItIs(ItemsUnder(outcome, "findings"), i, "explanation", t);
    SaidWhateverItIs(ItemsUnder(outcome, "findings"), i, "suggested_fix", t);
  }

  /** The overview is the model's "overview", stripped, if there is one that is not blank. */
  lemma OverviewShows(fs: seq<Finding>, summary: PlanSummary, model: string, outcome: Outcome, t: string)
    ensures var n := NarrationOf(fs, summary, model, outcome);
      (n.overviewSource == FromModel && n.overview == t
       <==> outcome.Response? && outcome.body.JObject? && "overview" in outcome.body.fields
            && outcome.body.fields["overview"].JString?
            && Text.Strip(outcome.body.fields["overview"].text) == t && t != "")
      && n.modelName == model
  {
    hide NarratedAll, FallbackOverview, Text.Strip;
  }

  /** Counted findings of one severity, left out when there are none. */
  function Counted(n: nat, word: string): seq<string> {
    if n == 0 then [] else [Text.Decimal(n) + " " + word]
  }

  /** Without an overview of the model's, the findings are counted by severity. */
  lemma OverviewFallsBack(fs: seq<Finding>, summary: PlanSummary, model: string, outcome: Outcome)
    requires NarrationOf(fs, summary, model, outcome).overviewSource == Fallback
    ensures var counts :=
        Counted(|Filter(HasSeverity(Critical), fs)|, "critical")
        + Counted(|Filter(HasSeverity(Warning), fs)|, "warning")
        + Counted(|Filter(HasSeverity(Info), fs)|, "info");
      var named := summary.objectName.Some? && summary.objectName.value != "";
      NarrationOf(fs, summary, model, outcome).overview
      == "Automated narration was unavailable for this plan. Showing the rules engine's own findings for "
         + (if named then summary.objectName.value else "this " + StatementWord(summary.statementType) + " statement")
         + ": " + (if counts == [] then "no findings" else Text.Join(", ", counts)) + "."
  {
    hide NarratedAll, ModelOverview, Text.Join, Text.Decimal, Filter;
    StatementWords(summary.statementType);
  }

  function StatementWord(t: StatementType): string {
    match t
    case Select => "select"
    case InsertStatement => "insert"
    case Update => "update"
    case Delete => "delete"
    case Merge => "merge"
    case OtherStatement => "other"
  }

  lemma StatementWords(t: StatementType)
    ensures LowerStatementType(t) == StatementWord(t)
  {
  }

  /** The reason for a degraded narration. */
  lemma DegradedReasons(fs: seq<Finding>, summary: PlanSummary, model: string, outcome: Outcome)
    ensures var n := NarrationOf(fs, summary, model, outcome);
      n.degraded ==>
        n.degradedReason
        == Some(if outcome.ClientError? then "client_error: " + outcome.message else "invalid_response_shape")
  {
    hide NarratedAll, FallbackOverview, ModelOverview;
  }

  // ---------- Fix proposals ----------

  /**
   * A fix for finding i holds the stripped "rewritten_query" and
   * "index_script" of the first entries that name i and have one that
   * validates, and is there iff Tier 0 has none and it holds either.
   */
  lemma ProposalShows(fs: seq<Finding>, model: string, outcome: Outcome, v: Validators, fix: FindingFix)
    ensures var items, i := ItemsUnder(outcome, "fixes"), fix.findingIndex;
      fix in Proposal(fs, model, outcome, v).fixes
      <==> i < |fs| && IsOpenFinding(fs[i])
           && (fix.rewrittenQuery.Some? || fix.indexScript.Some?)
           && Holds(items, i, "rewritten_query", v.isSelect, fix.rewrittenQuery)
           && Holds(items, i, "index_script", v.isCreateIndex, fix.indexScript)
  {
    hide Earliest, Said, Entries, ItemsUnder, FixesFrom, Holds;
    var items, i := ItemsUnder(outcome, "fixes"), fix.findingIndex;
    ItemsAgree(outcome, "fixes");
    FixesFromMembers(fs, items, v, 0, fix);
    if i < |fs| {
      HoldsEarliest(items, "rewritten_query", |fs|, v.isSelect, i, fix.rewrittenQuery);
      HoldsEarliest(items, "index_script", |fs|, v.isCreateIndex, i, fix.indexScript);
    }
  }

  /** The text, or its absence, is what the entries say. */
  ghost predicate Holds(items: seq<Json>, i: int, field: string, passes: string -> bool, kept: Option<string>) {
    match kept
    case Some(t) => Said(items, i, field, passes, t)
    case None => forall t :: !Said(items, i, field, passes, t)
  }

  lemma HoldsEarliest(
    items: seq<Json>, field: string, count: nat, accept: string -> bool, i: int, kept: Option<string>)
    requires 0 <= i < count
    ensures kept == Earliest(items, EntryReader(field, count, accept), i) <==> Holds(items, i, field, accept, kept)
  {
    hide Earliest, Said;
    forall t
      ensures Earliest(items, EntryReader(field, count, accept), i) == Some(t) <==> Said(items, i, field, accept, t)
    {
      EarliestIsSaid(items, field, count, accept, i, t);
    }
    var found := Earliest(items, EntryReader(field, count, accept), i);
    if found.Some? {
      assert Said(items, i, field, accept, found.value);
    }
  }

  /** A proposal is degraded exactly when there is no JSON object, and says why. */
  lemma ProposalDegraded(fs: seq<Finding>, model: string, outcome: Outcome, v: Validators)
    ensures var p := Proposal(fs, model, outcome, v);
      (p.degraded <==> !(outcome.Response? && outcome.body.JObject?))
      && p.degradedReason
        == (if outcome.ClientError? then Some("client_error: " + outcome.message)
            else if p.degraded then Some("invalid_response_shape")
            else None)
      && p.modelName == model
  {
    hide FixesFrom;
  }
}
