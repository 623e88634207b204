/** The web API over its two lock-guarded slots: requests as interleaved steps, and as whole handlers. */
module WebApp {
  import opened Wrappers
  import opened Xml
  import opened PlanIr
  import opened PlanXmlToIr
  import opened RulesEngine
  import opened ModelResponse
  import opened PlanSummaries
  import opened NarrationEngine
  import opened FixEngine
  import Pipeline
  import PlanCapture
  import PlanContents
  import PlanProperties
  import Showplan

  datatype ConnectionParams = ConnectionParams(
    server: string,
    database: string,
    user: string,
    password: string,
    driver: string,
    trustServerCertificate: bool,
    timeoutS: real)

  datatype LastResult = LastResult(summary: PlanSummary, findings: seq<Finding>)

  /** Foreign code the handlers call: the XML reader, float(), number formatting and the two SQL validators. */
  datatype Foreign = Foreign(
    readXml: string -> Option<Element>,
    parse: string -> Option<real>,
    fmt: Format,
    validators: Validators)

  /** What connecting gives: a connection that closes again, DBCaptureError, or an error no handler expects. */
  datatype Attempt = Accepted | Refused | AttemptRaised

  /**
   * What capturing and reading a plan gives: its document, QueryValidationError,
   * DBCaptureError, or an error no handler expects (a driver error outside
   * execution, a document that is not XML).
   */
  datatype Capture = Captured(document: Element) | QueryRejected | CaptureFailed | CaptureRaised

  /** A query's text, and how server and driver answer its capture. */
  datatype Question = Question(query: string, world: PlanCapture.World)

  function CaptureOf(question: Question, foreign: Foreign): Capture {
    match PlanCapture.CaptureOutcome(question.query, foreign.validators.isSelect, question.world)
    case Captured(xml) =>
      (match foreign.readXml(xml) case None => CaptureRaised case Some(document) => Captured(document))
    case Rejected => QueryRejected
    case DriverError => CaptureRaised
    case ConnectFailed => CaptureFailed
    case QueryFailed => CaptureFailed
    case NoPlan => CaptureFailed
  }

  datatype ModelCall = ModelCall(model: string, result: CallResult)

  datatype Reply =
    | Connected(params: ConnectionParams)
    | NotConnected
    | NoContent
    | HttpError(code: nat)
    | Report(result: LastResult, call: Option<ModelCall>, narration: Option<Narration>)
    | Fixes(asked: ModelCall, proposal: FixProposal)

  /**
   * The two slots, each behind its own lock, and as history the connection the
   * cached pair was queried over, which no code reads.
   */
  datatype Shared = Shared(
    session: Option<ConnectionParams>,
    cached: Option<LastResult>,
    cachedFrom: Option<ConnectionParams>)

  /** Where a request stands between two accesses to a slot, and what it holds locally. */
  datatype Thread =
    | ConnectStart(params: ConnectionParams, attempt: Attempt)
    | ConnectVerified(params: ConnectionParams)
    | DisconnectStart
    | DisconnectSessionCleared
    | StatusStart
    | StatusSawSession
    | QueryStart(question: Question, narrate: Option<ModelCall>)
    | QueryHolding(params: ConnectionParams, question: Question, narrate: Option<ModelCall>)
    | QueryAnalysed(params: ConnectionParams, document: Element, result: LastResult, narrate: Option<ModelCall>)
    | QueryPublished(result: LastResult, narrate: Option<ModelCall>)
    | FixStart(call: ModelCall)
    | FixHolding(result: LastResult, call: ModelCall)
    | Done(reply: Reply)

  predicate IsRequest(t: Thread) {
    t.ConnectStart? || t.DisconnectStart? || t.StatusStart? || t.QueryStart? || t.FixStart?
  }

  function OptionsFor(params: ConnectionParams): ParseOptions {
    ParseOptions(Actual, None, AdhocQuery, None, Some(params.database))
  }

  /** The pair a query caches: summary and findings of one parsed plan. */
  function Analyse(document: Element, params: ConnectionParams, foreign: Foreign): LastResult
    requires Parts(document).Some?
  {
    var plan := PlanOf(document, foreign.parse, OptionsFor(params));
    LastResult(
      Summarize(plan, DEFAULT_MAX_NOTABLE_OPERATORS, DEFAULT_MAX_STATEMENT_TEXT_CHARS),
      Findings(plan, foreign.fmt))
  }

  /** The pair of a document queried over a connection, in the document's own terms. */
  ghost predicate PairOf(document: Element, params: ConnectionParams, foreign: Foreign, result: LastResult) {
    Showplan.PartsOf(document).Some?
    && result.findings == BySeverity(Pipeline.DirectFindings(document, foreign.parse, Actual, foreign.fmt))
    && SummaryOf(document, params, foreign, result.summary)
  }

  /** The summary of a document queried over a connection: its figures, its cut text, its top operators. */
  ghost predicate SummaryOf(document: Element, params: ConnectionParams, foreign: Foreign, s: PlanSummary)
    requires Showplan.PartsOf(document).Some?
  {
    var (stmt, queryPlan, root) := Showplan.PartsOf(document).value;
    var ops := PlanContents.OperatorsIn(document, foreign.parse, Actual);
    var text := Showplan.TextAt(stmt, "StatementText");
    s.operatorCount == |ops|
    && |s.notableOperators| == (if |ops| <= 8 then |ops| else 8)
    && |Ranked(ops)| == |ops|
    && (forall k :: 0 <= k < |s.notableOperators| ==> Highlighted(s.notableOperators[k], Ranked(ops)[k]))
    && s.statementText == (if |text| <= 4000 then text else text[..4000] + " ...[truncated]")
    && s.statementType == Showplan.StatementTypeFor(Showplan.TextAt(stmt, "StatementType"))
    && s.totalEstimatedCost == Showplan.NumberAt(stmt, "StatementSubTreeCost", foreign.parse)
    && s.totalActualDurationMs == Showplan.MaxAt(Showplan.ThreadsOf(root, Actual), "ActualElapsedms", foreign.parse)
    && s.totalActualRows
      == (match Showplan.RowsOf(root, Actual, foreign.parse) case None => None case Some(x) => Some(Truncate(x)))
    && s.databaseName == Some(params.database)
    && s.planSource == Actual && s.objectType == AdhocQuery && s.objectName == None && s.engineVersion == None
  }

  /** What a query caches is the pair of its document. */
  lemma AnalysedPair(document: Element, params: ConnectionParams, foreign: Foreign)
    requires Parts(document).Some?
    ensures PairOf(document, params, foreign, Analyse(document, params, foreign))
  {
    hide PlanOf, Findings, Summarize, BySeverity, Pipeline.DirectFindings, Walk, Parts, Showplan.PartsOf,
      PlanContents.OperatorsIn, Ranked, Highlighted, Showplan.TextAt, Showplan.StatementTypeFor, Showplan.MaxAt,
      Showplan.RowsOf, Truncate;
    var options := OptionsFor(params);
    var plan := PlanOf(document, foreign.parse, options);
    Pipeline.PipelineExact(document, foreign.parse, options, foreign.fmt);
    PlanContents.WalkIsOperatorsIn(document, foreign.parse, options);
    PlanContents.StatementOfPlan(document, foreign.parse, options);
    SummaryShows(plan);
  }

  /** The reply once the pair is cached: a report, unless the model call raises. */
  function ReportFor(result: LastResult, narrate: Option<ModelCall>): Reply {
    match narrate
    case None => Report(result, narrate, None)
    case Some(ModelCall(_, CallRaised)) => HttpError(500)
    case Some(ModelCall(model, Answered(outcome))) =>
      Report(result, narrate, Some(NarrationOf(result.findings, result.summary, model, outcome)))
  }

  function FixesFor(result: LastResult, call: ModelCall, foreign: Foreign): Reply {
    match call.result
    case CallRaised => HttpError(500)
    case Answered(outcome) => Fixes(call, Proposal(result.findings, call.model, outcome, foreign.validators))
  }

  // ---------- Steps ----------

  /** One step of one request: at most one access to one slot. */
  function Next(s: Shared, t: Thread, foreign: Foreign): (Shared, Thread) {
    match t
    case ConnectStart(params, Accepted) => (s, ConnectVerified(params))
    case ConnectStart(_, Refused) => (s, Done(HttpError(400)))
    case ConnectStart(_, AttemptRaised) => (s, Done(HttpError(500)))
    case ConnectVerified(params) => (s.(session := Some(params)), Done(Connected(params)))
    case DisconnectStart => (s.(session := None), DisconnectSessionCleared)
    case DisconnectSessionCleared => (s.(cached := None, cachedFrom := None), Done(NoContent))
    case StatusStart => (s, if s.session.None? then Done(NotConnected) else StatusSawSession)
    case StatusSawSession =>
      (s, if s.session.None? then Done(HttpError(500)) else Done(Connected(s.session.value)))
    case QueryStart(question, narrate) =>
      (s, if s.session.None? then Done(HttpError(409)) else QueryHolding(s.session.value, question, narrate))
    case QueryHolding(params, question, narrate) =>
      (s, match CaptureOf(question, foreign)
          case QueryRejected => Done(HttpError(422))
          case CaptureFailed => Done(HttpError(502))
          case CaptureRaised => Done(HttpError(500))
          case Captured(document) =>
            if Parseable(document, foreign.parse, Actual)
            then QueryAnalysed(params, document, Analyse(document, params, foreign), narrate)
            else Done(HttpError(500)))
    case QueryAnalysed(params, document, result, narrate) =>
      (s.(cached := Some(result), cachedFrom := Some(params)), QueryPublished(result, narrate))
    case QueryPublished(result, narrate) => (s, Done(ReportFor(result, narrate)))
    case FixStart(call) =>
      (s, if s.cached.None? then Done(HttpError(409)) else FixHolding(s.cached.value, call))
    case FixHolding(result, call) => (s, Done(FixesFor(result, call, foreign)))
    case Done(_) => (s, t)
  }

  /** One query's cached pair, with the connection and the document it came from. */
  datatype Publication = Publication(params: ConnectionParams, document: Element, result: LastResult)

  /** What one query's capture did to the database server, on a connection of its own. */
  datatype Sent = Sent(query: string, trace: seq<PlanCapture.Event>)

  /** The server: slots, requests so far, and the history of connects, published results and captures. */
  datatype System = System(
    shared: Shared,
    threads: seq<Thread>,
    verified: set<ConnectionParams>,
    published: set<Publication>,
    sent: seq<Sent>)

  datatype Event = Arrive(request: Thread) | Step(thread: nat)

  const INITIAL := System(Shared(None, None, None), [], {}, {}, [])

  function SentBy(question: Question, foreign: Foreign): Sent {
    Sent(
      question.query,
      PlanCapture.CaptureTrace(question.query, foreign.validators.isSelect, question.world))
  }

  ghost function Apply(sys: System, event: Event, foreign: Foreign): System {
    match event
    case Arrive(request) => if IsRequest(request) then sys.(threads := sys.threads + [request]) else sys
    case Step(i) =>
      if i >= |sys.threads| then sys
      else
        var t := sys.threads[i];
        var (shared, after) := Next(sys.shared, t, foreign);
        System(
          shared,
          sys.threads[i := after],
          if t.ConnectStart? && t.attempt.Accepted? then sys.verified + {t.params} else sys.verified,
          if t.QueryAnalysed? then sys.published + {Publication(t.params, t.document, t.result)} else sys.published,
          sys.sent + if t.QueryHolding? then [SentBy(t.question, foreign)] else [])
  }

  ghost function Run(events: seq<Event>, foreign: Foreign): System {
    if events == [] then INITIAL
    else Apply(Run(events[..|events| - 1], foreign), events[|events| - 1], foreign)
  }

  // ---------- Safety of every interleaving ----------

  ghost predicate PublicationSound(p: Publication, verified: set<ConnectionParams>, foreign: Foreign) {
    p.params in verified
    && Parseable(p.document, foreign.parse, Actual)
    && p.result == Analyse(p.document, p.params, foreign)
  }

  ghost predicate IsPublished(result: LastResult, published: set<Publication>) {
    exists p :: p in published && p.result == result
  }

  /** The cached pair, if any, was published by a query over the connection on record. */
  ghost predicate CacheSound(s: Shared, published: set<Publication>) {
    (s.cached.Some? <==> s.cachedFrom.Some?)
    && (s.cached.Some? ==>
          exists p :: p in published && p.result == s.cached.value && p.params == s.cachedFrom.value)
  }

  /** What a finished or running request may hold. */
  ghost predicate ThreadSafe(
    t: Thread, verified: set<ConnectionParams>, published: set<Publication>, foreign: Foreign)
  {
    match t
    case ConnectVerified(params) => params in verified
    case QueryHolding(params, _, _) => params in verified
    case QueryAnalysed(params, document, result, _) =>
      PublicationSound(Publication(params, document, result), verified, foreign)
    case QueryPublished(result, _) => IsPublished(result, published)
    case FixHolding(result, _) => IsPublished(result, published)
    case Done(Connected(params)) => params in verified
    case Done(Report(result, call, narration)) =>
      IsPublished(result, published) && Report(result, call, narration) == ReportFor(result, call)
    case Done(Fixes(call, proposal)) =>
      exists p :: p in published && Fixes(call, proposal) == FixesFor(p.result, call, foreign)
    case _ => true
  }

  ghost predicate Safe(sys: System, foreign: Foreign) {
    (sys.shared.session.Some? ==> sys.shared.session.value in sys.verified)
    && CacheSound(sys.shared, sys.published)
    && (forall p :: p in sys.published ==> PublicationSound(p, sys.verified, foreign))
    && (forall i :: 0 <= i < |sys.threads| ==> ThreadSafe(sys.threads[i], sys.verified, sys.published, foreign))
  }

  /** The history only grows, so what was safe stays safe. */
  lemma SafetyIsMonotone(
    t: Thread, verified: set<ConnectionParams>, published: set<Publication>,
    verified': set<ConnectionParams>, published': set<Publication>, foreign: Foreign)
    requires ThreadSafe(t, verified, published, foreign)
    requires verified <= verified' && published <= published'
    ensures ThreadSafe(t, verified', published', foreign)
  {
    hide CaptureOf, SentBy, Analyse, Parseable, NarrationOf, Proposal;
    if t.QueryPublished? {
      var p :| p in published && p.result == t.result;
      assert p in published';
    } else if t.FixHolding? {
      var p :| p in published && p.result == t.result;
      assert p in published';
    } else if t.Done? && t.reply.Report? {
      var p :| p in published && p.result == t.reply.result;
      assert p in published';
    } else if t.Done? && t.reply.Fixes? {
      var p :| p in published && t.reply == FixesFor(p.result, t.reply.asked, foreign);
      assert p in published';
    }
  }

  /** The stepping request itself stays safe. */
  lemma StepperSafe(sys: System, i: nat, foreign: Foreign)
    requires Safe(sys, foreign) && i < |sys.threads|
    ensures var after := Apply(sys, Step(i), foreign);
      ThreadSafe(after.threads[i], after.verified, after.published, foreign)
  {
    hide CaptureOf, SentBy, Analyse, Parseable, NarrationOf, Proposal;
    var t, after := sys.threads[i], Apply(sys, Step(i), foreign);
    assert ThreadSafe(t, sys.verified, sys.published, foreign);
    if t.QueryAnalysed? {
      assert Publication(t.params, t.document, t.result) in after.published;
    }
    if t.FixHolding? {
      var p :| p in sys.published && p.result == t.result;
      assert p in after.published;
    }
  }

  lemma StepKeepsSafe(sys: System, event: Event, foreign: Foreign)
    requires Safe(sys, foreign)
    ensures Safe(Apply(sys, event, foreign), foreign)
  {
    hide CaptureOf, SentBy, Analyse, Parseable, NarrationOf, Proposal, ThreadSafe;
    var after := Apply(sys, event, foreign);
    if event.Arrive? {
      forall j | 0 <= j < |after.threads|
        ensures ThreadSafe(after.threads[j], after.verified, after.published, foreign)
      {
        if j == |sys.threads| {
          ArrivalSafe(after.threads[j], after.verified, after.published, foreign);
        }
      }
    } else if event.thread < |sys.threads| {
      var i := event.thread;
      StepperSafe(sys, i, foreign);
      forall j | 0 <= j < |after.threads|
        ensures ThreadSafe(after.threads[j], after.verified, after.published, foreign)
      {
        if j != i {
          SafetyIsMonotone(
            sys.threads[j], sys.verified, sys.published, after.verified, after.published, foreign);
        }
      }
      SlotsStaySafe(sys, i, foreign);
    }
  }

  lemma ArrivalSafe(t: Thread, verified: set<ConnectionParams>, published: set<Publication>, foreign: Foreign)
    requires IsRequest(t)
    ensures ThreadSafe(t, verified, published, foreign)
  {
  }

  lemma SlotsStaySafe(sys: System, i: nat, foreign: Foreign)
    requires Safe(sys, foreign) && i < |sys.threads|
    ensures var after := Apply(sys, Step(i), foreign);
      (after.shared.session.Some? ==> after.shared.session.value in after.verified)
      && CacheSound(after.shared, after.published)
      && (forall p :: p in after.published ==> PublicationSound(p, after.verified, foreign))
  {
    hide CaptureOf, SentBy, Analyse, Parseable, NarrationOf, Proposal;
    var t, after := sys.threads[i], Apply(sys, Step(i), foreign);
    assert ThreadSafe(t, sys.verified, sys.published, foreign);
    if t.QueryAnalysed? {
      assert Publication(t.params, t.document, t.result) in after.published;
    } else if after.shared.cached.Some? {
      var p :| p in sys.published && p.result == sys.shared.cached.value && p.params == sys.shared.cachedFrom.value;
      assert p in after.published;
    }
  }

  /** Every reachable state of every interleaving is safe. */
  lemma {:induction false} EveryRunSafe(events: seq<Event>, foreign: Foreign)
    ensures Safe(Run(events, foreign), foreign)
  {
    hide Safe, Apply;
    if events == [] {
      InitialSafe(foreign);
    } else {
      EveryRunSafe(events[..|events| - 1], foreign);
      StepKeepsSafe(Run(events[..|events| - 1], foreign), events[|events| - 1], foreign);
    }
  }

  lemma InitialSafe(foreign: Foreign)
    ensures Safe(INITIAL, foreign)
  {
  }

  /**
   * Whatever else is going on, a fix answer is computed from the summary and
   * findings of one query over a verified connection: its indices point into
   * those findings, at ones Tier 0 left without a fix, and its texts passed
   * their validators.
   */
  lemma FixAnswersAreCoherent(events: seq<Event>, foreign: Foreign, i: nat)
    requires var sys := Run(events, foreign);
      i < |sys.threads| && sys.threads[i].Done? && sys.threads[i].reply.Fixes?
    ensures var sys := Run(events, foreign);
      exists p :: p in sys.published
        && PublicationSound(p, sys.verified, foreign)
        && PairOf(p.document, p.params, foreign, p.result)
        && sys.threads[i].reply == FixesFor(p.result, sys.threads[i].reply.asked, foreign)
        && FixesFit(sys.threads[i].reply.proposal.fixes, p.result.findings, foreign.validators)
  {
    hide Run, FixesFor, FixesFit, PublicationSound, PairOf;
    var sys := Run(events, foreign);
    EveryRunSafe(events, foreign);
    var reply := sys.threads[i].reply;
    assert ThreadSafe(sys.threads[i], sys.verified, sys.published, foreign);
    var p :| p in sys.published && reply == FixesFor(p.result, reply.asked, foreign);
    assert PublicationSound(p, sys.verified, foreign);
    OnlyAnsweredGiveFixes(p.result, reply.asked, foreign);
    AnswerFromPublication(p, reply.asked, sys.verified, foreign);
  }

  /** The fixes point, in order, at findings Tier 0 left without a fix, and their texts passed the validators. */
  ghost predicate FixesFit(fixes: seq<FindingFix>, findings: seq<Finding>, validators: Validators) {
    Increasing(fixes)
    && forall fix :: fix in fixes ==>
         fix.findingIndex < |findings|
         && findings[fix.findingIndex].ruleId != "missing_index_available"
         && KeptTextsPass(fix, validators)
  }

  lemma OnlyAnsweredGiveFixes(result: LastResult, call: ModelCall, foreign: Foreign)
    ensures FixesFor(result, call, foreign).Fixes? ==> call.result.Answered?
  {
  }

  /** Fixes proposed for one publication fit that publication. */
  lemma AnswerFromPublication(
    p: Publication, asked: ModelCall, verified: set<ConnectionParams>, foreign: Foreign)
    requires PublicationSound(p, verified, foreign) && asked.result.Answered?
    ensures PairOf(p.document, p.params, foreign, p.result)
    ensures FixesFor(p.result, asked, foreign).Fixes?
         && FixesFit(FixesFor(p.result, asked, foreign).proposal.fixes, p.result.findings, foreign.validators)
  {
    hide PlanOf, Findings, Proposal, KeptTextsPass, Increasing, Summarize, PairOf;
    AnalysedPair(p.document, p.params, foreign);
    var plan := PlanOf(p.document, foreign.parse, OptionsFor(p.params));
    var fixes := Proposal(p.result.findings, asked.model, asked.result.outcome, foreign.validators).fixes;
    ProposalSound(p.result.findings, asked.model, asked.result.outcome, foreign.validators);
    forall fix | fix in fixes ensures p.result.findings[fix.findingIndex].ruleId != "missing_index_available" {
      PlanProperties.FixOnlyForIndexes(plan, foreign.fmt, p.result.findings[fix.findingIndex]);
    }
  }
}
