/** The two stores and the route handlers, each handler tied to its request run alone. */
module WebHandlers {
  import opened Wrappers
  import opened PlanXmlToIr
  import opened PlanSummaries
  import opened WebApp
  import opened WebSerial
  import FixEngine
  import NarrationEngine
  import PlanAdapter
  import PlanCapture
  import RulesEngine

  /** One lock-guarded connection slot. */
  class SessionStore {
    var params: Option<ConnectionParams>

    constructor ()
      ensures params == None
    {
      params := None;
    }

    method Set(p: ConnectionParams)
      modifies this
      ensures params == Some(p)
    {
      params := Some(p);
    }

    /** None stands for NotConnectedError. */
    method Get() returns (p: Option<ConnectionParams>)
      ensures p == params
    {
      p := params;
    }

    method Clear()
      modifies this
      ensures params == None
    {
      params := None;
    }

    method IsConnected() returns (connected: bool)
      ensures connected <==> params.Some?
    {
      connected := params.Some?;
    }
  }

  /** One lock-guarded slot for the latest query result; `from` is history. */
  class LastResultStore {
    var result: Option<LastResult>
    ghost var from: Option<ConnectionParams>

    constructor ()
      ensures result == None && from == None
    {
      result, from := None, None;
    }

    method Set(r: LastResult, ghost p: ConnectionParams)
      modifies this
      ensures result == Some(r) && from == Some(p)
    {
      result, from := Some(r), Some(p);
    }

    /** None stands for NoResultAvailableError. */
    method Get() returns (r: Option<LastResult>)
      ensures r == result
    {
      r := result;
    }

    method Clear()
      modifies this
      ensures result == None && from == None
    {
      result, from := None, None;
    }
  }

  ghost function SharedOf(store: SessionStore, last: LastResultStore): Shared
    reads store, last
  {
    Shared(store.params, last.result, last.from)
  }

  method CreateConnection(
    body: ConnectionParams, attempt: Attempt, store: SessionStore, ghost last: LastResultStore, ghost foreign: Foreign)
    returns (reply: Reply)
    modifies store
    ensures (SharedOf(store, last), reply)
         == RunAlone(old(SharedOf(store, last)), ConnectStart(body, attempt), foreign)
  {
    ConnectAlone(SharedOf(store, last), body, attempt, foreign);
    if attempt.AttemptRaised? { return HttpError(500); }
    if attempt.Refused? { return HttpError(400); }
    store.Set(body);
    reply := Connected(body);
  }

  method DeleteConnection(store: SessionStore, last: LastResultStore, ghost foreign: Foreign) returns (reply: Reply)
    modifies store, last
    ensures store.params == None && last.result == None
    ensures (SharedOf(store, last), reply) == RunAlone(old(SharedOf(store, last)), DisconnectStart, foreign)
  {
    store.Clear();
    last.Clear();
    reply := NoContent;
  }

  method GetConnection(store: SessionStore, ghost last: LastResultStore, ghost foreign: Foreign)
    returns (reply: Reply)
    ensures (SharedOf(store, last), reply) == RunAlone(SharedOf(store, last), StatusStart, foreign)
  {
    var connected := store.IsConnected();
    if !connected { return NotConnected; }
    var params := store.Get();
    reply := Connected(params.value);
  }

  method RunQuery(
    question: Question, narrate: Option<ModelCall>, foreign: Foreign,
    store: SessionStore, last: LastResultStore, server: PlanCapture.Server)
    returns (reply: Reply)
    modifies last, server
    ensures (SharedOf(store, last), reply)
         == RunAlone(old(SharedOf(store, last)), QueryStart(question, narrate), foreign)
    ensures server.trace
         == old(server.trace) + if store.params.None? then [] else SentBy(question, foreign).trace
  {
    hide PairOf, PlanOf, Parseable, RulesEngine.Findings, Summarize, NarrationEngine.NarrationOf,
      PlanCapture.CaptureTrace, PlanCapture.CaptureOutcome;
    var params := store.Get();
    if params.None? { return HttpError(409); }
    var outcome := PlanCapture.CapturePlanXml(question.query, foreign.validators.isSelect, question.world, server);
    var document := if outcome.Captured? then foreign.readXml(outcome.xml) else None;
    if document.None? {
      FailedQueryAlone(SharedOf(store, last), params.value, question, narrate, foreign);
    }
    match outcome {
      case Rejected => return HttpError(422);
      case ConnectFailed => return HttpError(502);
      case QueryFailed => return HttpError(502);
      case NoPlan => return HttpError(502);
      case DriverError => return HttpError(500);
      case Captured(_) =>
    }
    if document.None? { return HttpError(500); }
    var parsed := PlanAdapter.ParsePlanXml(document.value, foreign.parse, OptionsFor(params.value));
    if parsed.ValueError? {
      FailedQueryAlone(SharedOf(store, last), params.value, question, narrate, foreign);
      return HttpError(500);
    }
    var plan := parsed.value;
    var findings := RulesEngine.Evaluate(plan, foreign.fmt);
    var summary := Summarize(plan, DEFAULT_MAX_NOTABLE_OPERATORS, DEFAULT_MAX_STATEMENT_TEXT_CHARS);
    var result := LastResult(summary, findings);
    last.Set(result, params.value);
    ParsedQueryAlone(old(SharedOf(store, last)), params.value, question, document.value, narrate, foreign);
    var narration := None;
    if narrate.Some? {
      narration := NarrationEngine.GetNarration(findings, summary, narrate.value.model, narrate.value.result);
      if narration.None? { return HttpError(500); }
    }
    reply := Report(result, narrate, narration);
  }

  method ProposeFix(call: ModelCall, foreign: Foreign, ghost store: SessionStore, last: LastResultStore)
    returns (reply: Reply)
    ensures (SharedOf(store, last), reply) == RunAlone(SharedOf(store, last), FixStart(call), foreign)
  {
    hide FixEngine.Proposal;
    FixAlone(SharedOf(store, last), call, foreign);
    var result := last.Get();
    if result.None? { return HttpError(409); }
    var proposal := FixEngine.ProposeFixes(result.value.findings, call.model, call.result, foreign.validators);
    if proposal.None? { return HttpError(500); }
    reply := Fixes(call, proposal.value);
  }
}
