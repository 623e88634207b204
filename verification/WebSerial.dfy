/** Requests handled one at a time: what each does as a whole, and what a series of them keeps. */
module WebSerial {
  import opened Wrappers
  import opened Xml
  import opened PlanIr
  import opened PlanXmlToIr
  import opened WebApp
  import NarrationEngine
  import PlanCapture

  function StepsLeft(t: Thread): nat {
    match t
    case ConnectStart(_, _) => 2
    case ConnectVerified(_) => 1
    case DisconnectStart => 2
    case DisconnectSessionCleared => 1
    case StatusStart => 2
    case StatusSawSession => 1
    case QueryStart(_, _) => 4
    case QueryHolding(_, _, _) => 3
    case QueryAnalysed(_, _, _, _) => 2
    case QueryPublished(_, _) => 1
    case FixStart(_) => 2
    case FixHolding(_, _) => 1
    case Done(_) => 0
  }

  lemma NextAdvances(s: Shared, t: Thread, foreign: Foreign)
    ensures !t.Done? ==> StepsLeft(Next(s, t, foreign).1) < StepsLeft(t)
    ensures Next(s, t, foreign).1.Done? <==> StepsLeft(Next(s, t, foreign).1) == 0
  {
    hide CaptureOf, Analyse, Parseable, ReportFor, FixesFor;
  }

  /** A request run to its reply with nothing else in between. */
  function RunAlone(s: Shared, t: Thread, foreign: Foreign): (Shared, Reply)
    decreases StepsLeft(t)
  {
    if t.Done? then (s, t.reply)
    else
      NextAdvances(s, t, foreign);
      var (after, rest) := Next(s, t, foreign);
      RunAlone(after, rest, foreign)
  }

  ghost function StepTimes(sys: System, i: nat, n: nat, foreign: Foreign): System
    decreases n
  {
    if n == 0 then sys else StepTimes(Apply(sys, Step(i), foreign), i, n - 1, foreign)
  }

  /** Running a request alone is one of the machine's interleavings: its own steps, back to back. */
  lemma {:induction false} AloneIsARun(sys: System, i: nat, n: nat, foreign: Foreign)
    requires i < |sys.threads| && StepsLeft(sys.threads[i]) <= n
    ensures var after := StepTimes(sys, i, n, foreign);
      |after.threads| == |sys.threads|
      && (after.shared, after.threads[i])
        == (RunAlone(sys.shared, sys.threads[i], foreign).0, Done(RunAlone(sys.shared, sys.threads[i], foreign).1))
      && (forall j :: 0 <= j < |sys.threads| && j != i ==> after.threads[j] == sys.threads[j])
    decreases n
  {
    hide Next;
    var t := sys.threads[i];
    NextAdvances(sys.shared, t, foreign);
    if n > 0 {
      if t.Done? {
        DoneStays(sys.shared, t, foreign);
      }
      AloneIsARun(Apply(sys, Step(i), foreign), i, n - 1, foreign);
    } else {
      NothingLeftIsDone(t);
    }
  }

  lemma DoneStays(s: Shared, t: Thread, foreign: Foreign)
    requires t.Done?
    ensures Next(s, t, foreign) == (s, t)
  {
  }

  lemma NothingLeftIsDone(t: Thread)
    requires StepsLeft(t) == 0
    ensures t.Done?
  {
  }

  // ---------- What each request does ----------

  lemma ConnectAlone(s: Shared, params: ConnectionParams, attempt: Attempt, foreign: Foreign)
    ensures RunAlone(s, ConnectStart(params, attempt), foreign)
         == match attempt
            case Accepted => (s.(session := Some(params)), Connected(params))
            case Refused => (s, HttpError(400))
            case AttemptRaised => (s, HttpError(500))
  {
    hide Next;
    StepConnect(s, params, attempt, foreign);
    if attempt.Accepted? {
      StepAlone(s, ConnectStart(params, attempt), foreign);
      StepAlone(s, ConnectVerified(params), foreign);
    } else {
      StepAlone(s, ConnectStart(params, attempt), foreign);
    }
  }

  lemma StepConnect(s: Shared, params: ConnectionParams, attempt: Attempt, foreign: Foreign)
    ensures Next(s, ConnectStart(params, attempt), foreign)
         == (s, match attempt
                case Accepted => ConnectVerified(params)
                case Refused => Done(HttpError(400))
                case AttemptRaised => Done(HttpError(500)))
    ensures Next(s, ConnectVerified(params), foreign) == (s.(session := Some(params)), Done(Connected(params)))
  {
  }

  /** A query that fails leaves both slots alone. */
  lemma FailedQueryAlone(
    s: Shared, params: ConnectionParams, question: Question, narrate: Option<ModelCall>, foreign: Foreign)
    requires s.session == Some(params)
    requires var capture := CaptureOf(question, foreign);
      capture.Captured? ==> !Parseable(capture.document, foreign.parse, Actual)
    ensures RunAlone(s, QueryStart(question, narrate), foreign)
         == (s, HttpError(match CaptureOf(question, foreign)
                          case QueryRejected => 422
                          case CaptureFailed => 502
                          case CaptureRaised => 500
                          case Captured(_) => 500))
  {
    hide Next, CaptureOf, Parseable;
    StepQueryStart(s, params, question, narrate, foreign);
    StepFailedCapture(s, params, question, narrate, foreign);
    StepAlone(s, QueryStart(question, narrate), foreign);
    StepAlone(s, QueryHolding(params, question, narrate), foreign);
  }

  /** The whole of a successful query in one go. */
  lemma ParsedQueryAlone(
    s: Shared, params: ConnectionParams, question: Question, document: Element, narrate: Option<ModelCall>,
    foreign: Foreign)
    requires s.session == Some(params) && CaptureOf(question, foreign) == Captured(document)
    requires Parseable(document, foreign.parse, Actual)
    ensures var result := Analyse(document, params, foreign);
      RunAlone(s, QueryStart(question, narrate), foreign)
        == (s.(cached := Some(result), cachedFrom := Some(params)), ReportFor(result, narrate))
      && PairOf(document, params, foreign, result)
  {
    hide Next, CaptureOf, Parseable, Analyse, ReportFor, PairOf;
    assert Parts(document).Some? by { ParseableHasParts(document, foreign); }
    AnalysedPair(document, params, foreign);
    var result := Analyse(document, params, foreign);
    var published := s.(cached := Some(result), cachedFrom := Some(params));
    StepQueryStart(s, params, question, narrate, foreign);
    StepParsedCapture(s, params, question, document, narrate, foreign);
    StepPublish(s, params, document, result, narrate, foreign);
    StepAlone(s, QueryStart(question, narrate), foreign);
    StepAlone(s, QueryHolding(params, question, narrate), foreign);
    StepAlone(s, QueryAnalysed(params, document, result, narrate), foreign);
    StepAlone(published, QueryPublished(result, narrate), foreign);
  }

  /** A query was captured as a document that gives a plan: the pair is cached, and reported unless narrating raises. */
  ghost predicate Answers(
    s: Shared, after: Shared, reply: Reply, params: ConnectionParams, document: Element, narrate: Option<ModelCall>,
    foreign: Foreign)
  {
    after.session == s.session && after.cachedFrom == Some(params) && after.cached.Some?
    && PairOf(document, params, foreign, after.cached.value)
    && match narrate
       case None => reply == Report(after.cached.value, None, None)
       case Some(call) =>
         if call.result.CallRaised? then reply == HttpError(500)
         else reply == Report(
           after.cached.value, narrate,
           Some(NarrationEngine.NarrationOf(
             after.cached.value.findings, after.cached.value.summary, call.model, call.result.outcome)))
  }

  /**
   * How a query over a connection is answered: 422 if it does not validate, 502
   * if the server gives no connection or no showplan, 500 for any other error
   * of the driver or in the document, all with nothing cached, and otherwise
   * with all the findings and the summary of the first showplan's document.
   */
  lemma QueryReplies(
    s: Shared, params: ConnectionParams, question: Question, narrate: Option<ModelCall>, foreign: Foreign)
    requires s.session == Some(params)
    ensures var (after, reply) := RunAlone(s, QueryStart(question, narrate), foreign);
      var w, valid := question.world, foreign.validators.isSelect(question.query);
      var connected := valid && w.connects;
      var found := PlanCapture.FoundIn([w.first] + w.later, w.endsInError);
      var document := if found.Showplan? then foreign.readXml(found.xml) else None;
      var planned := connected && w.opensCursor && w.closes && w.executes
                     && document.Some? && Parseable(document.value, foreign.parse, Actual);
      (!valid ==> reply == HttpError(422))
      && (valid && !w.connects ==> reply == HttpError(502))
      && (connected && (!w.opensCursor || !w.closes) ==> reply == HttpError(500))
      && (connected && w.opensCursor && w.closes && (!w.executes || !found.Showplan?) ==> reply == HttpError(502))
      && (connected && w.opensCursor && w.closes && w.executes && found.Showplan? && !planned ==>
            reply == HttpError(500))
      && (if planned then Answers(s, after, reply, params, document.value, narrate, foreign) else after == s)
  {
    hide Next, Parseable, Analyse, RunAlone, PlanCapture.FoundIn, PairOf, NarrationEngine.NarrationOf;
    var capture := CaptureOf(question, foreign);
    if capture.Captured? && Parseable(capture.document, foreign.parse, Actual) {
      ParseableHasParts(capture.document, foreign);
      ParsedQueryAlone(s, params, question, capture.document, narrate, foreign);
    } else {
      FailedQueryAlone(s, params, question, narrate, foreign);
    }
  }

  lemma ParseableHasParts(document: Element, foreign: Foreign)
    requires Parseable(document, foreign.parse, Actual)
    ensures Parts(document).Some?
  {
  }

  /** Running alone takes one step and goes on. */
  lemma StepAlone(s: Shared, t: Thread, foreign: Foreign)
    requires !t.Done?
    ensures var (after, rest) := Next(s, t, foreign);
      RunAlone(s, t, foreign) == if rest.Done? then (after, rest.reply) else RunAlone(after, rest, foreign)
  {
    hide Next;
  }

  lemma StepQueryStart(
    s: Shared, params: ConnectionParams, question: Question, narrate: Option<ModelCall>, foreign: Foreign)
    requires s.session == Some(params)
    ensures Next(s, QueryStart(question, narrate), foreign) == (s, QueryHolding(params, question, narrate))
  {
  }

  lemma StepFailedCapture(
    s: Shared, params: ConnectionParams, question: Question, narrate: Option<ModelCall>, foreign: Foreign)
    requires var capture := CaptureOf(question, foreign);
      capture.Captured? ==> !Parseable(capture.document, foreign.parse, Actual)
    ensures Next(s, QueryHolding(params, question, narrate), foreign)
         == (s, Done(HttpError(match CaptureOf(question, foreign)
                               case QueryRejected => 422
                               case CaptureFailed => 502
                               case CaptureRaised => 500
                               case Captured(_) => 500)))
  {
    hide CaptureOf, Parseable, Analyse;
  }

  lemma StepParsedCapture(
    s: Shared, params: ConnectionParams, question: Question, document: Element, narrate: Option<ModelCall>,
    foreign: Foreign)
    requires CaptureOf(question, foreign) == Captured(document)
    requires Parts(document).Some? && Parseable(document, foreign.parse, Actual)
    ensures Next(s, QueryHolding(params, question, narrate), foreign)
         == (s, QueryAnalysed(params, document, Analyse(document, params, foreign), narrate))
  {
    hide CaptureOf, Parseable, Analyse, Parts;
  }

  lemma StepPublish(
    s: Shared, params: ConnectionParams, document: Element, result: LastResult, narrate: Option<ModelCall>,
    foreign: Foreign)
    ensures var published := s.(cached := Some(result), cachedFrom := Some(params));
      Next(s, QueryAnalysed(params, document, result, narrate), foreign)
        == (published, QueryPublished(result, narrate))
      && Next(published, QueryPublished(result, narrate), foreign) == (published, Done(ReportFor(result, narrate)))
  {
    hide ReportFor;
  }

  lemma FixAlone(s: Shared, call: ModelCall, foreign: Foreign)
    ensures RunAlone(s, FixStart(call), foreign)
         == (s, if s.cached.None? then HttpError(409) else FixesFor(s.cached.value, call, foreign))
  {
    hide FixesFor, CaptureOf, Parseable, Analyse, ReportFor;
    StepAlone(s, FixStart(call), foreign);
    if s.cached.Some? {
      StepAlone(s, FixHolding(s.cached.value, call), foreign);
    }
  }

  /** A status request tells whether there is a connection, and fails if it is gone between its two looks. */
  lemma StatusAlone(s: Shared, foreign: Foreign)
    ensures RunAlone(s, StatusStart, foreign)
         == (s, if s.session.None? then NotConnected else Connected(s.session.value))
    ensures RunAlone(s, StatusSawSession, foreign)
         == (s, if s.session.None? then HttpError(500) else Connected(s.session.value))
  {
    StepAlone(s, StatusStart, foreign);
    StepAlone(s, StatusSawSession, foreign);
  }

  lemma UnconnectedQueryAlone(s: Shared, question: Question, narrate: Option<ModelCall>, foreign: Foreign)
    requires s.session.None?
    ensures RunAlone(s, QueryStart(question, narrate), foreign) == (s, HttpError(409))
  {
    hide CaptureOf, Parseable, Analyse, ReportFor, FixesFor;
    StepAlone(s, QueryStart(question, narrate), foreign);
  }

  lemma DisconnectAlone(s: Shared, foreign: Foreign)
    ensures RunAlone(s, DisconnectStart, foreign) == (Shared(None, None, None), NoContent)
  {
    StepAlone(s, DisconnectStart, foreign);
    StepAlone(s.(session := None), DisconnectSessionCleared, foreign);
  }

  /** What any request leaves in the two slots. */
  lemma AloneEffect(s: Shared, t: Thread, foreign: Foreign)
    requires IsRequest(t)
    ensures var after := RunAlone(s, t, foreign).0;
      match t
      case ConnectStart(params, Accepted) => after == s.(session := Some(params))
      case DisconnectStart => after == Shared(None, None, None)
      case QueryStart(_, _) =>
        after == s
        || (s.session.Some? && after.cached.Some? && after.session == s.session && after.cachedFrom == s.session)
      case _ => after == s
  {
    hide Next, CaptureOf, Parseable, Analyse, PairOf, ReportFor, FixesFor, RunAlone;
    match t
    case ConnectStart(params, attempt) => ConnectAlone(s, params, attempt, foreign);
    case DisconnectStart => DisconnectAlone(s, foreign);
    case StatusStart => StatusAlone(s, foreign);
    case FixStart(call) => FixAlone(s, call, foreign);
    case QueryStart(question, narrate) =>
      if s.session.None? {
        UnconnectedQueryAlone(s, question, narrate, foreign);
      } else if CaptureOf(question, foreign).Captured?
                && Parseable(CaptureOf(question, foreign).document, foreign.parse, Actual) {
        ParsedQueryAlone(s, s.session.value, question, CaptureOf(question, foreign).document, narrate, foreign);
      } else {
        FailedQueryAlone(s, s.session.value, question, narrate, foreign);
      }
  }

  // ---------- A series of requests ----------

  /** Disconnected, yet a result can still be fixed. */
  predicate Stale(s: Shared) {
    s.session.None? && s.cached.Some?
  }

  /** The cached result was queried over another connection than the current one, if there is one at all. */
  predicate Orphaned(s: Shared) {
    s.cached.Some? && (s.session.None? || s.session != s.cachedFrom)
  }

  /** A connect that will be accepted, to elsewhere than where the cached result is from. */
  predicate SwitchesConnection(s: Shared, t: Thread) {
    t.ConnectStart? && t.attempt.Accepted? && s.cached.Some? && s.cachedFrom != Some(t.params)
  }

  function RunSerially(s: Shared, requests: seq<Thread>, foreign: Foreign): Shared {
    if requests == [] then s
    else RunAlone(RunSerially(s, requests[..|requests| - 1], foreign), requests[|requests| - 1], foreign).0
  }

  lemma RunExtends(events: seq<Event>, event: Event, foreign: Foreign)
    ensures Run(events + [event], foreign) == Apply(Run(events, foreign), event, foreign)
  {
    hide Apply;
    assert (events + [event])[..|events|] == events;
  }

  function Steps(i: nat, n: nat): seq<Event> {
    seq(n, _ => Step(i))
  }

  lemma {:induction false} StepTimesIsARun(events: seq<Event>, i: nat, n: nat, foreign: Foreign)
    ensures StepTimes(Run(events, foreign), i, n, foreign) == Run(events + Steps(i, n), foreign)
    decreases n
  {
    hide Run, Apply;
    if n == 0 {
      assert events + Steps(i, 0) == events;
    } else {
      RunExtends(events, Step(i), foreign);
      StepTimesIsARun(events + [Step(i)], i, n - 1, foreign);
      assert events + [Step(i)] + Steps(i, n - 1) == events + Steps(i, n);
    }
  }

  /** One more request, handled from its arrival to its reply, at the end of a run. */
  lemma RequestAtTheEnd(events: seq<Event>, request: Thread, foreign: Foreign) returns (all: seq<Event>)
    requires IsRequest(request)
    ensures var (s, reply) := RunAlone(Run(events, foreign).shared, request, foreign);
      var before, sys := Run(events, foreign), Run(all, foreign);
      sys.shared == s && sys.threads == before.threads + [Done(reply)]
  {
    hide Run, RunAlone, StepTimes, Apply, StepsLeft, IsRequest;
    var before, n := Run(events, foreign), StepsLeft(request);
    var i, arrived := |before.threads|, events + [Arrive(request)];
    RunExtends(events, Arrive(request), foreign);
    ArrivalAppends(before, request, foreign);
    AloneIsARun(Run(arrived, foreign), i, n, foreign);
    StepTimesIsARun(arrived, i, n, foreign);
    all := arrived + Steps(i, n);
    assert Run(all, foreign).threads[..i] == before.threads;
  }

  /**
   * A series of requests is one of the machine's runs: it ends with the slots
   * of the series, and every request with the reply it gets there.
   */
  lemma {:induction false} SeriesIsARun(requests: seq<Thread>, foreign: Foreign) returns (events: seq<Event>)
    requires forall t :: t in requests ==> IsRequest(t)
    ensures var sys := Run(events, foreign);
      sys.shared == RunSerially(INITIAL.shared, requests, foreign) && sys.threads == Replies(requests, foreign)
  {
    hide Run, RunAlone, IsRequest;
    if requests == [] {
      events := [];
      NothingYet(foreign);
    } else {
      var most, last := requests[..|requests| - 1], requests[|requests| - 1];
      var before := SeriesIsARun(most, foreign);
      events := RequestAtTheEnd(before, last, foreign);
    }
  }

  /** The requests of a series from the initial state, each with the reply it gets. */
  function Replies(requests: seq<Thread>, foreign: Foreign): seq<Thread> {
    if requests == [] then []
    else
      var most, last := requests[..|requests| - 1], requests[|requests| - 1];
      Replies(most, foreign) + [Done(RunAlone(RunSerially(INITIAL.shared, most, foreign), last, foreign).1)]
  }

  lemma NothingYet(foreign: Foreign)
    ensures Run([], foreign) == INITIAL
  {
  }

  lemma ArrivalAppends(sys: System, request: Thread, foreign: Foreign)
    requires IsRequest(request)
    ensures Apply(sys, Arrive(request), foreign) == sys.(threads := sys.threads + [request])
  {
    hide Next;
  }

  /** Requests handled one after another never leave a cached result while disconnected. */
  lemma {:induction false} SerialRunsFresh(s: Shared, requests: seq<Thread>, foreign: Foreign)
    requires !Stale(s)
    requires forall t :: t in requests ==> IsRequest(t)
    ensures !Stale(RunSerially(s, requests, foreign))
  {
    hide RunAlone;
    if requests != [] {
      var most, last := requests[..|requests| - 1], requests[|requests| - 1];
      SerialRunsFresh(s, most, foreign);
      AloneEffect(RunSerially(s, most, foreign), last, foreign);
    }
  }

  /** Handled one after another, requests keep the cached result with its connection iff none connects elsewhere. */
  lemma {:induction false} SerialRunsOwnedExactly(s: Shared, requests: seq<Thread>, foreign: Foreign)
    requires !Orphaned(s)
    requires forall t :: t in requests ==> IsRequest(t)
    ensures (forall k :: 0 <= k <= |requests| ==> !Orphaned(RunSerially(s, requests[..k], foreign)))
       <==> (forall k :: 0 <= k < |requests| ==>
               !SwitchesConnection(RunSerially(s, requests[..k], foreign), requests[k]))
  {
    hide RunAlone, RunSerially, Orphaned, SwitchesConnection;
    var owned := k => 0 <= k <= |requests| ==> !Orphaned(RunSerially(s, requests[..k], foreign));
    var stays := k =>
      0 <= k < |requests| ==> !SwitchesConnection(RunSerially(s, requests[..k], foreign), requests[k]);
    assert owned(0) by { NothingHandled(s, requests, foreign); }
    forall k | 0 <= k < |requests| && owned(k) ensures owned(k + 1) <==> stays(k) {
      OneMore(s, requests, k, foreign);
      OwnedStep(RunSerially(s, requests[..k], foreign), requests[k], foreign);
    }
    StepsDecide(|requests|, owned, stays);
    assert forall k :: 0 <= k <= |requests| ==> (owned(k) <==> !Orphaned(RunSerially(s, requests[..k], foreign)));
    assert forall k :: 0 <= k < |requests| ==>
      (stays(k) <==> !SwitchesConnection(RunSerially(s, requests[..k], foreign), requests[k]));
  }

  lemma NothingHandled(s: Shared, requests: seq<Thread>, foreign: Foreign)
    ensures RunSerially(s, requests[..0], foreign) == s
  {
  }

  lemma OneMore(s: Shared, requests: seq<Thread>, k: nat, foreign: Foreign)
    requires k < |requests|
    ensures RunSerially(s, requests[..k + 1], foreign)
         == RunAlone(RunSerially(s, requests[..k], foreign), requests[k], foreign).0
  {
    hide RunAlone;
    assert requests[..k + 1][..k] == requests[..k];
  }

  lemma OwnedStep(s: Shared, t: Thread, foreign: Foreign)
    requires IsRequest(t) && !Orphaned(s)
    ensures !Orphaned(RunAlone(s, t, foreign).0) <==> !SwitchesConnection(s, t)
  {
    hide RunAlone;
    AloneEffect(s, t, foreign);
  }

  /** If, from a good point, the next is good exactly when its step is, all points are good iff all steps are. */
  lemma {:induction false} StepsDecide(n: nat, good: int -> bool, step: int -> bool)
    requires good(0)
    requires forall k :: 0 <= k < n && good(k) ==> (good(k + 1) <==> step(k))
    ensures (forall k :: 0 <= k <= n ==> good(k)) <==> (forall k :: 0 <= k < n ==> step(k))
  {
    if n > 0 {
      StepsDecide(n - 1, good, step);
      assert good(n - 1) ==> (good(n) <==> step(n - 1));
    }
  }
}
