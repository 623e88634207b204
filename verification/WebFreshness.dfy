/** When a cached result outlives its connection, over every interleaving of requests. */
module WebFreshness {
  import opened Wrappers
  import opened Sequences
  import opened Xml
  import opened PlanIr
  import opened PlanXmlToIr
  import opened WebApp
  import opened WebSerial
  import PlanCapture

  /** Some disconnect has cleared the session and not yet the cache. */
  ghost predicate MidDisconnect(sys: System) {
    exists i :: 0 <= i < |sys.threads| && sys.threads[i].DisconnectSessionCleared?
  }

  ghost predicate StepsAt(sys: System, event: Event) {
    event.Step? && event.thread < |sys.threads|
  }

  /** The step caches a query's result while the server is disconnected. */
  ghost predicate LatePublish(sys: System, event: Event) {
    StepsAt(sys, event) && sys.threads[event.thread].QueryAnalysed? && sys.shared.session.None?
  }

  /** The step caches the result of a query over another connection than the current one, or with none current. */
  ghost predicate ForeignPublish(sys: System, event: Event) {
    StepsAt(sys, event)
    && sys.threads[event.thread].QueryAnalysed?
    && sys.shared.session != Some(sys.threads[event.thread].params)
  }

  /** The step makes another connection current than the cached result is from. */
  ghost predicate SwitchingConnect(sys: System, event: Event) {
    StepsAt(sys, event)
    && sys.threads[event.thread].ConnectVerified?
    && sys.shared.cached.Some?
    && sys.shared.cachedFrom != Some(sys.threads[event.thread].params)
  }

  // ---------- One step ----------

  /** What a step does to the slots, by the request that takes it. */
  lemma StepEffect(sys: System, i: nat, foreign: Foreign)
    requires i < |sys.threads|
    ensures var s, t, after := sys.shared, sys.threads[i], Apply(sys, Step(i), foreign);
      after.shared
        == (match t
            case ConnectVerified(params) => s.(session := Some(params))
            case DisconnectStart => s.(session := None)
            case DisconnectSessionCleared => s.(cached := None, cachedFrom := None)
            case QueryAnalysed(params, _, result, _) => s.(cached := Some(result), cachedFrom := Some(params))
            case _ => s)
      && |after.threads| == |sys.threads|
      && (forall j :: 0 <= j < |sys.threads| && j != i ==> after.threads[j] == sys.threads[j])
      && (after.threads[i].DisconnectSessionCleared? <==> t.DisconnectStart?)
  {
    hide CaptureOf, SentBy, Analyse, Parseable, ReportFor, FixesFor;
  }

  /** A disconnect is half done afterwards if this step begins one or another than this one was. */
  lemma MidDisconnectAfter(sys: System, i: nat, foreign: Foreign)
    requires i < |sys.threads|
    ensures var t, after := sys.threads[i], Apply(sys, Step(i), foreign);
      (t.DisconnectStart? ==> MidDisconnect(after))
      && (!t.DisconnectStart? && !t.DisconnectSessionCleared? ==> (MidDisconnect(after) <==> MidDisconnect(sys)))
  {
    hide Next, Apply;
    StepEffect(sys, i, foreign);
    var t, after := sys.threads[i], Apply(sys, Step(i), foreign);
    if t.DisconnectStart? {
      assert after.threads[i].DisconnectSessionCleared?;
    } else if !t.DisconnectSessionCleared? {
      forall j | 0 <= j < |sys.threads|
        ensures after.threads[j].DisconnectSessionCleared? <==> sys.threads[j].DisconnectSessionCleared?
      {
      }
    }
  }

  lemma ArrivalEffect(sys: System, request: Thread, foreign: Foreign)
    ensures var after := Apply(sys, Arrive(request), foreign);
      after.shared == sys.shared && (MidDisconnect(after) <==> MidDisconnect(sys))
  {
    hide Next;
    var after := Apply(sys, Arrive(request), foreign);
    if MidDisconnect(sys) {
      var i :| 0 <= i < |sys.threads| && sys.threads[i].DisconnectSessionCleared?;
      assert after.threads[i].DisconnectSessionCleared?;
    }
  }

  /** From a point that is stale at most mid-disconnect, the next is so exactly when no publish comes too late. */
  lemma FreshStep(sys: System, event: Event, foreign: Foreign)
    requires Stale(sys.shared) ==> MidDisconnect(sys)
    ensures (Stale(Apply(sys, event, foreign).shared) ==> MidDisconnect(Apply(sys, event, foreign)))
       <==> (LatePublish(sys, event) ==> MidDisconnect(sys))
  {
    hide Next, Apply, MidDisconnect;
    if event.Arrive? {
      ArrivalEffect(sys, event.request, foreign);
    } else if event.thread < |sys.threads| {
      StepEffect(sys, event.thread, foreign);
      MidDisconnectAfter(sys, event.thread, foreign);
    } else {
      IdleStep(sys, event.thread, foreign);
    }
  }

  /** The same for results that outlive their connection. */
  lemma OwnedRunStep(sys: System, event: Event, foreign: Foreign)
    requires Orphaned(sys.shared) ==> MidDisconnect(sys)
    ensures (Orphaned(Apply(sys, event, foreign).shared) ==> MidDisconnect(Apply(sys, event, foreign)))
       <==> (ForeignPublish(sys, event) || SwitchingConnect(sys, event) ==> MidDisconnect(sys))
  {
    hide Next, Apply, MidDisconnect;
    if event.Arrive? {
      ArrivalEffect(sys, event.request, foreign);
    } else if event.thread < |sys.threads| {
      StepEffect(sys, event.thread, foreign);
      MidDisconnectAfter(sys, event.thread, foreign);
    } else {
      IdleStep(sys, event.thread, foreign);
    }
  }

  lemma IdleStep(sys: System, i: nat, foreign: Foreign)
    requires i >= |sys.threads|
    ensures Apply(sys, Step(i), foreign) == sys
  {
  }

  // ---------- Whole runs ----------

  /** A run is stale only mid-disconnect, throughout, iff each publish while disconnected is mid-disconnect. */
  lemma FreshRunsExactly(events: seq<Event>, foreign: Foreign)
    ensures (forall k :: 0 <= k <= |events| ==>
               Stale(Run(events[..k], foreign).shared) ==> MidDisconnect(Run(events[..k], foreign)))
       <==> (forall k :: 0 <= k < |events| ==>
               LatePublish(Run(events[..k], foreign), events[k]) ==> MidDisconnect(Run(events[..k], foreign)))
  {
    hide Run, Apply, Stale, LatePublish, MidDisconnect;
    var settled := k => 0 <= k <= |events| ==>
      Stale(Run(events[..k], foreign).shared) ==> MidDisconnect(Run(events[..k], foreign));
    var timely := k => 0 <= k < |events| ==>
      LatePublish(Run(events[..k], foreign), events[k]) ==> MidDisconnect(Run(events[..k], foreign));
    assert settled(0) by { NothingRun(events, foreign); InitiallyFresh(); }
    forall k | 0 <= k < |events| && settled(k) ensures settled(k + 1) <==> timely(k) {
      RunStep(events, k, foreign);
      FreshStep(Run(events[..k], foreign), events[k], foreign);
    }
    StepsDecide(|events|, settled, timely);
    assert forall k :: 0 <= k <= |events| ==>
      (settled(k) <==> (Stale(Run(events[..k], foreign).shared) ==> MidDisconnect(Run(events[..k], foreign))));
    assert forall k :: 0 <= k < |events| ==>
      (timely(k) <==>
        (LatePublish(Run(events[..k], foreign), events[k]) ==> MidDisconnect(Run(events[..k], foreign))));
  }

  /**
   * A run keeps the cached result with its own connection except mid-disconnect,
   * throughout, iff, except mid-disconnect, no query publishes over another
   * connection than its own and no connect goes elsewhere while a result is cached.
   */
  lemma OwnedRunsExactly(events: seq<Event>, foreign: Foreign)
    ensures (forall k :: 0 <= k <= |events| ==>
               Orphaned(Run(events[..k], foreign).shared) ==> MidDisconnect(Run(events[..k], foreign)))
       <==> (forall k :: 0 <= k < |events| ==>
               ForeignPublish(Run(events[..k], foreign), events[k])
               || SwitchingConnect(Run(events[..k], foreign), events[k]) ==>
                 MidDisconnect(Run(events[..k], foreign)))
  {
    hide Run, Apply, Orphaned, ForeignPublish, SwitchingConnect, MidDisconnect;
    var owned := k => 0 <= k <= |events| ==>
      Orphaned(Run(events[..k], foreign).shared) ==> MidDisconnect(Run(events[..k], foreign));
    var stays := k => 0 <= k < |events| ==>
      ForeignPublish(Run(events[..k], foreign), events[k])
      || SwitchingConnect(Run(events[..k], foreign), events[k]) ==>
        MidDisconnect(Run(events[..k], foreign));
    assert owned(0) by { NothingRun(events, foreign); InitiallyFresh(); }
    forall k | 0 <= k < |events| && owned(k) ensures owned(k + 1) <==> stays(k) {
      RunStep(events, k, foreign);
      OwnedRunStep(Run(events[..k], foreign), events[k], foreign);
    }
    StepsDecide(|events|, owned, stays);
    assert forall k :: 0 <= k <= |events| ==>
      (owned(k) <==> (Orphaned(Run(events[..k], foreign).shared) ==> MidDisconnect(Run(events[..k], foreign))));
    assert forall k :: 0 <= k < |events| ==>
      (stays(k) <==>
        (ForeignPublish(Run(events[..k], foreign), events[k])
         || SwitchingConnect(Run(events[..k], foreign), events[k]) ==>
           MidDisconnect(Run(events[..k], foreign))));
  }

  lemma InitiallyFresh()
    ensures !Stale(INITIAL.shared) && !Orphaned(INITIAL.shared)
  {
  }

  lemma NothingRun(events: seq<Event>, foreign: Foreign)
    ensures Run(events[..0], foreign) == INITIAL
  {
  }

  lemma RunStep(events: seq<Event>, k: nat, foreign: Foreign)
    requires k < |events|
    ensures Run(events[..k + 1], foreign) == Apply(Run(events[..k], foreign), events[k], foreign)
  {
    hide Apply;
    assert events[..k + 1][..k] == events[..k];
  }

  /** Under those guards, a fix request that begins outside a disconnect uses a result of the current connection. */
  lemma FixesUseCurrentConnection(events: seq<Event>, i: nat, foreign: Foreign)
    requires (forall k :: 0 <= k < |events| ==>
                ForeignPublish(Run(events[..k], foreign), events[k])
                || SwitchingConnect(Run(events[..k], foreign), events[k]) ==>
                  MidDisconnect(Run(events[..k], foreign)))
    requires var sys := Run(events, foreign);
      !MidDisconnect(sys) && i < |sys.threads| && sys.threads[i].FixStart?
    ensures var sys := Run(events, foreign);
      var reached := Apply(sys, Step(i), foreign).threads[i];
      reached == Done(HttpError(409))
      || exists p :: p in sys.published
           && sys.shared.session == Some(p.params)
           && reached == FixHolding(p.result, sys.threads[i].call)
  {
    hide Run, CaptureOf, SentBy, Analyse, Parseable, ReportFor, FixesFor, ForeignPublish, SwitchingConnect,
      MidDisconnect;
    var sys := Run(events, foreign);
    OwnedRunsExactly(events, foreign);
    assert events[..|events|] == events;
    EveryRunSafe(events, foreign);
    assert !Orphaned(sys.shared) && CacheSound(sys.shared, sys.published);
  }

  // ---------- The failures do happen ----------

  const REL_OP := Element("RelOp", [], [])
  const QUERY_PLAN := Element("QueryPlan", [], [REL_OP])
  const STATEMENT := Element("StmtSimple", [], [QUERY_PLAN])
  const DOCUMENT := Element("ShowPlanXML", [], [STATEMENT])

  lemma SmallestPlan()
    ensures Parts(DOCUMENT) == Some((STATEMENT, QUERY_PLAN, REL_OP))
  {
    assert Below(DOCUMENT.children) == [STATEMENT] + Below(STATEMENT.children) + Below([]);
    assert Descendants(DOCUMENT, "StmtSimple")[0] == STATEMENT;
    FilterOne(HasTag("QueryPlan"), QUERY_PLAN);
    FilterOne(HasTag("RelOp"), REL_OP);
  }

  /** The smallest plan document parses, however numbers are read. */
  lemma SmallestPlanParses(parse: string -> Option<real>)
    ensures Parseable(DOCUMENT, parse, Actual)
  {
    SmallestPlan();
    assert Below([REL_OP]) == [REL_OP];
    FilterOne(IsRelOp, REL_OP);
    assert FindAll(REL_OP, "RunTimeInformation") == [];
    assert Readable(REL_OP, ContextFor(STATEMENT, parse, Actual));
    FilterOne(HasTag("MemoryGrantInfo"), REL_OP);
    FilterOne(HasTag("MissingIndexes"), REL_OP);
  }

  function PendingQuery(params: ConnectionParams, foreign: Foreign): Thread
    requires Parts(DOCUMENT).Some?
  {
    QueryAnalysed(params, DOCUMENT, Analyse(DOCUMENT, params, foreign), None)
  }

  ghost function ApplyThree(sys: System, a: Event, b: Event, c: Event, foreign: Foreign): System {
    Apply(Apply(Apply(sys, a, foreign), b, foreign), c, foreign)
  }

  lemma Advance(events: seq<Event>, a: Event, b: Event, c: Event, sys: System, foreign: Foreign)
    requires Run(events, foreign) == sys
    ensures Run(events + [a, b, c], foreign) == ApplyThree(sys, a, b, c, foreign)
  {
    hide Apply;
    assert (events + [a])[..|events|] == events;
    assert (events + [a, b])[..|events| + 1] == events + [a];
    assert (events + [a, b, c])[..|events| + 2] == events + [a, b];
    assert Run(events + [a], foreign) == Apply(Run(events, foreign), a, foreign);
    assert Run(events + [a, b], foreign) == Apply(Run(events + [a], foreign), b, foreign);
  }

  /** A query is captured as the smallest plan, with one answer of server and driver that does it. */
  lemma SmallestCapture(query: string, foreign: Foreign) returns (question: Question)
    requires foreign.validators.isSelect(query) && foreign.readXml("<ShowPlanXML/>") == Some(DOCUMENT)
    ensures question.query == query && CaptureOf(question, foreign) == Captured(DOCUMENT)
  {
    hide DOCUMENT;
    var row := PlanCapture.FirstRow(Some([PlanCapture.TextCell("<ShowPlanXML/>")]));
    question := Question(query, PlanCapture.World(true, true, true, row, [], false, true));
  }

  lemma ConnectRuns(params: ConnectionParams, foreign: Foreign)
    ensures ApplyThree(INITIAL, Arrive(ConnectStart(params, Accepted)), Step(0), Step(0), foreign)
         == System(Shared(Some(params), None, None), [Done(Connected(params))], {params}, {}, [])
  {
    hide CaptureOf, SentBy, Analyse, Parseable, ReportFor, FixesFor;
  }

  /** The server once a query has been analysed and not yet cached. */
  ghost function Pending(params: ConnectionParams, question: Question, foreign: Foreign): System
    requires Parts(DOCUMENT).Some?
  {
    System(
      Shared(Some(params), None, None),
      [Done(Connected(params)), PendingQuery(params, foreign)],
      {params},
      {},
      [SentBy(question, foreign)])
  }

  lemma QueryRunsUntilCaching(params: ConnectionParams, question: Question, foreign: Foreign)
    requires Parseable(DOCUMENT, foreign.parse, Actual) && CaptureOf(question, foreign) == Captured(DOCUMENT)
    ensures var connected := System(Shared(Some(params), None, None), [Done(Connected(params))], {params}, {}, []);
      ApplyThree(connected, Arrive(QueryStart(question, None)), Step(1), Step(1), foreign)
        == Pending(params, question, foreign)
  {
    hide CaptureOf, SentBy, Analyse, Parseable, ReportFor, FixesFor, DOCUMENT;
  }

  /** The server once a disconnect has run between a query's analysis and its caching. */
  ghost function Interrupted(params: ConnectionParams, question: Question, foreign: Foreign): System
    requires Parts(DOCUMENT).Some?
  {
    System(
      Shared(None, None, None),
      [Done(Connected(params)), PendingQuery(params, foreign), Done(NoContent)],
      {params},
      {},
      [SentBy(question, foreign)])
  }

  lemma DisconnectRuns(params: ConnectionParams, question: Question, foreign: Foreign)
    requires Parts(DOCUMENT).Some?
    ensures ApplyThree(Pending(params, question, foreign), Arrive(DisconnectStart), Step(2), Step(2), foreign)
         == Interrupted(params, question, foreign)
  {
    hide CaptureOf, SentBy, Analyse, Parseable, ReportFor, FixesFor, DOCUMENT, Parts;
  }

  lemma InterruptedRun(params: ConnectionParams, question: Question, foreign: Foreign) returns (events: seq<Event>)
    requires Parseable(DOCUMENT, foreign.parse, Actual) && CaptureOf(question, foreign) == Captured(DOCUMENT)
    ensures Run(events, foreign) == Interrupted(params, question, foreign)
  {
    hide CaptureOf, SentBy, Analyse, Parseable, ReportFor, FixesFor, DOCUMENT, Run, Apply, ApplyThree, Interrupted,
      Pending;
    ParseableHasParts(DOCUMENT, foreign);
    var connect := [Arrive(ConnectStart(params, Accepted)), Step(0), Step(0)];
    NothingRun(connect, foreign);
    assert connect[..0] == [];
    Advance([], connect[0], connect[1], connect[2], INITIAL, foreign);
    ConnectRuns(params, foreign);
    assert [] + connect == connect;

    var query := [Arrive(QueryStart(question, None)), Step(1), Step(1)];
    Advance(connect, query[0], query[1], query[2], Run(connect, foreign), foreign);
    QueryRunsUntilCaching(params, question, foreign);

    var disconnect := [Arrive(DisconnectStart), Step(2), Step(2)];
    Advance(connect + query, disconnect[0], disconnect[1], disconnect[2], Run(connect + query, foreign), foreign);
    DisconnectRuns(params, question, foreign);
    events := connect + query + disconnect;
  }

  /** A late publish does happen: it leaves a cached result while disconnected, with no disconnect under way. */
  lemma LatePublishHappens(params: ConnectionParams, question: Question, foreign: Foreign)
    returns (events: seq<Event>)
    requires CaptureOf(question, foreign) == Captured(DOCUMENT)
    ensures Stale(Run(events, foreign).shared) && !MidDisconnect(Run(events, foreign))
  {
    hide CaptureOf, Analyse, Parseable, DOCUMENT, Run, Apply, Interrupted, Stale, MidDisconnect;
    SmallestPlanParses(foreign.parse);
    ParseableHasParts(DOCUMENT, foreign);
    var most := InterruptedRun(params, question, foreign);
    events := most + [Step(1)];
    RunStep(events, |most|, foreign);
    assert events[..|most|] == most && events[..|most| + 1] == events;
    LateCaching(params, question, foreign);
  }

  lemma LateCaching(params: ConnectionParams, question: Question, foreign: Foreign)
    requires Parts(DOCUMENT).Some?
    ensures var after := Apply(Interrupted(params, question, foreign), Step(1), foreign);
      Stale(after.shared) && !MidDisconnect(after)
  {
    hide CaptureOf, SentBy, Analyse, Parseable, ReportFor, FixesFor, DOCUMENT, Parts;
  }

  /**
   * So does a foreign one: connect to a, query, disconnect while the query is
   * analysed, connect to b, and only then cache. The result of a stays fixable
   * over b, with no disconnect under way and never a publish while disconnected.
   */
  lemma ForeignPublishHappens(a: ConnectionParams, b: ConnectionParams, question: Question, foreign: Foreign)
    returns (events: seq<Event>)
    requires a != b && CaptureOf(question, foreign) == Captured(DOCUMENT)
    ensures Parts(DOCUMENT).Some?
    ensures var sys := Run(events, foreign);
      sys.shared == Shared(Some(b), Some(Analyse(DOCUMENT, a, foreign)), Some(a))
      && Orphaned(sys.shared) && !MidDisconnect(sys)
  {
    hide CaptureOf, SentBy, Analyse, Parseable, DOCUMENT, Run, Apply, ApplyThree, Interrupted;
    SmallestPlanParses(foreign.parse);
    ParseableHasParts(DOCUMENT, foreign);
    var most := InterruptedRun(a, question, foreign);
    var connect := [Arrive(ConnectStart(b, Accepted)), Step(3), Step(3)];
    Advance(most, connect[0], connect[1], connect[2], Run(most, foreign), foreign);
    events := most + connect + [Step(1)];
    RunStep(events, |most + connect|, foreign);
    assert events[..|most + connect|] == most + connect && events[..|most + connect| + 1] == events;
    ReconnectThenCaching(a, b, question, foreign);
  }

  lemma ReconnectThenCaching(a: ConnectionParams, b: ConnectionParams, question: Question, foreign: Foreign)
    requires Parts(DOCUMENT).Some?
    ensures var reconnected := ApplyThree(
        Interrupted(a, question, foreign), Arrive(ConnectStart(b, Accepted)), Step(3), Step(3), foreign);
      var after := Apply(reconnected, Step(1), foreign);
      after.shared == Shared(Some(b), Some(Analyse(DOCUMENT, a, foreign)), Some(a)) && !MidDisconnect(after)
  {
    hide CaptureOf, SentBy, Analyse, Parseable, ReportFor, FixesFor, DOCUMENT, Parts;
  }

  /** Even one request at a time: a connect elsewhere keeps the result of the connection it replaces. */
  lemma SerialReconnectOrphans(a: ConnectionParams, b: ConnectionParams, question: Question, foreign: Foreign)
    requires a != b && CaptureOf(question, foreign) == Captured(DOCUMENT)
    ensures Parts(DOCUMENT).Some?
    ensures var requests := [ConnectStart(a, Accepted), QueryStart(question, None), ConnectStart(b, Accepted)];
      var s := RunSerially(INITIAL.shared, requests, foreign);
      s == Shared(Some(b), Some(Analyse(DOCUMENT, a, foreign)), Some(a)) && Orphaned(s)
  {
    hide CaptureOf, Analyse, PairOf, Parseable, DOCUMENT, RunAlone, RunSerially, ReportFor;
    SmallestPlanParses(foreign.parse);
    ParseableHasParts(DOCUMENT, foreign);
    var requests := [ConnectStart(a, Accepted), QueryStart(question, None), ConnectStart(b, Accepted)];
    var s := INITIAL.shared;
    NothingHandled(s, requests, foreign);
    OneMore(s, requests, 0, foreign);
    ConnectAlone(s, a, Accepted, foreign);
    OneMore(s, requests, 1, foreign);
    ParsedQueryAlone(s.(session := Some(a)), a, question, DOCUMENT, None, foreign);
    OneMore(s, requests, 2, foreign);
    ConnectAlone(Shared(Some(a), Some(Analyse(DOCUMENT, a, foreign)), Some(a)), b, Accepted, foreign);
    assert requests[..3] == requests;
  }
}
