/** Runs looked at as histories: which publish the cache holds, which a fix answers for, and what captures did. */
module WebHistory {
  import opened Wrappers
  import opened Xml
  import opened PlanXmlToIr
  import opened WebApp
  import opened WebSerial
  import opened WebFreshness
  import FixEngine
  import NarrationEngine
  import PlanCapture

  // ---------- The latest publish ----------

  /** The k-th event is a query caching its pair. */
  ghost predicate PublishesAt(events: seq<Event>, k: int, foreign: Foreign) {
    0 <= k < |events|
    && StepsAt(Run(events[..k], foreign), events[k])
    && Run(events[..k], foreign).threads[events[k].thread].QueryAnalysed?
  }

  /** The k-th event is a disconnect clearing the cache. */
  ghost predicate ClearsAt(events: seq<Event>, k: int, foreign: Foreign) {
    0 <= k < |events|
    && StepsAt(Run(events[..k], foreign), events[k])
    && Run(events[..k], foreign).threads[events[k].thread].DisconnectSessionCleared?
  }

  /** The query that publishes at k, just before it does. */
  ghost function PublisherAt(events: seq<Event>, k: int, foreign: Foreign): (t: Thread)
    requires PublishesAt(events, k, foreign)
    ensures t.QueryAnalysed?
  {
    Run(events[..k], foreign).threads[events[k].thread]
  }

  /** The publish at p is the latest, and nothing has cleared the cache since. */
  ghost predicate LatestPublish(events: seq<Event>, p: int, foreign: Foreign) {
    PublishesAt(events, p, foreign)
    && forall j :: p < j < |events| ==> !PublishesAt(events, j, foreign) && !ClearsAt(events, j, foreign)
  }

  lemma SameEarlier(events: seq<Event>, event: Event, k: int, foreign: Foreign)
    requires k < |events|
    ensures PublishesAt(events + [event], k, foreign) <==> PublishesAt(events, k, foreign)
    ensures ClearsAt(events + [event], k, foreign) <==> ClearsAt(events, k, foreign)
    ensures PublishesAt(events, k, foreign) ==>
              PublisherAt(events + [event], k, foreign) == PublisherAt(events, k, foreign)
  {
    hide Run;
    if 0 <= k {
      assert (events + [event])[..k] == events[..k];
    }
  }

  lemma AtTheEnd(events: seq<Event>, event: Event, foreign: Foreign)
    ensures var sys := Run(events, foreign);
      (PublishesAt(events + [event], |events|, foreign)
       <==> StepsAt(sys, event) && sys.threads[event.thread].QueryAnalysed?)
      && (ClearsAt(events + [event], |events|, foreign)
          <==> StepsAt(sys, event) && sys.threads[event.thread].DisconnectSessionCleared?)
      && (PublishesAt(events + [event], |events|, foreign) ==>
            PublisherAt(events + [event], |events|, foreign) == sys.threads[event.thread])
  {
    hide Run;
    assert (events + [event])[..|events|] == events;
  }

  /** One more event: a publish becomes the latest, a clear leaves none, anything else changes nothing. */
  lemma LatestStep(events: seq<Event>, event: Event, p: int, foreign: Foreign)
    ensures var all := events + [event];
      LatestPublish(all, p, foreign)
      <==> if PublishesAt(all, |events|, foreign) then p == |events|
           else !ClearsAt(all, |events|, foreign) && LatestPublish(events, p, foreign)
  {
    hide Run, PublishesAt, ClearsAt;
    var all := events + [event];
    forall k | k < |events|
      ensures PublishesAt(all, k, foreign) <==> PublishesAt(events, k, foreign)
      ensures ClearsAt(all, k, foreign) <==> ClearsAt(events, k, foreign)
    {
      SameEarlier(events, event, k, foreign);
    }
    OnlyInside(all, p, foreign);
    OnlyInside(events, p, foreign);
    if LatestPublish(all, p, foreign) {
      assert p < |events| ==> !PublishesAt(all, |events|, foreign) && !ClearsAt(all, |events|, foreign);
    }
  }

  lemma OnlyInside(events: seq<Event>, k: int, foreign: Foreign)
    ensures PublishesAt(events, k, foreign) ==> 0 <= k < |events|
  {
    hide Run;
  }

  /** What an event leaves in the cache. */
  lemma CacheAfter(sys: System, event: Event, foreign: Foreign)
    ensures var s, after := sys.shared, Apply(sys, event, foreign).shared;
      (after.cached, after.cachedFrom)
      == if StepsAt(sys, event) && sys.threads[event.thread].QueryAnalysed?
         then (Some(sys.threads[event.thread].result), Some(sys.threads[event.thread].params))
         else if StepsAt(sys, event) && sys.threads[event.thread].DisconnectSessionCleared? then (None, None)
         else (s.cached, s.cachedFrom)
  {
    hide Next, Apply;
    if event.Arrive? {
      ArrivalEffect(sys, event.request, foreign);
    } else if event.thread < |sys.threads| {
      StepEffect(sys, event.thread, foreign);
    } else {
      IdleStep(sys, event.thread, foreign);
    }
  }

  /** The cache holds the pair published at p. */
  ghost predicate CacheHolds(events: seq<Event>, p: int, foreign: Foreign) {
    PublishesAt(events, p, foreign)
    && var s, t := Run(events, foreign).shared, PublisherAt(events, p, foreign);
       s.cached == Some(t.result) && s.cachedFrom == Some(t.params)
  }

  /** The cache holds the pair of the latest publish, unless there was none or a disconnect has cleared it since. */
  lemma {:induction false} CacheIsLatest(events: seq<Event>, foreign: Foreign)
    ensures Run(events, foreign).shared.cached.Some? <==> exists p :: LatestPublish(events, p, foreign)
    ensures forall p :: LatestPublish(events, p, foreign) ==> CacheHolds(events, p, foreign)
  {
    hide Run, Apply, PublishesAt, ClearsAt, LatestPublish, CacheHolds;
    if events == [] {
      NothingPublished(foreign);
    } else {
      var most, last := events[..|events| - 1], events[|events| - 1];
      var sys := Run(most, foreign);
      assert events == most + [last];
      CacheIsLatest(most, foreign);
      RunExtends(most, last, foreign);
      AtTheEnd(most, last, foreign);
      CacheAfter(sys, last, foreign);
      forall p ensures LatestPublish(events, p, foreign)
        <==> if PublishesAt(events, |most|, foreign) then p == |most|
             else !ClearsAt(events, |most|, foreign) && LatestPublish(most, p, foreign)
      {
        LatestStep(most, last, p, foreign);
      }
      assert PublishesAt(events, |most|, foreign) ==> LatestPublish(events, |most|, foreign);
      forall p | LatestPublish(events, p, foreign) ensures CacheHolds(events, p, foreign) {
        LatestHolds(most, last, p, foreign);
      }
    }
  }

  lemma NothingPublished(foreign: Foreign)
    ensures Run([], foreign).shared.cached == None
    ensures forall p :: !LatestPublish([], p, foreign)
  {
  }

  lemma LatestIsPublish(events: seq<Event>, p: int, foreign: Foreign)
    requires LatestPublish(events, p, foreign)
    ensures PublishesAt(events, p, foreign) && 0 <= p < |events|
  {
    hide Run;
  }

  lemma LatestHolds(most: seq<Event>, last: Event, p: int, foreign: Foreign)
    requires LatestPublish(most + [last], p, foreign)
    requires forall q :: LatestPublish(most, q, foreign) ==> CacheHolds(most, q, foreign)
    ensures CacheHolds(most + [last], p, foreign)
  {
    hide Run, Apply, PublishesAt, ClearsAt, LatestPublish, PublisherAt;
    LatestIsPublish(most + [last], p, foreign);
    LatestStep(most, last, p, foreign);
    RunExtends(most, last, foreign);
    AtTheEnd(most, last, foreign);
    CacheAfter(Run(most, foreign), last, foreign);
    if p < |most| {
      LatestIsPublish(most, p, foreign);
      SameEarlier(most, last, p, foreign);
    } else {
      LatestStep(most, last, |most|, foreign);
    }
  }

  // ---------- Which report a fix answers for ----------

  /** t with its slot accesses behind it is now u: unchanged, or replied. */
  ghost predicate Settled(t: Thread, u: Thread, foreign: Foreign) {
    u == t
    || (t.QueryPublished? && u == Done(ReportFor(t.result, t.narrate)))
    || (t.FixHolding? && u == Done(FixesFor(t.result, t.call, foreign)))
  }

  lemma SettledStep(sys: System, event: Event, i: nat, t: Thread, foreign: Foreign)
    requires t.QueryPublished? || t.FixHolding? || t.Done?
    requires i < |sys.threads| && Settled(t, sys.threads[i], foreign)
    ensures var after := Apply(sys, event, foreign);
      i < |after.threads| && Settled(t, after.threads[i], foreign)
  {
    hide CaptureOf, SentBy, Analyse, Parseable, ReportFor, FixesFor;
  }

  lemma {:induction false} StaysSettled(events: seq<Event>, k: nat, i: nat, foreign: Foreign)
    requires k <= |events| && i < |Run(events[..k], foreign).threads|
    requires var t := Run(events[..k], foreign).threads[i];
      t.QueryPublished? || t.FixHolding? || t.Done?
    ensures i < |Run(events, foreign).threads|
    ensures Settled(Run(events[..k], foreign).threads[i], Run(events, foreign).threads[i], foreign)
    decreases |events|
  {
    hide Run, Apply;
    if k == |events| {
      assert events[..k] == events;
    } else {
      var most, last := events[..|events| - 1], events[|events| - 1];
      assert most[..k] == events[..k] && events == most + [last];
      StaysSettled(most, k, i, foreign);
      RunExtends(most, last, foreign);
      SettledStep(Run(most, foreign), last, i, Run(events[..k], foreign).threads[i], foreign);
    }
  }

  /** A query that publishes goes on to report what it published. */
  lemma PublisherReports(events: seq<Event>, p: int, foreign: Foreign)
    requires PublishesAt(events, p, foreign)
    ensures var i, t := events[p].thread, PublisherAt(events, p, foreign);
      i < |Run(events, foreign).threads|
      && Settled(QueryPublished(t.result, t.narrate), Run(events, foreign).threads[i], foreign)
  {
    hide Run;
    RunStep(events, p, foreign);
    PublishStep(Run(events[..p], foreign), events[p].thread, foreign);
    StaysSettled(events, p + 1, events[p].thread, foreign);
  }

  lemma PublishStep(sys: System, i: nat, foreign: Foreign)
    requires i < |sys.threads| && sys.threads[i].QueryAnalysed?
    ensures var t, after := sys.threads[i], Apply(sys, Step(i), foreign);
      i < |after.threads| && after.threads[i] == QueryPublished(t.result, t.narrate)
  {
    hide CaptureOf, SentBy, Analyse, Parseable, ReportFor, FixesFor;
  }

  lemma FixStep(sys: System, i: nat, foreign: Foreign)
    requires i < |sys.threads| && sys.threads[i].FixStart?
    ensures var after := Apply(sys, Step(i), foreign);
      i < |after.threads|
      && after.threads[i]
        == if sys.shared.cached.None? then Done(HttpError(409))
           else FixHolding(sys.shared.cached.value, sys.threads[i].call)
  {
    hide CaptureOf, SentBy, Analyse, Parseable, ReportFor, FixesFor;
  }

  /** The query that publishes at p reports its pair, and request f answers its call for the same pair. */
  ghost predicate AnswersReport(events: seq<Event>, p: int, f: nat, call: ModelCall, foreign: Foreign) {
    PublishesAt(events, p, foreign)
    && var t, i, threads := PublisherAt(events, p, foreign), events[p].thread, Run(events, foreign).threads;
       i < |threads| && f < |threads|
       && Settled(QueryPublished(t.result, t.narrate), threads[i], foreign)
       && Settled(FixHolding(t.result, call), threads[f], foreign)
  }

  /**
   * A fix request that looks at the cache at k answers for the pair that the
   * latest publish before k reports, and is refused exactly when there is
   * none, or a disconnect has cleared the cache since.
   */
  lemma FixAnswersLatestReport(events: seq<Event>, k: nat, foreign: Foreign)
    requires k < |events| && StepsAt(Run(events[..k], foreign), events[k])
    requires Run(events[..k], foreign).threads[events[k].thread].FixStart?
    ensures var f, call, sys :=
        events[k].thread, Run(events[..k], foreign).threads[events[k].thread].call, Run(events, foreign);
      f < |sys.threads|
      && (sys.threads[f] == Done(HttpError(409)) <==> forall p :: !LatestPublish(events[..k], p, foreign))
      && forall p :: LatestPublish(events[..k], p, foreign) ==> AnswersReport(events, p, f, call, foreign)
  {
    hide Run, Apply, Settled, PublishesAt, LatestPublish;
    var f, sys := events[k].thread, Run(events, foreign);
    RunStep(events, k, foreign);
    FixStep(Run(events[..k], foreign), f, foreign);
    StaysSettled(events, k + 1, f, foreign);
    CacheIsLatest(events[..k], foreign);
    if forall p :: !LatestPublish(events[..k], p, foreign) {
      RepliesStay(HttpError(409), sys.threads[f], foreign);
    }
    forall p | LatestPublish(events[..k], p, foreign)
      ensures AnswersReport(events, p, f, Run(events[..k], foreign).threads[f].call, foreign)
      ensures sys.threads[f] != Done(HttpError(409))
    {
      LatestIsPublish(events[..k], p, foreign);
      SameInPrefix(events, k, p, foreign);
      PublisherReports(events, p, foreign);
      NotRefused(PublisherAt(events, p, foreign).result, Run(events[..k], foreign).threads[f].call, foreign);
    }
  }

  lemma NotRefused(result: LastResult, call: ModelCall, foreign: Foreign)
    ensures !Settled(FixHolding(result, call), Done(HttpError(409)), foreign)
  {
  }

  lemma RepliesStay(reply: Reply, u: Thread, foreign: Foreign)
    ensures Settled(Done(reply), u, foreign) <==> u == Done(reply)
  {
  }

  lemma SameInPrefix(events: seq<Event>, k: nat, p: int, foreign: Foreign)
    requires k <= |events| && PublishesAt(events[..k], p, foreign)
    ensures PublishesAt(events, p, foreign)
    ensures PublisherAt(events, p, foreign) == PublisherAt(events[..k], p, foreign)
    ensures events[..k][p] == events[p]
  {
    hide Run;
    assert events[..k][..p] == events[..p];
  }

  // ---------- What was reported and answered ----------

  /** A report narrates its own pair, and a fix answer proposes for one published pair, all findings included. */
  ghost predicate AnswerSound(t: Thread, published: set<Publication>, foreign: Foreign) {
    match t
    case Done(Report(result, call, narration)) =>
      IsPublished(result, published)
      && (match call
          case None => narration == None
          case Some(asked) =>
            asked.result.Answered?
            && narration
              == Some(NarrationEngine.NarrationOf(
                   result.findings, result.summary, asked.model, asked.result.outcome)))
    case Done(Fixes(asked, proposal)) =>
      asked.result.Answered?
      && exists p :: p in published
           && proposal
             == FixEngine.Proposal(p.result.findings, asked.model, asked.result.outcome, foreign.validators)
    case _ => true
  }

  /**
   * In every run, what was published is the pair of a document captured for a
   * query that was asked, over a connection that was asked for and accepted,
   * with every finding the document gives rise to, and reports and fix answers
   * are about such pairs as they are.
   */
  lemma EveryPairIsADocuments(events: seq<Event>, foreign: Foreign)
    ensures var sys := Run(events, foreign);
      (forall p :: p in sys.published ==>
         PairOf(p.document, p.params, foreign, p.result)
         && CapturedFor(events, p.document, foreign) && Arrived(events, ConnectStart(p.params, Accepted)))
      && forall i :: 0 <= i < |sys.threads| ==> AnswerSound(sys.threads[i], sys.published, foreign)
  {
    hide Run, Analyse, PairOf, ThreadSafe, AnswerSound, Parseable, Arrived, CapturedFor, Originates;
    EveryRunSafe(events, foreign);
    OriginsOfRun(events, foreign);
    var sys := Run(events, foreign);
    forall p | p in sys.published
      ensures p.params in sys.verified && PairOf(p.document, p.params, foreign, p.result)
    {
      ParseableHasParts(p.document, foreign);
      AnalysedPair(p.document, p.params, foreign);
    }
    forall i | 0 <= i < |sys.threads| ensures AnswerSound(sys.threads[i], sys.published, foreign) {
      SafeAnswer(sys.threads[i], sys.verified, sys.published, foreign);
    }
  }

  // ---------- Where connections and documents come from ----------

  /** Some request of the run is this one. */
  ghost predicate Arrived(events: seq<Event>, request: Thread) {
    Arrive(request) in events
  }

  /** The document was captured for a query that was asked. */
  ghost predicate CapturedFor(events: seq<Event>, document: Element, foreign: Foreign) {
    exists question, narrate ::
      Arrived(events, QueryStart(question, narrate)) && CaptureOf(question, foreign) == Captured(document)
  }

  /** What a request holds goes back to what arrived. */
  ghost predicate Originates(t: Thread, events: seq<Event>, foreign: Foreign) {
    match t
    case ConnectStart(_, _) => Arrived(events, t)
    case QueryStart(_, _) => Arrived(events, t)
    case QueryHolding(_, question, narrate) => Arrived(events, QueryStart(question, narrate))
    case QueryAnalysed(_, document, _, _) => CapturedFor(events, document, foreign)
    case _ => true
  }

  ghost predicate OriginsKnown(events: seq<Event>, sys: System, foreign: Foreign) {
    (forall params :: params in sys.verified ==> Arrived(events, ConnectStart(params, Accepted)))
    && (forall p :: p in sys.published ==> CapturedFor(events, p.document, foreign))
    && forall i :: 0 <= i < |sys.threads| ==> Originates(sys.threads[i], events, foreign)
  }

  lemma OriginatesStays(t: Thread, events: seq<Event>, event: Event, foreign: Foreign)
    requires Originates(t, events, foreign)
    ensures Originates(t, events + [event], foreign)
  {
    hide CaptureOf;
    if t.QueryAnalysed? {
      CapturedStays(t.document, events, event, foreign);
    }
  }

  lemma CapturedStays(document: Element, events: seq<Event>, event: Event, foreign: Foreign)
    requires CapturedFor(events, document, foreign)
    ensures CapturedFor(events + [event], document, foreign)
  {
    hide CaptureOf;
    var question, narrate :|
      Arrived(events, QueryStart(question, narrate)) && CaptureOf(question, foreign) == Captured(document);
    assert Arrived(events + [event], QueryStart(question, narrate));
  }

  lemma NextOriginates(s: Shared, t: Thread, events: seq<Event>, foreign: Foreign)
    requires Originates(t, events, foreign)
    ensures Originates(Next(s, t, foreign).1, events, foreign)
  {
    hide CaptureOf, Analyse, Parseable, ReportFor, FixesFor, Arrived;
    if t.QueryHolding? && CaptureOf(t.question, foreign).Captured? {
      assert CapturedFor(events, CaptureOf(t.question, foreign).document, foreign);
    }
  }

  lemma {:induction false} OriginsOfRun(events: seq<Event>, foreign: Foreign)
    ensures OriginsKnown(events, Run(events, foreign), foreign)
  {
    hide Run, Next, Originates, CapturedFor;
    if events == [] {
      NothingYet(foreign);
    } else {
      var most, last := events[..|events| - 1], events[|events| - 1];
      var sys, after := Run(most, foreign), Run(events, foreign);
      assert events == most + [last];
      OriginsOfRun(most, foreign);
      RunExtends(most, last, foreign);
      forall i | 0 <= i < |after.threads| ensures Originates(after.threads[i], events, foreign) {
        ThreadOriginates(sys, most, last, i, foreign);
      }
      forall p | p in after.published ensures CapturedFor(events, p.document, foreign) {
        PublishedFrom(sys, most, last, p, foreign);
      }
      forall params | params in after.verified ensures Arrived(events, ConnectStart(params, Accepted)) {
        VerifiedFrom(sys, most, last, params, foreign);
      }
    }
  }

  lemma ThreadOriginates(sys: System, events: seq<Event>, event: Event, i: nat, foreign: Foreign)
    requires OriginsKnown(events, sys, foreign) && i < |Apply(sys, event, foreign).threads|
    ensures Originates(Apply(sys, event, foreign).threads[i], events + [event], foreign)
  {
    hide Next, CapturedFor, SentBy;
    if i == |sys.threads| {
      assert event.request == Apply(sys, event, foreign).threads[i];
      assert Arrive(event.request) in events + [event];
    } else {
      hide Originates;
      OriginatesStays(sys.threads[i], events, event, foreign);
      NextOriginates(sys.shared, sys.threads[i], events + [event], foreign);
    }
  }

  lemma PublishedFrom(sys: System, events: seq<Event>, event: Event, p: Publication, foreign: Foreign)
    requires OriginsKnown(events, sys, foreign) && p in Apply(sys, event, foreign).published
    ensures CapturedFor(events + [event], p.document, foreign)
  {
    hide Next, CapturedFor, SentBy;
    if p !in sys.published {
      assert Originates(sys.threads[event.thread], events, foreign);
    }
    CapturedStays(p.document, events, event, foreign);
  }

  lemma VerifiedFrom(sys: System, events: seq<Event>, event: Event, params: ConnectionParams, foreign: Foreign)
    requires OriginsKnown(events, sys, foreign) && params in Apply(sys, event, foreign).verified
    ensures Arrived(events + [event], ConnectStart(params, Accepted))
  {
    hide Next, CapturedFor, SentBy;
    if params !in sys.verified {
      assert Originates(sys.threads[event.thread], events, foreign);
    }
  }

  lemma SafeAnswer(t: Thread, verified: set<ConnectionParams>, published: set<Publication>, foreign: Foreign)
    requires ThreadSafe(t, verified, published, foreign)
    ensures AnswerSound(t, published, foreign)
  {
    hide Analyse, Parseable, NarrationEngine.NarrationOf, FixEngine.Proposal, IsPublished;
    if t.Done? && t.reply.Fixes? {
      var p :| p in published && t.reply == FixesFor(p.result, t.reply.asked, foreign);
    }
  }

  // ---------- What reached the database server ----------

  /** Some request of the run asks this query. */
  ghost predicate Asked(events: seq<Event>, query: string) {
    exists k :: 0 <= k < |events| && AsksAt(events, k, query)
  }

  predicate AsksAt(events: seq<Event>, k: nat, query: string)
    requires k < |events|
  {
    events[k].Arrive? && events[k].request.QueryStart? && events[k].request.question.query == query
  }

  /** A capture on a connection of its own: bracketed, and only the fixed statement of a query that validates. */
  ghost predicate CaptureSound(c: Sent, foreign: Foreign) {
    PlanCapture.OneConnection(c.trace)
    && PlanCapture.ExecutesOnce(c.trace)
    && forall e :: e in c.trace && e.Executed? ==>
         foreign.validators.isSelect(c.query) && PlanCapture.Sends(e.statement, c.query)
  }

  ghost predicate QueryOf(t: Thread, query: string) {
    (t.QueryStart? || t.QueryHolding?) && t.question.query == query
  }

  ghost predicate HistorySound(events: seq<Event>, sys: System, foreign: Foreign) {
    (forall c :: c in sys.sent ==> CaptureSound(c, foreign) && Asked(events, c.query))
    && forall i, query :: 0 <= i < |sys.threads| && QueryOf(sys.threads[i], query) ==> Asked(events, query)
  }

  lemma AskedStays(events: seq<Event>, event: Event, query: string)
    ensures Asked(events, query) ==> Asked(events + [event], query)
    ensures event.Arrive? && QueryOf(event.request, query) && IsRequest(event.request) ==>
              Asked(events + [event], query)
  {
    var all := events + [event];
    if k :| 0 <= k < |events| && AsksAt(events, k, query) {
      assert AsksAt(all, k, query);
    }
    if event.Arrive? && QueryOf(event.request, query) && IsRequest(event.request) {
      assert AsksAt(all, |events|, query);
    }
  }

  lemma SentSound(question: Question, foreign: Foreign)
    ensures CaptureSound(SentBy(question, foreign), foreign)
  {
    hide PlanCapture.CaptureTrace, PlanCapture.OpenAfter, PlanCapture.Sends;
    PlanCapture.CapturesAreBracketed(question.query, foreign.validators.isSelect, question.world);
  }

  /** Which capture an event adds. */
  lemma SentStep(sys: System, event: Event, foreign: Foreign)
    ensures forall c :: c in Apply(sys, event, foreign).sent ==>
              c in sys.sent
              || (StepsAt(sys, event) && sys.threads[event.thread].QueryHolding?
                  && c == SentBy(sys.threads[event.thread].question, foreign))
  {
    hide Next, SentBy;
  }

  /** Where a request holding a query has it from. */
  lemma QueryStep(sys: System, event: Event, i: nat, query: string, foreign: Foreign)
    requires var after := Apply(sys, event, foreign);
      i < |after.threads| && QueryOf(after.threads[i], query)
    ensures (i < |sys.threads| && QueryOf(sys.threads[i], query))
         || (event.Arrive? && IsRequest(event.request) && QueryOf(event.request, query))
  {
    hide CaptureOf, SentBy, Analyse, Parseable, ReportFor, FixesFor;
  }

  /**
   * Whatever is interleaved, each capture stays inside a connection of its own
   * that it closes last, and the only statement it executes is the fixed one
   * of a query that was asked and that the validator lets through.
   */
  lemma {:induction false} OnlyValidatedQueriesRun(events: seq<Event>, foreign: Foreign)
    ensures HistorySound(events, Run(events, foreign), foreign)
  {
    hide Run, Apply, CaptureSound, Asked, QueryOf, SentBy;
    if events == [] {
      NothingSent(foreign);
    } else {
      var most, last := events[..|events| - 1], events[|events| - 1];
      var sys, after := Run(most, foreign), Run(events, foreign);
      assert events == most + [last];
      OnlyValidatedQueriesRun(most, foreign);
      RunExtends(most, last, foreign);
      forall i, query | 0 <= i < |after.threads| && QueryOf(after.threads[i], query) ensures Asked(events, query) {
        QueryStep(sys, last, i, query, foreign);
        AskedStays(most, last, query);
      }
      SentStep(sys, last, foreign);
      forall c | c in after.sent ensures CaptureSound(c, foreign) && Asked(events, c.query) {
        AskedStays(most, last, c.query);
        if c !in sys.sent {
          var t := sys.threads[last.thread];
          SentSound(t.question, foreign);
          SentNames(t.question, foreign);
          HoldsQuery(t);
        }
      }
    }
  }

  lemma SentNames(question: Question, foreign: Foreign)
    ensures SentBy(question, foreign).query == question.query
  {
  }

  lemma HoldsQuery(t: Thread)
    requires t.QueryHolding?
    ensures QueryOf(t, t.question.query)
  {
  }

  lemma NothingSent(foreign: Foreign)
    ensures Run([], foreign).sent == [] && Run([], foreign).threads == []
  {
  }
}
