/** Live plan capture: the fixed statement, the walk over result sets and the connection's lifetime. */
module PlanCapture {
  import opened Wrappers
  import Sequences
  import Text

  datatype Cell = TextCell(text: string) | OtherValue

  /** One result set as the cursor shows it. */
  datatype ResultSet = NoColumns | FirstRow(row: Option<seq<Cell>>) | FetchError

  datatype Found = Showplan(xml: string) | NoShowplan | CursorError

  /** How the server and the driver answer one capture. */
  datatype World = World(
    connects: bool,
    opensCursor: bool,
    executes: bool,
    first: ResultSet,
    later: seq<ResultSet>,
    endsInError: bool,
    closes: bool)

  datatype Outcome =
    | Captured(xml: string)
    | Rejected
    | ConnectFailed
    | DriverError
    | QueryFailed
    | NoPlan

  const SHOWPLAN_START := "<ShowPlanXML"

  function ShowplanIn(s: ResultSet): Option<string> {
    if s.FirstRow? && s.row.Some? && |s.row.value| == 1 && s.row.value[0].TextCell?
       && SHOWPLAN_START <= Text.StripLeft(Text.IsSpace, s.row.value[0].text)
    then Some(s.row.value[0].text)
    else None
  }

  /** The result sets after execute, of which there is at least one. */
  function Sets(world: World): seq<ResultSet> {
    [world.first] + world.later
  }

  /** What is done to the server, as it happens; closing is asked for whether or not it then fails. */
  datatype Event =
    | Connected
    | CursorOpened
    | Executed(statement: string)
    | RowFetched
    | NextSetAsked
    | Closed

  class Server {
    var trace: seq<Event>

    constructor ()
      ensures trace == []
    {
      trace := [];
    }

    method Note(event: Event)
      modifies this
      ensures trace == old(trace) + [event]
    {
      trace := trace + [event];
    }
  }

  /** A pyodbc cursor after execute: it stands on one result set, with the later ones ahead. */
  class Cursor {
    const sets: seq<ResultSet>
    const endsInError: bool
    const server: Server
    var position: nat

    ghost predicate Valid()
      reads this
    {
      position < |sets|
    }

    constructor (sets: seq<ResultSet>, endsInError: bool, server: Server)
      requires sets != []
      ensures Valid() && position == 0
      ensures this.sets == sets && this.endsInError == endsInError && this.server == server
    {
      this.sets, this.endsInError, this.server, position := sets, endsInError, server, 0;
    }

    /** nextset(): Some(false) at the end, None when the driver raises instead. */
    method NextSet() returns (more: Option<bool>)
      requires Valid()
      modifies this, server
      ensures Valid() && server.trace == old(server.trace) + [NextSetAsked]
      ensures old(position) + 1 < |sets| ==> more == Some(true) && position == old(position) + 1
      ensures old(position) + 1 == |sets| ==>
        more == (if endsInError then None else Some(false)) && position == old(position)
    {
      server.Note(NextSetAsked);
      if position + 1 < |sets| {
        position := position + 1;
        more := Some(true);
      } else {
        more := if endsInError then None else Some(false);
      }
    }
  }

  /** Nothing before set k is a showplan or fails to be fetched. */
  ghost predicate PassedOver(sets: seq<ResultSet>, k: int)
    requires 0 <= k <= |sets|
  {
    forall j :: 0 <= j < k ==> ShowplanIn(sets[j]).None? && !sets[j].FetchError?
  }

  /** The rows fetched and sets asked for until the first showplan, error or end. */
  function Visits(sets: seq<ResultSet>): seq<Event> {
    if sets == [] then []
    else
      (if sets[0].NoColumns? then [] else [RowFetched])
      + (if sets[0].FetchError? || ShowplanIn(sets[0]).Some? then [] else [NextSetAsked] + Visits(sets[1..]))
  }

  /** Passing a set over: its row is fetched if it has columns, and the next set is asked for. */
  function PassingOver(sets: seq<ResultSet>): seq<Event> {
    if sets == [] then []
    else (if sets[0] == NoColumns then [NextSetAsked] else [RowFetched, NextSetAsked]) + PassingOver(sets[1..])
  }

  /** The walk passes over sets up to the first showplan or failing row, fetches that, and asks for nothing more. */
  lemma {:induction false} VisitsExactly(sets: seq<ResultSet>, k: nat)
    requires k <= |sets| && PassedOver(sets, k)
    requires k < |sets| ==> sets[k].FetchError? || ShowplanIn(sets[k]).Some?
    ensures Visits(sets) == PassingOver(sets[..k]) + (if k < |sets| then [RowFetched] else [])
    decreases k
  {
    if k > 0 {
      VisitsExactly(sets[1..], k - 1);
      PassingStep(sets, k);
      hide Visits, PassingOver, PassedOver, ShowplanIn;
      var first := if sets[0] == NoColumns then [NextSetAsked] else [RowFetched, NextSetAsked];
      Sequences.Associative(first, PassingOver(sets[1..][..k - 1]), if k < |sets| then [RowFetched] else []);
    } else if sets != [] {
      hide ShowplanIn;
      ShowplanHasColumns(sets[0]);
    }
  }

  lemma PassingStep(sets: seq<ResultSet>, k: nat)
    requires 0 < k <= |sets| && PassedOver(sets, k)
    ensures var first := if sets[0] == NoColumns then [NextSetAsked] else [RowFetched, NextSetAsked];
      PassingOver(sets[..k]) == first + PassingOver(sets[1..][..k - 1])
      && Visits(sets) == first + Visits(sets[1..])
  {
    hide ShowplanIn;
    assert sets[..k][1..] == sets[1..][..k - 1];
    hide PassingOver;
    var later := Visits(sets[1..]);
    assert ShowplanIn(sets[0]).None? && !sets[0].FetchError?;
    assert Visits(sets) == (if sets[0] == NoColumns then [] else [RowFetched]) + ([NextSetAsked] + later);
    hide Visits;
    assert [RowFetched] + ([NextSetAsked] + later) == [RowFetched, NextSetAsked] + later;
  }

  lemma ShowplanHasColumns(s: ResultSet)
    ensures ShowplanIn(s).Some? ==> s.FirstRow?
  {
  }

  lemma VisitsFrom(sets: seq<ResultSet>, k: nat)
    requires k < |sets|
    ensures Visits(sets[k..])
         == (if sets[k].NoColumns? then [] else [RowFetched])
            + (if sets[k].FetchError? || ShowplanIn(sets[k]).Some? then []
               else [NextSetAsked] + Visits(sets[k + 1..]))
    ensures sets[k].FetchError? ==> ShowplanIn(sets[k]).None?
    ensures k + 1 == |sets| ==> Visits(sets[k + 1..]) == []
  {
    assert sets[k..][1..] == sets[k + 1..];
  }

  /** What the walk over result sets comes to. */
  function FoundIn(sets: seq<ResultSet>, endsInError: bool): Found {
    if sets == [] then if endsInError then CursorError else NoShowplan
    else if sets[0].FetchError? then CursorError
    else if ShowplanIn(sets[0]).Some? then Showplan(ShowplanIn(sets[0]).value)
    else FoundIn(sets[1..], endsInError)
  }

  lemma FoundFrom(sets: seq<ResultSet>, endsInError: bool, k: nat)
    requires k < |sets|
    ensures FoundIn(sets[k..], endsInError)
         == if sets[k].FetchError? then CursorError
            else if ShowplanIn(sets[k]).Some? then Showplan(ShowplanIn(sets[k]).value)
            else FoundIn(sets[k + 1..], endsInError)
    ensures k + 1 == |sets| ==>
              FoundIn(sets[k + 1..], endsInError) == if endsInError then CursorError else NoShowplan
  {
    hide ShowplanIn;
    assert sets[k..][1..] == sets[k + 1..];
  }

  /** Returns the first showplan, and nothing only if no set has one; looks no further than it must. */
  method FindShowplanXml(cursor: Cursor) returns (found: Found)
    requires cursor.Valid() && cursor.position == 0
    modifies cursor, cursor.server
    ensures cursor.server.trace == old(cursor.server.trace) + Visits(cursor.sets)
    ensures found == FoundIn(cursor.sets, cursor.endsInError)
    ensures found.Showplan? <==>
              exists k :: 0 <= k < |cursor.sets| && PassedOver(cursor.sets, k) && ShowplanIn(cursor.sets[k]).Some?
    ensures found.Showplan? ==>
              exists k :: 0 <= k < |cursor.sets| && PassedOver(cursor.sets, k)
                && ShowplanIn(cursor.sets[k]) == Some(found.xml)
    ensures found.NoShowplan? <==> PassedOver(cursor.sets, |cursor.sets|) && !cursor.endsInError
  {
    hide Visits, ShowplanIn, FoundIn;
    assert cursor.sets[0..] == cursor.sets;
    while true
      invariant cursor.Valid() && PassedOver(cursor.sets, cursor.position)
      invariant cursor.server.trace + Visits(cursor.sets[cursor.position..])
             == old(cursor.server.trace) + Visits(cursor.sets)
      invariant FoundIn(cursor.sets[cursor.position..], cursor.endsInError)
             == FoundIn(cursor.sets, cursor.endsInError)
      decreases |cursor.sets| - cursor.position
    {
      var current := cursor.sets[cursor.position];
      VisitsFrom(cursor.sets, cursor.position);
      FoundFrom(cursor.sets, cursor.endsInError, cursor.position);
      if !current.NoColumns? { cursor.server.Note(RowFetched); }
      if current.FetchError? { return CursorError; }
      if ShowplanIn(current).Some? { return Showplan(ShowplanIn(current).value); }
      ghost var at := cursor.position;
      var more := cursor.NextSet();
      if more.None? { return CursorError; }
      if !more.value { return NoShowplan; }
      assert cursor.position == at + 1;
    }
  }

  /** The one statement template; the query is stripped and closed with a semicolon. */
  function StatementFor(query: string): string {
    var text := Text.Strip(query);
    var closed := if text != "" && text[|text| - 1] == ';' then text else text + ";";
    "SET STATISTICS XML ON; " + closed + " SET STATISTICS XML OFF;"
  }

  /** The statement sends the query, stripped and closed with one semicolon, between switching statistics on and off. */
  ghost predicate Sends(statement: string, query: string) {
    var q := Text.Strip(query);
    (q != "" && q[|q| - 1] == ';' ==> statement == "SET STATISTICS XML ON; " + q + " SET STATISTICS XML OFF;")
    && (q == "" || q[|q| - 1] != ';' ==>
          statement == "SET STATISTICS XML ON; " + (q + ";") + " SET STATISTICS XML OFF;")
  }

  lemma StatementSends(query: string)
    ensures Sends(StatementFor(query), query)
  {
    hide Text.Strip;
  }

  /** A result set is a showplan iff it is one row of one text that, after leading space, begins as one does. */
  lemma ShowplanMeaning(s: ResultSet, xml: string)
    ensures ShowplanIn(s) == Some(xml)
       <==> s == FirstRow(Some([TextCell(xml)])) && "<ShowPlanXML" <= Text.StripLeft(Text.IsSpace, xml)
  {
    hide Text.StripLeft;
    if ShowplanIn(s) == Some(xml) {
      assert s.row.value == [TextCell(xml)];
    }
  }

  /** Everything one capture does to the server. */
  function CaptureTrace(query: string, validator: string -> bool, world: World): seq<Event> {
    if !validator(query) || !world.connects then []
    else if !world.opensCursor then [Connected, Closed]
    else
      [Connected, CursorOpened, Executed(StatementFor(query))]
      + (if world.executes then Visits(Sets(world)) else [])
      + [Closed]
  }

  /** How one capture ends; an error on closing takes the place of any other end. */
  function CaptureOutcome(query: string, validator: string -> bool, world: World): Outcome {
    if !validator(query) then Rejected
    else if !world.connects then ConnectFailed
    else if !world.opensCursor || !world.closes then DriverError
    else if !world.executes then QueryFailed
    else
      match FoundIn(Sets(world), world.endsInError)
      case Showplan(xml) => Captured(xml)
      case NoShowplan => NoPlan
      case CursorError => QueryFailed
  }

  function AfterEvent(open: Option<bool>, event: Event): Option<bool> {
    match event
    case Connected => if open == Some(false) then Some(true) else None
    case Closed => if open == Some(true) then Some(false) else None
    case _ => if open == Some(true) then open else None
  }

  /** Whether a connection is open after the trace; None once anything happens outside a connection's lifetime. */
  function OpenAfter(open: Option<bool>, trace: seq<Event>): Option<bool> {
    if trace == [] then open
    else AfterEvent(OpenAfter(open, trace[..|trace| - 1]), trace[|trace| - 1])
  }

  lemma OpenAfterOne(open: Option<bool>, trace: seq<Event>, event: Event)
    ensures OpenAfter(open, trace + [event]) == AfterEvent(OpenAfter(open, trace), event)
  {
    assert (trace + [event])[..|trace|] == trace;
  }

  lemma {:induction false} OpenAfterAppend(open: Option<bool>, a: seq<Event>, b: seq<Event>)
    ensures OpenAfter(open, a + b) == OpenAfter(OpenAfter(open, a), b)
  {
    hide AfterEvent;
    if b == [] {
      assert a + b == a;
    } else {
      assert a + b == (a + b[..|b| - 1]) + [b[|b| - 1]];
      OpenAfterOne(open, a + b[..|b| - 1], b[|b| - 1]);
      OpenAfterAppend(open, a, b[..|b| - 1]);
    }
  }

  lemma {:induction false} VisitsStayInside(visits: seq<Event>)
    requires forall e :: e in visits ==> e.RowFetched? || e.NextSetAsked?
    ensures OpenAfter(Some(true), visits) == Some(true)
  {
    if visits != [] {
      var most, last := visits[..|visits| - 1], visits[|visits| - 1];
      assert visits == most + [last] && last in visits;
      VisitsStayInside(most);
      OpenAfterOne(Some(true), most, last);
    }
  }

  lemma {:induction false} VisitsExecuteNothing(sets: seq<ResultSet>)
    ensures forall e :: e in Visits(sets) ==> e.RowFetched? || e.NextSetAsked?
  {
    if sets != [] {
      VisitsExecuteNothing(sets[1..]);
    }
  }

  lemma OpeningOpens(statement: string)
    ensures OpenAfter(Some(false), [Connected, CursorOpened, Executed(statement)]) == Some(true)
    ensures OpenAfter(Some(false), [Connected, Closed]) == Some(false)
  {
    NothingHappens(Some(false));
    hide OpenAfter;
    var connected := [] + [Connected];
    OpenAfterOne(Some(false), [], Connected);
    OpenAfterOne(Some(false), connected, Closed);
    OpenAfterOne(Some(false), connected, CursorOpened);
    OpenAfterOne(Some(false), connected + [CursorOpened], Executed(statement));
    assert connected + [Closed] == [Connected, Closed];
    assert connected + [CursorOpened] + [Executed(statement)] == [Connected, CursorOpened, Executed(statement)];
  }

  /** Nothing happened, or a connection was opened first, closed last, and neither in between. */
  ghost predicate OneConnection(trace: seq<Event>) {
    trace == []
    || (|trace| >= 2 && trace[0] == Connected && trace[|trace| - 1] == Closed
        && forall i :: 0 < i < |trace| - 1 ==> trace[i] != Connected && trace[i] != Closed)
  }

  /** At most one statement is executed. */
  ghost predicate ExecutesOnce(trace: seq<Event>) {
    forall i, j :: 0 <= i < j < |trace| && trace[i].Executed? ==> !trace[j].Executed?
  }

  lemma TraceShape(query: string, validator: string -> bool, world: World)
    ensures var trace := CaptureTrace(query, validator, world);
      OneConnection(trace) && ExecutesOnce(trace) && (trace == [] <==> !validator(query) || !world.connects)
  {
    hide Visits, StatementFor;
    VisitsExecuteNothing(Sets(world));
    if validator(query) && world.connects && world.opensCursor {
      var visits := if world.executes then Visits(Sets(world)) else [];
      var trace := CaptureTrace(query, validator, world);
      assert trace == [Connected, CursorOpened, Executed(StatementFor(query))] + visits + [Closed];
      assert forall i :: 3 <= i < |trace| - 1 ==> trace[i] == visits[i - 3] && trace[i] in visits;
    }
  }

  /**
   * A capture opens one connection if the query validates and the server lets
   * it, does everything inside it and closes it last. It executes one
   * statement, the query's, once connection and cursor are there, and no other.
   */
  lemma CapturesAreBracketed(query: string, validator: string -> bool, world: World)
    ensures var trace := CaptureTrace(query, validator, world);
      OneConnection(trace) && ExecutesOnce(trace) && (trace == [] <==> !validator(query) || !world.connects)
    ensures OpenAfter(Some(false), CaptureTrace(query, validator, world)) == Some(false)
    ensures forall e :: e in CaptureTrace(query, validator, world) && e.Executed? ==>
              validator(query) && Sends(e.statement, query)
    ensures (exists e :: e in CaptureTrace(query, validator, world) && e.Executed?)
       <==> validator(query) && world.connects && world.opensCursor
  {
    hide Visits, StatementFor, OpenAfter, Sends, OneConnection, ExecutesOnce;
    TraceShape(query, validator, world);
    StatementSends(query);
    OpeningOpens(StatementFor(query));
    VisitsExecuteNothing(Sets(world));
    if !validator(query) || !world.connects {
      NothingHappens(Some(false));
    } else if world.opensCursor {
      var opening := [Connected, CursorOpened, Executed(StatementFor(query))];
      var visits := if world.executes then Visits(Sets(world)) else [];
      assert CaptureTrace(query, validator, world)[2] == Executed(StatementFor(query));
      OpenAfterAppend(Some(false), opening, visits);
      VisitsStayInside(visits);
      OpenAfterOne(Some(false), opening + visits, Closed);
    }
  }

  lemma NothingHappens(open: Option<bool>)
    ensures OpenAfter(open, []) == open
  {
  }

  /**
   * The server sees exactly the capture's trace, so if everything before stayed
   * inside the lifetime of its connection, it still does; only the fixed
   * statement of a query that validated is executed.
   */
  method CapturePlanXml(query: string, validator: string -> bool, world: World, server: Server)
    returns (outcome: Outcome)
    modifies server
    ensures server.trace == old(server.trace) + CaptureTrace(query, validator, world)
    ensures OpenAfter(Some(false), old(server.trace)) == Some(false) ==>
              OpenAfter(Some(false), server.trace) == Some(false)
    ensures outcome == CaptureOutcome(query, validator, world)
    ensures outcome.Rejected? <==> !validator(query)
    ensures outcome.ConnectFailed? <==> validator(query) && !world.connects
    ensures outcome.DriverError? <==> validator(query) && world.connects && !(world.opensCursor && world.closes)
    ensures outcome.Captured? <==>
              validator(query) && world.connects && world.opensCursor && world.executes && world.closes
              && exists k :: 0 <= k < |Sets(world)| && PassedOver(Sets(world), k) && ShowplanIn(Sets(world)[k]).Some?
    ensures outcome.Captured? ==>
              exists k :: 0 <= k < |Sets(world)| && PassedOver(Sets(world), k)
                && ShowplanIn(Sets(world)[k]) == Some(outcome.xml)
    ensures outcome.NoPlan? <==>
              validator(query) && world.connects && world.opensCursor && world.executes && world.closes
              && PassedOver(Sets(world), |Sets(world)|) && !world.endsInError
  {
    hide Visits, StatementFor, Sends, OpenAfter, ShowplanIn, PassedOver, FoundIn, OneConnection, ExecutesOnce;
    ghost var before := server.trace;
    CapturesAreBracketed(query, validator, world);
    OpenAfterAppend(Some(false), before, CaptureTrace(query, validator, world));
    if !validator(query) { return Rejected; }
    var statement := StatementFor(query);
    if !world.connects { return ConnectFailed; }
    server.Note(Connected);
    if !world.opensCursor {
      server.Note(Closed);
      return DriverError;
    }
    server.Note(CursorOpened);
    server.Note(Executed(statement));
    var found := CursorError;
    if world.executes {
      var cursor := new Cursor([world.first] + world.later, world.endsInError, server);
      found := FindShowplanXml(cursor);
    }
    server.Note(Closed);
    assert server.trace == before + CaptureTrace(query, validator, world);
    if !world.closes { return DriverError; }
    match found {
      case Showplan(xml) => outcome := Captured(xml);
      case NoShowplan => outcome := NoPlan;
      case CursorError => outcome := QueryFailed;
    }
  }
}
