/**
 Who gets a session's kernel messages (native/src/themisto/ws_relay.cpp, emitMessage() and
 emitKernelExit() in native/src/themisto/session_registry.cpp): each connection that opens takes the
 session's callbacks over, and one that closes gives them up only if they are still its own. Opening,
 closing and emitting are each one stretch under the session's callbackMutex; the `ready` push
 follows after it, so a message may come before it.
 */
module Relay {
  import opened Wrappers

  type Conn = nat

  /** What the session's poll thread reports. */
  datatype Report = Message(text: string) | KernelExit(reason: string)

  /** What a connection's outbox is given. */
  datatype Item = Relayed(report: Report) | Ready | RequestError(error: string)

  /** Opening has installed the callbacks but not yet pushed `ready`; then it serves; then it closes. */
  datatype Phase = Opening | Serving | Closed

  datatype Connection = Connection(phase: Phase, given: seq<Item>)

  datatype State = State(
    onMessage: Option<Conn>,
    callbackOwner: Option<Conn>,
    connections: map<Conn, Connection>)

  datatype Event =
    | Open(c: Conn)
    | Greet(c: Conn)
    | Refuse(c: Conn, error: string)
    | Close(c: Conn)
    | Emit(report: Report)

  const Start := State(None, None, map[])

  function Give(s: State, c: Conn, item: Item): State {
    if c !in s.connections then s
    else s.(connections := s.connections[c := s.connections[c].(given := s.connections[c].given + [item])])
  }

  function SetPhase(s: State, c: Conn, phase: Phase): State
    requires c in s.connections
  {
    s.(connections := s.connections[c := s.connections[c].(phase := phase)])
  }

  /** A connection opens once, then is greeted, and is refused requests or closed only after that. */
  predicate Possible(s: State, e: Event) {
    match e
    case Open(c) => c !in s.connections
    case Greet(c) => c in s.connections && s.connections[c].phase.Opening?
    case Refuse(c, _) => c in s.connections && s.connections[c].phase.Serving?
    case Close(c) => c in s.connections && s.connections[c].phase.Serving?
    case Emit(_) => true
  }

  function Step(s: State, e: Event): State
    requires Possible(s, e)
  {
    match e
    case Open(c) =>
      State(Some(c), Some(c), s.connections[c := Connection(Opening, [])])
    case Greet(c) => SetPhase(Give(s, c, Ready), c, Serving)
    case Refuse(c, error) => Give(s, c, RequestError(error))
    case Close(c) =>
      var closed := SetPhase(s, c, Closed);
      if s.callbackOwner == Some(c) then closed.(onMessage := None, callbackOwner := None) else closed
    case Emit(report) =>
      if s.onMessage.Some? then Give(s, s.onMessage.value, Relayed(report)) else s
  }

  ghost predicate Legal(events: seq<Event>)
    decreases |events|, 0
  {
    events == [] ||
    var init, e := events[..|events| - 1], events[|events| - 1];
    Legal(init) && Possible(After(init), e)
  }

  ghost function After(events: seq<Event>): State
    requires Legal(events)
    decreases |events|, 1
  {
    if events == [] then Start else Step(After(events[..|events| - 1]), events[|events| - 1])
  }

  // ----- what it should be, told from the events alone -----

  /** The connection opened most recently. */
  function Latest(events: seq<Event>): Option<Conn> {
    if events == [] then None
    else match events[|events| - 1]
      case Open(c) => Some(c)
      case _ => Latest(events[..|events| - 1])
  }

  /** It is owner while it is open. */
  predicate Owns(events: seq<Event>, c: Conn) {
    Latest(events) == Some(c) && Close(c) !in events
  }

  /** What was reported while `c` was the latest connection and open. */
  function ReportedTo(events: seq<Event>, c: Conn): seq<Report> {
    if events == [] then []
    else
      var init, e := events[..|events| - 1], events[|events| - 1];
      ReportedTo(init, c) + if e.Emit? && Owns(init, c) then [e.report] else []
  }

  function RelayedOnes(items: seq<Item>): seq<Report> {
    if items == [] then []
    else
      var item := items[|items| - 1];
      RelayedOnes(items[..|items| - 1]) + if item.Relayed? then [item.report] else []
  }

  lemma RelayedOneMore(items: seq<Item>, item: Item)
    ensures RelayedOnes(items + [item]) == RelayedOnes(items) + if item.Relayed? then [item.report] else []
  {
    assert (items + [item])[..|items|] == items;
  }

  // ----- and that it is -----

  ghost predicate KnowsEvents(events: seq<Event>)
    requires Legal(events)
  {
    var s := After(events);
    && (forall c :: Open(c) in events ==> c in s.connections)
    && (forall c :: c in s.connections && s.connections[c].phase.Closed? <==> Close(c) in events)
    && (Latest(events).Some? ==> Latest(events).value in s.connections)
    && s.onMessage == s.callbackOwner
    && s.callbackOwner == if Latest(events).Some? && Owns(events, Latest(events).value) then Latest(events) else None
  }

  lemma {:induction false} RunKnowsEvents(events: seq<Event>)
    requires Legal(events)
    ensures KnowsEvents(events)
  {
    if events != [] {
      var init, e := events[..|events| - 1], events[|events| - 1];
      RunKnowsEvents(init);
      assert events == init + [e];
      assert forall c :: Close(c) in events <==> Close(c) in init || e == Close(c);
      assert forall c :: Open(c) in events <==> Open(c) in init || e == Open(c);
    }
  }

  /** The callbacks belong to the connection opened last while it is open, and to nobody after. */
  lemma LatestOwnsWhileOpen(events: seq<Event>, c: Conn)
    requires Legal(events)
    ensures After(events).callbackOwner == Some(c) <==> Owns(events, c)
    ensures After(events).onMessage == After(events).callbackOwner
  {
    RunKnowsEvents(events);
  }

  /** The late close of an older connection takes nothing from the one that took over. */
  lemma LateCloseDetachesNobody(events: seq<Event>, old': Conn)
    requires Legal(events + [Close(old')]) && Legal(events) && Latest(events) != Some(old')
    ensures After(events + [Close(old')]).onMessage == After(events).onMessage
    ensures After(events + [Close(old')]).callbackOwner == After(events).callbackOwner
  {
    assert (events + [Close(old')])[..|events|] == events;
    RunKnowsEvents(events);
  }

  /** What one event adds to the reports in one outbox. */
  lemma StepAddsReports(s: State, e: Event, c: Conn)
    requires Possible(s, e) && c in s.connections
    ensures var s' := Step(s, e);
            && c in s'.connections
            && RelayedOnes(s'.connections[c].given)
                 == RelayedOnes(s.connections[c].given)
                    + if e.Emit? && s.onMessage == Some(c) then [e.report] else []
  {
    var given := s.connections[c].given;
    match e {
      case Emit(report) => RelayedOneMore(given, Relayed(report));
      case Greet(_) => RelayedOneMore(given, Ready);
      case Refuse(_, error) => RelayedOneMore(given, RequestError(error));
      case _ =>
    }
  }

  /** Each outbox is given, in order, exactly what was reported while its connection was owner. */
  lemma {:induction false} OutboxGetsItsReports(events: seq<Event>, c: Conn)
    requires Legal(events)
    ensures c in After(events).connections ==>
              RelayedOnes(After(events).connections[c].given) == ReportedTo(events, c)
    ensures c !in After(events).connections ==> ReportedTo(events, c) == []
  {
    if events != [] {
      var init, e := events[..|events| - 1], events[|events| - 1];
      OutboxGetsItsReports(init, c);
      LatestOwnsWhileOpen(init, c);
      RunKnowsEvents(init);
      if c in After(init).connections {
        StepAddsReports(After(init), e, c);
      }
    }
  }

  /** It is greeted once, and not again: `ready` is in its outbox exactly once opening is over. */
  lemma {:induction false} GreetedOnce(events: seq<Event>, c: Conn)
    requires Legal(events) && c in After(events).connections
    ensures multiset(After(events).connections[c].given)[Ready] ==
            if After(events).connections[c].phase.Opening? then 0 else 1
  {
    if events != [] {
      var init := events[..|events| - 1];
      if c in After(init).connections {
        GreetedOnce(init, c);
      }
    }
  }

  // ----- as the objects they are -----

  class Link {
    const id: Conn
    var phase: Phase
    var given: seq<Item>

    constructor (id: Conn)
      ensures this.id == id && phase == Opening && given == []
    {
      this.id, phase, given := id, Opening, [];
    }
  }

  /** The session's callbacks; the connections are those ever opened to it. */
  class Session {
    var onMessage: Option<Link>
    var callbackOwner: Option<Link>
    ghost var links: map<Conn, Link>
    ghost var events: seq<Event>

    static ghost function IdOf(link: Option<Link>): Option<Conn> {
      if link.Some? then Some(link.value.id) else None
    }

    ghost function Abs(): State
      reads this, links.Values
    {
      State(IdOf(onMessage), IdOf(callbackOwner), map c | c in links :: Connection(links[c].phase, links[c].given))
    }

    ghost predicate Valid()
      reads this, links.Values
    {
      && (forall c :: c in links ==> links[c].id == c)
      && (onMessage.Some? ==> onMessage.value.id in links && links[onMessage.value.id] == onMessage.value)
      && (callbackOwner.Some? ==>
            callbackOwner.value.id in links && links[callbackOwner.value.id] == callbackOwner.value)
      && Legal(events) && Abs() == After(events)
    }

    constructor ()
      ensures Valid() && events == [] && links == map[]
    {
      onMessage, callbackOwner, links, events := None, None, map[], [];
    }

    ghost method Record(e: Event)
      requires Legal(events) && Possible(After(events), e) && Abs() == Step(After(events), e)
      modifies this`events
      ensures Legal(events) && events == old(events) + [e] && Abs() == After(events)
    {
      assert (events + [e])[..|events|] == events;
      events := events + [e];
    }

    /** A connection opens: the callbacks become its own. */
    method Opened(id: Conn) returns (link: Link)
      requires Valid() && id !in links
      modifies this
      ensures Valid() && events == old(events) + [Open(id)]
      ensures fresh(link) && link.id == id && links == old(links)[id := link]
      ensures onMessage == callbackOwner == Some(link)
    {
      link := new Link(id);
      onMessage, callbackOwner := Some(link), Some(link);
      links := links[id := link];
      Record(Open(id));
    }

    method Greeted(link: Link)
      requires Valid() && link.id in links && links[link.id] == link && link.phase.Opening?
      modifies link, this`events
      ensures Valid() && events == old(events) + [Greet(link.id)]
      ensures link.given == old(link.given) + [Ready] && link.phase.Serving?
    {
      link.given, link.phase := link.given + [Ready], Serving;
      Record(Greet(link.id));
    }

    /** A report of the poll thread goes to whoever has the callbacks. */
    method EmitMessage(report: Report)
      requires Valid()
      modifies this`events, links.Values
      ensures Valid() && events == old(events) + [Emit(report)]
      ensures forall c :: c in links ==>
                links[c].given == old(links[c].given) + if IdOf(onMessage) == Some(c) then [Relayed(report)] else []
    {
      if onMessage.Some? {
        onMessage.value.given := onMessage.value.given + [Relayed(report)];
      }
      Record(Emit(report));
    }

    /** A connection closes: the callbacks go only if they are still its own. */
    method Closes(link: Link)
      requires Valid() && link.id in links && links[link.id] == link && link.phase.Serving?
      modifies this`onMessage, this`callbackOwner, this`events, link`phase
      ensures Valid() && events == old(events) + [Close(link.id)] && link.phase.Closed?
      ensures callbackOwner == if old(callbackOwner) == Some(link) then None else old(callbackOwner)
    {
      if callbackOwner == Some(link) {
        onMessage, callbackOwner := None, None;
      }
      link.phase := Closed;
      Record(Close(link.id));
    }
  }
}
