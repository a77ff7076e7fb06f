/**
 What one event does after any run, stated outright: whom it settles and how, what it leaves queued, whom
 it hands over and who stays in flight. It is read off the state before the event and what arrived; nothing
 here follows the steps the code takes.
 */
module ExecutionQueueSettlements {
  import opened Wrappers
  import opened ExecutionQueueSpec
  import opened ExecutionQueueMoves
  import opened ExecutionQueueInvariants
  import opened ExecutionQueueTruth
  import opened ExecutionQueueTheorems
  import opened ExecutionQueueWaits

  // ----- what an event is for -----

  function RepliedAs(p: Pending, reply: ReplyMessage): Outcome {
    var status := reply.kind.status;
    var stated := if status == Unstated then None else Some(status);
    Resolved(Result(status == Ok, stated, status == Aborted, p.output), ByReply(reply))
  }

  /** How a message ends its execution, if it does. */
  function MessageEndsAs(p: Pending, msg: Message): Option<Outcome> {
    match msg.kind
    case ErrorReport => Some(Resolved(Result(false, Some(Failed), false, p.output + [msg]), ByError(msg)))
    case ExecuteReply(status) => if p.idle || status == Aborted then Some(RepliedAs(p, msg)) else None
    case Status(idle) => if idle && p.wait.Some? then Some(RepliedAs(p, p.wait.value.reply)) else None
    case _ => None
  }

  /** How the event ends the in-flight execution `m`, if it does. */
  function EndsAs(c: Config, s: State, e: Event, m: MsgId): Option<Outcome> {
    if m !in s.pending || !Enabled(s, e) then None
    else
      match e
      case Hears(msg) => if msg.parent == m then MessageEndsAs(s.pending[m], msg) else None
      case TimesOut(n) =>
        if n == m then Some(Rejected(TimedOut(s.pending[m].item.request.interruptOnTimeout && c.interrupts))) else None
      case IdleTimerElapses(k) =>
        if s.idleTimers[k].msgId == m then Some(RepliedAs(s.pending[m], s.idleTimers[k].reply)) else None
      case Clears => Some(Rejected(Cleared))
      case _ => None
  }

  ghost predicate TakesQueueDown(c: Config, s: State, e: Event) {
    exists m :: FailsNow(c, s, e, m) && s.pending[m].item.request.stopOnError
  }

  predicate Fits(c: Config, s: State, e: Event) {
    e.Submits? && Enabled(s, e) && |s.queue| < c.maxSize
  }

  /** What is queued, with what the event adds to it. */
  function Waiting(c: Config, s: State, e: Event): seq<Item> {
    if Fits(c, s, e) then s.queue + [Item(s.h.submitted, e.request)] else s.queue
  }

  /** Whether the event makes the queue go on. */
  ghost predicate GoesOn(c: Config, s: State, e: Event) {
    Enabled(s, e)
    && match e
       case Submits(_) => |s.queue| < c.maxSize && !s.executing
       case Resumes(_) => true
       case Hears(_) => exists m :: EndsAs(c, s, e, m).Some?
       case IdleTimerElapses(_) => exists m :: EndsAs(c, s, e, m).Some?
       case _ => false
  }

  /** How many items are handed over: those the addon refuses and the first it takes. */
  ghost function HandedNow(c: Config, s: State, e: Event): nat {
    var queue := Waiting(c, s, e);
    if !GoesOn(c, s, e) then 0
    else if FirstSendable(queue) < |queue| then FirstSendable(queue) + 1 else |queue|
  }

  /** The addon is offered the item, before it takes one, and refuses. */
  ghost predicate Refused(queue: seq<Item>, id: nat, o: Outcome) {
    exists i :: 0 <= i < FirstSendable(queue) && RefusedAt(queue[i], id, o)
  }

  predicate RefusedAt(item: Item, id: nat, o: Outcome) {
    item.id == id && o == Rejected(if item.request.answer == Throws then AddonThrew else NoMessageId)
  }

  ghost predicate EndsInFlight(c: Config, s: State, e: Event, id: nat, o: Outcome) {
    exists m :: EndsAs(c, s, e, m) == Some(o) && s.pending[m].item.id == id
  }

  /** What is settled before the queue goes on. */
  ghost predicate SettlesFirst(c: Config, s: State, e: Event, id: nat, o: Outcome) {
    || EndsInFlight(c, s, e, id, o)
    || (id in IdsOf(s.queue) && TakesQueueDown(c, s, e)
        && o == Resolved(Result(false, Some(Aborted), true, []), ByAbort))
    || (id in IdsOf(s.queue) && e == Clears && o == Rejected(Cleared))
    || (e.Submits? && Enabled(s, e) && |s.queue| >= c.maxSize && id == s.h.submitted && o == Rejected(QueueFull))
  }

  /** The event settles submission `id` with `o`. */
  ghost predicate Settles(c: Config, s: State, e: Event, id: nat, o: Outcome) {
    || SettlesFirst(c, s, e, id, o)
    || (GoesOn(c, s, e) && !TakesQueueDown(c, s, e) && Refused(Waiting(c, s, e), id, o))
  }

  /** The timed-out executions whose interrupt is unanswered after the event. */
  function Resuming(s: State, e: Event): set<MsgId> {
    if e.TimesOut? && Enabled(s, e) then s.resuming + {e.msgId}
    else if e.Resumes? then s.resuming - {e.msgId}
    else s.resuming
  }

  predicate SettledWith(h: History, id: nat, o: Outcome) {
    id in h.settled && h.settled[id] != [] && h.settled[id][0].outcome == o
  }

  // ----- going on -----

  lemma RefusedOneEarlier(queue: seq<Item>, id: nat, o: Outcome)
    requires queue != [] && !queue[0].request.answer.Id?
    ensures Refused(queue, id, o) <==> RefusedAt(queue[0], id, o) || Refused(queue[1..], id, o)
  {
    assert forall i :: 0 <= i < FirstSendable(queue[1..]) ==> queue[1..][i] == queue[i + 1];
    assert RefusedAt(queue[0], id, o) ==> Refused(queue, id, o);
    if Refused(queue, id, o) && !RefusedAt(queue[0], id, o) {
      var i :| 0 <= i < FirstSendable(queue) && RefusedAt(queue[i], id, o);
      assert queue[1..][i - 1] == queue[i];
    }
  }

  lemma RefusedIsQueued(queue: seq<Item>, id: nat, o: Outcome)
    requires Refused(queue, id, o)
    ensures exists i :: 0 <= i < |queue| && queue[i].id == id
  {
  }

  /** `t` settles what the addon refuses of `s`'s queue, and nobody again. */
  ghost predicate SettlesRefused(s: State, t: State, id: nat, o: Outcome) {
    if id in s.h.settled then id in t.h.settled && t.h.settled[id] == s.h.settled[id]
    else SettledWith(t.h, id, o) <==> Refused(s.queue, id, o)
  }

  ghost predicate Unsettled(s: State) {
    Increasing(s.queue) && forall i :: 0 <= i < |s.queue| ==> s.queue[i].id !in s.h.settled
  }

  /** One refusal first. */
  lemma RefusedFirst(s: State, u: State, t: State, id: nat, o: Outcome)
    requires Unsettled(s) && s.queue != [] && !s.queue[0].request.answer.Id? && u.queue == s.queue[1..]
    requires s.queue[0].id in u.h.settled && u.h.settled[s.queue[0].id] != []
    requires u.h.settled == s.h.settled[s.queue[0].id := u.h.settled[s.queue[0].id]]
    requires RefusedAt(s.queue[0], s.queue[0].id, u.h.settled[s.queue[0].id][0].outcome)
    requires SettlesRefused(u, t, id, o)
    ensures SettlesRefused(s, t, id, o)
  {
    RefusedOneEarlier(s.queue, id, o);
    if Refused(s.queue[1..], id, o) {
      RefusedIsQueued(s.queue[1..], id, o);
    }
  }

  /** Whom processNext() settles, and how: those the addon refuses before it takes one. */
  lemma {:induction false} ProcessNextSettles(s: State, id: nat, o: Outcome)
    requires Unsettled(s)
    ensures SettlesRefused(s, ProcessNext(s), id, o)
    decreases |s.queue|
  {
    if s.queue != [] && !s.queue[0].request.answer.Id? {
      var u := HandOverFirst(s);
      ProcessNextSettles(u, id, o);
      RefusedFirst(s, u, ProcessNext(u), id, o);
    }
  }

  // ----- up to there -----

  /** `u` is the state before the queue goes on. */
  ghost predicate Halfway(c: Config, s: State, e: Event, u: State) {
    && u.queue == (if TakesQueueDown(c, s, e) || e == Clears then [] else Waiting(c, s, e))
    && u.h.handed == s.h.handed && u.executing == (s.executing && e != Clears)
    && u.resuming == Resuming(s, e)
    && (forall id :: id in u.h.settled && id !in s.h.settled ==> u.h.settled[id] != [])
    && (forall m :: m in u.pending <==> m in s.pending && EndsAs(c, s, e, m).None?)
    && (forall id, o :: id !in s.h.settled ==> (SettledWith(u.h, id, o) <==> SettlesFirst(c, s, e, id, o)))
  }

  /** Who is settled when an execution lands, the queue being aborted or not. */
  lemma LandSettles(n: State, abort: bool, m: MsgId, o: Outcome, id: nat, x: Outcome)
    requires m in n.pending && n.pending[m].item.id !in n.h.settled && n.pending[m].item.id !in IdsOf(n.queue)
    requires id !in n.h.settled
    ensures SettledWith(Land(AbortIf(n, abort), m, o).h, id, x)
       <==> (id == n.pending[m].item.id && x == o)
            || (abort && id in IdsOf(n.queue) && x == Resolved(AbortedResult, ByAbort))
  {
  }

  lemma OneEndsInFlight(c: Config, s: State, e: Event, m: MsgId, o: Outcome, id: nat, x: Outcome)
    requires m in s.pending && EndsAs(c, s, e, m) == Some(o)
    requires forall k :: k in s.pending && k != m ==> EndsAs(c, s, e, k).None?
    ensures EndsInFlight(c, s, e, id, x) <==> id == s.pending[m].item.id && x == o
  {
  }

  /** The execution lands, and nothing else ends. */
  lemma LandsHalfway(c: Config, s: State, e: Event, n: State, m: MsgId, o: Outcome)
    requires Conserved(s) && !e.Submits? && e != Clears
    requires n.queue == s.queue && n.h.handed == s.h.handed && n.h.settled == s.h.settled
    requires n.executing == s.executing && n.resuming == Resuming(s, e)
    requires n.pending.Keys == s.pending.Keys && m in s.pending && n.pending[m].item == s.pending[m].item
    requires EndsAs(c, s, e, m) == Some(o) && forall k :: k in s.pending && k != m ==> EndsAs(c, s, e, k).None?
    ensures Halfway(c, s, e, Land(AbortIf(n, TakesQueueDown(c, s, e)), m, o))
  {
    var abort := TakesQueueDown(c, s, e);
    var u := Land(AbortIf(n, abort), m, o);
    assert s.pending[m].item.id in IdsInFlight(s.pending);
    forall id, x | id !in s.h.settled ensures SettledWith(u.h, id, x) <==> SettlesFirst(c, s, e, id, x) {
      LandSettles(n, abort, m, o, id, x);
      OneEndsInFlight(c, s, e, m, o, id, x);
    }
  }

  lemma LandsByReply(c: Config, s: State, e: Event, n: State, m: MsgId, reply: ReplyMessage) returns (u: State)
    requires Conserved(s) && (e.Hears? || e.IdleTimerElapses?) && Enabled(s, e)
    requires n.queue == s.queue && n.h.handed == s.h.handed && n.h.settled == s.h.settled
    requires n.executing == s.executing && n.resuming == Resuming(s, e)
    requires n.pending.Keys == s.pending.Keys && m in s.pending && n.pending[m].item == s.pending[m].item
    requires n.pending[m].output == s.pending[m].output
    requires EndsAs(c, s, e, m) == Some(RepliedAs(s.pending[m], reply))
    requires forall k :: k in s.pending && k != m ==> EndsAs(c, s, e, k).None?
    requires TakesQueueDown(c, s, e) <==> s.pending[m].item.request.stopOnError && reply.kind.status != Ok
    ensures Halfway(c, s, e, u) && FinishByReply(n, m, reply) == ProcessNext(u)
  {
    var a := AbortIf(n, TakesQueueDown(c, s, e));
    u := Land(a, m, RepliedAs(s.pending[m], reply));
    LandsHalfway(c, s, e, n, m, RepliedAs(s.pending[m], reply));
  }

  lemma HalfwayToo(c: Config, s: State, e: Event, u: State, v: State)
    requires Halfway(c, s, e, u)
    requires v.queue == u.queue && v.h.handed == u.h.handed && v.h.settled == u.h.settled
    requires v.executing == u.executing && v.resuming == u.resuming
    requires v.pending.Keys == u.pending.Keys
    ensures Halfway(c, s, e, v)
  {
  }

  lemma NothingEnds(c: Config, s: State, e: Event, u: State)
    requires e != Clears && (e.Submits? && Enabled(s, e) ==> |s.queue| < c.maxSize)
    requires forall m :: EndsAs(c, s, e, m).None?
    requires u.queue == Waiting(c, s, e) && u.h.handed == s.h.handed && u.h.settled == s.h.settled
    requires u.executing == s.executing && u.resuming == Resuming(s, e)
    requires u.pending.Keys == s.pending.Keys
    ensures Halfway(c, s, e, u)
  {
    assert forall m :: FailsNow(c, s, e, m) ==> EndsAs(c, s, e, m).Some?;
    assert forall id, o :: !EndsInFlight(c, s, e, id, o);
  }

  // ----- every event -----

  /** The state before the queue goes on, and that it is where the queue went on from. */
  ghost predicate From(c: Config, s: State, e: Event, u: State) {
    Halfway(c, s, e, u) && Step(c, s, e) == if GoesOn(c, s, e) then ProcessNext(u) else u
  }

  /** What a message leaves as it was. */
  lemma NoteKeeps(c: Config, s: State, msg: Message)
    requires msg.parent in s.pending
    ensures var n := Note(c, s, msg);
            && n.queue == s.queue && n.executing == s.executing && n.resuming == s.resuming
            && n.h.handed == s.h.handed && n.h.settled == s.h.settled
            && n.pending.Keys == s.pending.Keys
            && n.pending[msg.parent].item == s.pending[msg.parent].item
            && n.pending[msg.parent].output == s.pending[msg.parent].output + if IsOutput(msg.kind) then [msg] else []
  {
    NoteChanges(c, s, msg);
    NoteIs(c, s, msg);
    NotedFields(s.pending[msg.parent], msg, s.h.replies);
  }

  lemma ReplyTakesQueueDown(c: Config, s: State, msg: Message, reply: ReplyMessage)
    requires Ends(s, msg) && !msg.kind.ErrorReport?
    requires reply == if msg.kind.ExecuteReply? then msg else s.pending[msg.parent].wait.value.reply
    ensures TakesQueueDown(c, s, Hears(msg))
       <==> s.pending[msg.parent].item.request.stopOnError && reply.kind.status != Ok
  {
    assert FailsNow(c, s, Hears(msg), msg.parent) <==> reply.kind.status != Ok;
  }

  lemma HearsReplyFrom(c: Config, s: State, msg: Message, m: MsgId, n: State, reply: ReplyMessage) returns (u: State)
    requires Inv(c, s) && msg.parent == m && Ends(s, msg) && !msg.kind.ErrorReport?
    requires reply == if msg.kind.ExecuteReply? then msg else s.pending[m].wait.value.reply
    requires n == Note(c, s, msg).(idleTimers := n.idleTimers) && m in n.pending
    requires HandleMessage(c, s, msg) == FinishByReply(n, m, reply)
    ensures From(c, s, Hears(msg), u)
  {
    var e := Hears(msg);
    NoteKeeps(c, s, msg);
    assert EndsAs(c, s, e, m) == Some(RepliedAs(s.pending[m], reply));
    ReplyTakesQueueDown(c, s, msg, reply);
    u := LandsByReply(c, s, e, n, m, reply);
  }

  lemma HearsErrorFrom(c: Config, s: State, msg: Message) returns (u: State)
    requires Inv(c, s) && Ends(s, msg) && msg.kind.ErrorReport?
    ensures From(c, s, Hears(msg), u)
  {
    var e, m, n := Hears(msg), msg.parent, Note(c, s, msg);
    NoteKeeps(c, s, msg);
    assert EndsAs(c, s, e, m) == Some(ErrorOutcome(n, m, msg));
    assert TakesQueueDown(c, s, e) <==> s.pending[m].item.request.stopOnError by {
      assert FailsNow(c, s, e, m);
    }
    LandsHalfway(c, s, e, n, m, ErrorOutcome(n, m, msg));
    u := Land(AbortIf(n, TakesQueueDown(c, s, e)), m, ErrorOutcome(n, m, msg));
  }

  lemma HearsIdleFrom(c: Config, s: State, msg: Message) returns (u: State)
    requires Inv(c, s) && Ends(s, msg) && msg.kind.Status?
    ensures From(c, s, Hears(msg), u)
  {
    var m, n, w := msg.parent, Note(c, s, msg), s.pending[msg.parent].wait.value;
    assert HandleMessage(c, s, msg) == FinishByReply(n.(idleTimers := n.idleTimers - {w.serial}), m, w.reply);
    u := HearsReplyFrom(c, s, msg, m, n.(idleTimers := n.idleTimers - {w.serial}), w.reply);
  }

  lemma HearsNothingFrom(c: Config, s: State, msg: Message)
    requires Inv(c, s) && !Ends(s, msg) && HandleMessage(c, s, msg) == Note(c, s, msg)
    ensures From(c, s, Hears(msg), Note(c, s, msg))
  {
    NoteChanges(c, s, msg);
    NothingEnds(c, s, Hears(msg), Note(c, s, msg));
  }

  lemma HearsFrom(c: Config, s: State, msg: Message) returns (u: State)
    requires Inv(c, s) && Tidy(c, s)
    ensures From(c, s, Hears(msg), u)
  {
    if Ends(s, msg) {
      match msg.kind
      case Status(_) => u := HearsIdleFrom(c, s, msg);
      case ExecuteReply(_) =>
        assert HandleMessage(c, s, msg) == FinishByReply(Note(c, s, msg), msg.parent, msg);
        u := HearsReplyFrom(c, s, msg, msg.parent, Note(c, s, msg), msg);
      case ErrorReport => u := HearsErrorFrom(c, s, msg);
    } else {
      u := Note(c, s, msg);
      HearsNothingFrom(c, s, msg);
    }
  }

  lemma IdleTimerFrom(c: Config, s: State, k: nat) returns (u: State)
    requires Inv(c, s) && IdleTimerDue(s, k)
    ensures From(c, s, IdleTimerElapses(k), u)
  {
    var e, m, n := IdleTimerElapses(k), s.idleTimers[k].msgId, s.(idleTimers := s.idleTimers - {k});
    if m in s.pending {
      var reply := s.idleTimers[k].reply;
      assert TakesQueueDown(c, s, e) <==> s.pending[m].item.request.stopOnError && reply.kind.status != Ok by {
        assert FailsNow(c, s, e, m) <==> reply.kind.status != Ok;
      }
      u := LandsByReply(c, s, e, n, m, reply);
      assert EndsAs(c, s, e, m).Some?;
    } else {
      NothingEnds(c, s, e, n);
      u := n;
    }
  }

  lemma TimeoutFrom(c: Config, s: State, m: MsgId)
    requires Inv(c, s) && TimerArmed(s, m)
    ensures From(c, s, TimesOut(m), TimeOut(c, s, m))
  {
    var e, u := TimesOut(m), TimeOut(c, s, m);
    var o := Rejected(TimedOut(s.pending[m].item.request.interruptOnTimeout && c.interrupts));
    assert !TakesQueueDown(c, s, e);
    var n := s.(resuming := s.resuming + {m});
    LandsHalfway(c, s, e, n, m, o);
    var v := Land(n, m, o);
    assert Halfway(c, s, e, v);
    HalfwayToo(c, s, e, v, u);
  }

  lemma ClearSettles(s: State, id: nat, o: Outcome)
    requires id !in s.h.settled && IdsOf(s.queue) !! IdsInFlight(s.pending)
    ensures SettledWith(Clear(s).h, id, o)
       <==> o == Rejected(Cleared) && (id in IdsOf(s.queue) || id in IdsInFlight(s.pending))
  {
  }

  lemma ClearHalfway(c: Config, s: State, u: State)
    requires u.queue == [] && u.pending == map[] && !u.executing && u.resuming == s.resuming
    requires u.h.handed == s.h.handed
    requires forall id :: id in u.h.settled && id !in s.h.settled ==> u.h.settled[id] != []
    requires forall id, o :: id !in s.h.settled ==> (SettledWith(u.h, id, o) <==> SettlesFirst(c, s, Clears, id, o))
    ensures Halfway(c, s, Clears, u)
  {
    forall m ensures m in s.pending ==> EndsAs(c, s, Clears, m).Some? {
    }
  }

  lemma ClearSettlesFirst(c: Config, s: State, id: nat, o: Outcome)
    requires id !in s.h.settled && IdsOf(s.queue) !! IdsInFlight(s.pending)
    ensures SettledWith(Clear(s).h, id, o) <==> SettlesFirst(c, s, Clears, id, o)
  {
    assert !TakesQueueDown(c, s, Clears);
    ClearSettles(s, id, o);
    ClearEndsInFlight(c, s, id, o);
  }

  lemma ClearFrom(c: Config, s: State)
    requires Inv(c, s)
    ensures From(c, s, Clears, Clear(s))
  {
    forall id, o | id !in s.h.settled ensures SettledWith(Clear(s).h, id, o) <==> SettlesFirst(c, s, Clears, id, o) {
      ClearSettlesFirst(c, s, id, o);
    }
    ClearHalfway(c, s, Clear(s));
  }

  lemma ClearEndsInFlight(c: Config, s: State, id: nat, o: Outcome)
    ensures EndsInFlight(c, s, Clears, id, o) <==> id in IdsInFlight(s.pending) && o == Rejected(Cleared)
  {
    if id in IdsInFlight(s.pending) {
      var m :| m in s.pending && s.pending[m].item.id == id;
      assert EndsAs(c, s, Clears, m) == Some(Rejected(Cleared));
    }
  }

  lemma FullFrom(c: Config, s: State, r: Request)
    requires Inv(c, s) && Enabled(s, Submits(r)) && |s.queue| >= c.maxSize
    ensures From(c, s, Submits(r), Submit(c, s, r))
  {
    var e, u := Submits(r), Submit(c, s, r);
    assert !TakesQueueDown(c, s, e);
    forall id, o | id !in s.h.settled ensures SettledWith(u.h, id, o) <==> SettlesFirst(c, s, e, id, o) {
      assert !EndsInFlight(c, s, e, id, o);
    }
  }

  lemma EventFrom(c: Config, s: State, e: Event) returns (u: State)
    requires Inv(c, s) && Tidy(c, s)
    ensures From(c, s, e, u)
  {
    u := Step(c, s, e);
    match e
    case Submits(r) =>
      if Fits(c, s, e) {
        u := Count(s, r).(queue := s.queue + [Item(s.h.submitted, r)]);
        NothingEnds(c, s, e, u);
      } else if Enabled(s, e) {
        FullFrom(c, s, r);
      } else {
        NothingEnds(c, s, e, u);
      }
    case Hears(msg) => u := HearsFrom(c, s, msg);
    case TimesOut(m) =>
      if Enabled(s, e) {
        TimeoutFrom(c, s, m);
      } else {
        NothingEnds(c, s, e, u);
      }
    case IdleTimerElapses(k) =>
      if Enabled(s, e) {
        u := IdleTimerFrom(c, s, k);
      } else {
        NothingEnds(c, s, e, u);
      }
    case Clears => ClearFrom(c, s);
    case Resumes(m) =>
      if Enabled(s, e) {
        u := s.(resuming := s.resuming - {m});
      }
      NothingEnds(c, s, e, u);
    case Passes(_) => NothingEnds(c, s, e, u);
  }

  // ----- what an event does, after any run -----

  lemma WaitingUnsettled(c: Config, s: State, e: Event, u: State)
    requires Inv(c, s) && Halfway(c, s, e, u)
    requires e != Clears && (Fits(c, s, e) || !e.Submits?) && !TakesQueueDown(c, s, e)
    ensures Unsettled(u)
  {
    forall i | 0 <= i < |u.queue| ensures u.queue[i].id !in u.h.settled {
      WaitsUnsettled(c, s, e, u, u.queue[i]);
    }
  }

  lemma WaitsUnsettled(c: Config, s: State, e: Event, u: State, item: Item)
    requires Inv(c, s) && Halfway(c, s, e, u) && item in Waiting(c, s, e)
    requires e != Clears && (Fits(c, s, e) || !e.Submits?) && !TakesQueueDown(c, s, e)
    ensures item.id !in u.h.settled
  {
    if item.id in u.h.settled {
      assert item.id !in s.h.settled && item.id !in IdsInFlight(s.pending) by {
        assert item in s.queue || item.id == s.h.submitted;
        assert item in s.queue ==> item.id in IdsOf(s.queue);
      }
      assert SettledWith(u.h, item.id, u.h.settled[item.id][0].outcome);
    }
  }

  /**
   Exactly whom an event settles, and with what: the executions it ends, the queue if one of them failed
   with stopOnError, those the addon refuses when the queue goes on, a submission to a full queue, and
   everything if it is a clear().
   */
  lemma WhatAnEventSettles(c: Config, events: seq<Event>, e: Event, id: nat, o: Outcome)
    requires id !in After(c, events).h.settled
    ensures SettledWith(After(c, events + [e]).h, id, o) <==> Settles(c, After(c, events), e, id, o)
  {
    var s := After(c, events);
    AfterInv(c, events);
    AfterTidy(c, events);
    OneMore(c, events, e);
    var u := EventFrom(c, s, e);
    if GoesOn(c, s, e) {
      if !TakesQueueDown(c, s, e) {
        WaitingUnsettled(c, s, e, u);
      }
      ProcessNextSettles(u, id, o);
      GoingOnSettles(c, s, e, u, id, o);
    }
  }

  lemma GoingOnSettles(c: Config, s: State, e: Event, u: State, id: nat, o: Outcome)
    requires Inv(c, s) && Halfway(c, s, e, u) && GoesOn(c, s, e) && Unsettled(u)
    requires id !in s.h.settled && SettlesRefused(u, ProcessNext(u), id, o)
    ensures SettledWith(ProcessNext(u).h, id, o) <==> Settles(c, s, e, id, o)
  {
    if id in u.h.settled {
      assert SettledWith(u.h, id, u.h.settled[id][0].outcome);
      if Refused(u.queue, id, o) {
        RefusedIsQueued(u.queue, id, o);
        assert false;
      }
    }
  }

  predicate AbortedIn(h: History, id: nat) {
    && id in h.settled && h.settled[id] != []
    && h.settled[id][0].outcome.Resolved? && h.settled[id][0].outcome.cause.ByAbort?
  }

  /**
   Only a failure with stopOnError takes the queue down: an item that is queued is resolved as aborted by an
   event exactly when the event ends such an execution by an error or a reply that is not ok.
   */
  lemma AbortedIffFailure(c: Config, events: seq<Event>, e: Event, item: Item)
    requires item in After(c, events).queue
    ensures TakesQueueDown(c, After(c, events), e) <==> AbortedIn(After(c, events + [e]).h, item.id)
  {
    var s, h := After(c, events), After(c, events + [e]).h;
    var aborted := Resolved(Result(false, Some(Aborted), true, []), ByAbort);
    AfterInv(c, events);
    assert item.id in IdsOf(s.queue);
    WhatAnEventSettles(c, events, e, item.id, aborted);
    if TakesQueueDown(c, s, e) {
      assert Settles(c, s, e, item.id, aborted);
    }
    if AbortedIn(h, item.id) {
      WhatAnEventSettles(c, events, e, item.id, h.settled[item.id][0].outcome);
      OnlyFailureAborts(c, s, e, item.id, h.settled[item.id][0].outcome);
    }
  }

  lemma OnlyFailureAborts(c: Config, s: State, e: Event, id: nat, o: Outcome)
    requires Settles(c, s, e, id, o) && o.Resolved? && o.cause.ByAbort?
    ensures TakesQueueDown(c, s, e)
  {
  }

  /** The event hands an item over that the kernel takes as `m`. */
  ghost predicate SentNow(c: Config, s: State, e: Event, m: MsgId) {
    var waiting, k := Waiting(c, s, e), HandedNow(c, s, e);
    !TakesQueueDown(c, s, e) && k > 0 && waiting[k - 1].request.answer == Id(m)
  }

  /** `t` is where the event leads: where the queue goes on to from `u`, if it does. */
  ghost predicate GoneOn(c: Config, s: State, e: Event, u: State, t: State) {
    Halfway(c, s, e, u) && if GoesOn(c, s, e) then HandedUpTo(u, t, FirstSendable(u.queue)) else t == u
  }

  lemma AfterGoneOn(c: Config, events: seq<Event>, e: Event) returns (u: State)
    ensures Inv(c, After(c, events)) && GoneOn(c, After(c, events), e, u, After(c, events + [e]))
  {
    AfterInv(c, events);
    AfterTidy(c, events);
    OneMore(c, events, e);
    u := EventFrom(c, After(c, events), e);
    ProcessNextStopsAtFirstSent(u);
  }

  ghost predicate QueueAfter(c: Config, s: State, e: Event, t: State) {
    var waiting, k := Waiting(c, s, e), HandedNow(c, s, e);
    if TakesQueueDown(c, s, e) || e == Clears then t.queue == [] && t.h.handed == s.h.handed
    else t.queue == waiting[k..] && t.h.handed == s.h.handed + waiting[..k]
  }

  lemma QueueGoneOn(c: Config, s: State, e: Event, u: State, t: State)
    requires GoneOn(c, s, e, u, t)
    ensures QueueAfter(c, s, e, t)
  {
  }

  lemma ExecutingGoneOn(c: Config, s: State, e: Event, u: State, t: State)
    requires GoneOn(c, s, e, u, t)
    ensures t.executing <==> if GoesOn(c, s, e) then exists m :: SentNow(c, s, e, m) else s.executing && e != Clears
    ensures t.resuming == Resuming(s, e)
  {
    if GoesOn(c, s, e) && t.executing {
      assert SentNow(c, s, e, u.queue[FirstSendable(u.queue)].request.answer.msgId);
    }
  }

  /**
   What is queued before an event is queued after it, in order, but for those handed over, the first ones;
   a failure with stopOnError and a clear() leave nothing queued and hand nothing over. The queue is
   executing after it went on exactly if the kernel took an item.
   */
  lemma WhereTheQueueGoes(c: Config, events: seq<Event>, e: Event)
    ensures var s, t := After(c, events), After(c, events + [e]);
            && QueueAfter(c, s, e, t)
            && (t.executing <==>
                 if GoesOn(c, s, e) then exists m :: SentNow(c, s, e, m) else s.executing && e != Clears)
            && t.resuming == Resuming(s, e)
  {
    var s, t := After(c, events), After(c, events + [e]);
    var u := AfterGoneOn(c, events, e);
    QueueGoneOn(c, s, e, u, t);
    ExecutingGoneOn(c, s, e, u, t);
  }

  lemma SentIsNew(c: Config, s: State, e: Event, m: MsgId)
    requires Fresh(s) && Enabled(s, e) && SentNow(c, s, e, m)
    ensures m !in s.pending
  {
    var item := Waiting(c, s, e)[HandedNow(c, s, e) - 1];
    assert item in s.queue || item.request == e.request;
  }

  ghost predicate InFlightAfter(c: Config, s: State, e: Event, t: State, m: MsgId) {
    && (m in t.pending <==> (m in s.pending && EndsAs(c, s, e, m).None?) || SentNow(c, s, e, m))
    && (SentNow(c, s, e, m) ==>
          m !in s.pending && m in t.pending && t.pending[m].item == Waiting(c, s, e)[HandedNow(c, s, e) - 1])
  }

  lemma InFlightGoneOn(c: Config, s: State, e: Event, u: State, t: State, m: MsgId)
    requires GoneOn(c, s, e, u, t) && (SentNow(c, s, e, m) ==> m !in s.pending)
    ensures InFlightAfter(c, s, e, t, m)
  {
  }

  /** In flight after an event is who was and was not ended by it, and the item the kernel has just taken. */
  lemma WhoIsInFlight(c: Config, events: seq<Event>, e: Event, m: MsgId)
    ensures InFlightAfter(c, After(c, events), e, After(c, events + [e]), m)
  {
    var s, t := After(c, events), After(c, events + [e]);
    var u := AfterGoneOn(c, events, e);
    if SentNow(c, s, e, m) {
      SentIsNew(c, s, e, m);
    }
    InFlightGoneOn(c, s, e, u, t, m);
  }

  // ----- what a record knows -----

  /** The messages that came. */
  function Messages(events: seq<Event>): seq<Message> {
    if events == [] then []
    else
      var last := events[|events| - 1];
      Messages(events[..|events| - 1]) + if last.Hears? then [last.msg] else []
  }

  lemma StepLogs(c: Config, s: State, e: Event)
    requires Inv(c, s) && Tidy(c, s)
    ensures Step(c, s, e).h.arrived == s.h.arrived + if e.Hears? then [Arrival(e.msg, s.h.now)] else []
  {
    match e
    case Hears(msg) =>
      HearsCalm(c, s, msg);
      if msg.parent in s.pending {
        NoteIs(c, s, msg);
      }
    case _ => OtherCalm(c, s, e);
  }

  /** The log is what came, whether or not anyone waited for it. */
  lemma {:induction false} LogIsWhatCame(c: Config, events: seq<Event>)
    ensures var log := After(c, events).h.arrived;
            |log| == |Messages(events)| && forall i :: 0 <= i < |log| ==> log[i].msg == Messages(events)[i]
    decreases |events|
  {
    if events != [] {
      var init, e := events[..|events| - 1], events[|events| - 1];
      LogIsWhatCame(c, init);
      AfterInv(c, init);
      AfterTidy(c, init);
      OneMore(c, init, e);
      assert events == init + [e];
      StepLogs(c, After(c, init), e);
    }
  }

  /**
   An execution in flight has exactly the output heard for it; it is idle exactly if its idle was heard; its
   timeout is armed exactly if it has one and was not asked for input; and it waits for its idle exactly if
   it has heard a reply, on the latest one, until idleWaitMs after the latest message.
   */
  lemma RecordTellsWhatWasHeard(c: Config, events: seq<Event>, m: MsgId)
    requires m in After(c, events).pending
    ensures var s := After(c, events);
            && m in s.h.sentAt && s.h.sentAt[m] <= |s.h.arrived|
            && var p, heard := s.pending[m], HeardBy(s.h, m, |s.h.arrived|);
               && p.output == OutputOf(heard)
               && (p.idle <==> Said(heard, Status(true)))
               && (TimerArmed(s, m) <==> TimeoutMs(p.item.request) > 0 && !Said(heard, InputRequest))
               && (p.wait.Some? <==> Replies(heard) >= 1)
               && (Replies(heard) >= 1 ==> WaitsOn(p, m, s.idleTimers, heard, c.idleWaitMs))
  {
    AfterInv(c, events);
    AfterTidy(c, events);
    var s := After(c, events);
    assert RecordTells(s.pending[m], HeardBy(s.h, m, |s.h.arrived|));
    assert WaitTells(c, m, s.pending[m], s.idleTimers, HeardBy(s.h, m, |s.h.arrived|));
    assert Waits(c, s, m);
  }
}
