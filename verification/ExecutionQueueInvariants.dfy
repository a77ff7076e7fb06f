/**
 What every move of the execution queue keeps, in layers: message ids stay fresh, submissions are
 conserved, the order of handing over is the order of submission, and records and settlements tell
 the truth about what was heard.
 */
module ExecutionQueueInvariants {
  import opened Wrappers
  import opened ExecutionQueueSpec
  import opened ExecutionQueueMoves

  ghost predicate Increasing(items: seq<Item>) {
    forall i, j :: 0 <= i < j < |items| ==> items[i].id < items[j].id
  }

  // ----- what a message changes -----

  /** A message changes the records and timers of its own execution and the log, and nothing else. */
  ghost predicate Noted(s: State, t: State, m: MsgId) {
    && t.queue == s.queue && t.executing == s.executing && t.resuming == s.resuming
    && t.h == s.h.(arrived := t.h.arrived, replies := t.h.replies)
    && |t.h.arrived| == |s.h.arrived| + 1
    && s.h.arrived == t.h.arrived[..|s.h.arrived|]
    && t.pending.Keys == s.pending.Keys
    && (forall n :: n in s.pending ==> t.pending[n].item == s.pending[n].item)
    && (forall k :: k in t.idleTimers ==>
          (k in s.idleTimers && t.idleTimers[k].msgId == s.idleTimers[k].msgId)
              || (t.idleTimers[k].msgId == m && m in s.pending))
  }

  lemma UpdateNoted(s: State, t: State, m: MsgId, p: Pending)
    requires Noted(s, t, m) && m in s.pending && p.item == s.pending[m].item
    ensures Noted(s, Update(t, m, p), m)
  {
  }

  lemma ArmNoted(c: Config, s: State, t: State, m: MsgId, w: Wait)
    requires Noted(s, t, m) && m in s.pending
    ensures Noted(s, ArmIdleTimer(c, t, m, w), m)
  {
  }

  lemma RestartNoted(c: Config, s: State, msg: Message)
    requires msg.parent in s.pending
    ensures var t := RestartIdleWait(c, Arrive(s, msg), msg.parent);
            Noted(s, t, msg.parent) && t.pending == s.pending
  {
    var m, heard := msg.parent, Arrive(s, msg);
    assert Noted(s, heard, m);
    if s.pending[m].wait.Some? {
      ArmNoted(c, s, heard, m, s.pending[m].wait.value);
    }
  }

  lemma WaitNoted(c: Config, s: State, t: State, m: MsgId, w: Wait)
    requires Noted(s, t, m) && m in s.pending && t.pending == s.pending
    ensures var p := t.pending[m].(wait := Some(w));
            Noted(s, ArmIdleTimer(c, Update(t.(h := t.h.(replies := t.h.replies + 1)), m, p), m, w), m)
  {
    var p, u := t.pending[m].(wait := Some(w)), t.(h := t.h.(replies := t.h.replies + 1));
    assert Noted(s, u, m);
    UpdateNoted(s, u, m, p);
    ArmNoted(c, s, Update(u, m, p), m, w);
  }

  lemma NoteChanges(c: Config, s: State, msg: Message)
    ensures Noted(s, Note(c, s, msg), msg.parent)
  {
    var m := msg.parent;
    if m in s.pending {
      var p, t := s.pending[m], RestartIdleWait(c, Arrive(s, msg), m);
      RestartNoted(c, s, msg);
      match msg.kind
      case InputRequest => UpdateNoted(s, t, m, p.(timer := false));
      case Status(idle) => UpdateNoted(s, t, m, p.(idle := true));
      case ExecuteReply(_) => WaitNoted(c, s, t, m, Wait(t.h.replies, msg));
      case OtherKind =>
      case _ => UpdateNoted(s, t, m, p.(output := p.output + [msg]));
    }
  }

  // ----- fresh message ids -----

  ghost predicate FreshAnswers(queue: seq<Item>, h: History) {
    && (forall i, j :: 0 <= i < j < |queue| && queue[i].request.answer.Id? ==>
          queue[i].request.answer != queue[j].request.answer)
    && (forall i :: 0 <= i < |queue| && queue[i].request.answer.Id? ==>
          queue[i].request.answer.msgId in h.used && queue[i].request.answer.msgId !in h.sentAt)
    && h.sentAt.Keys <= h.used
    && (forall m :: m in h.sentAt ==> h.sentAt[m] <= |h.arrived|)
  }

  ghost predicate Fresh(s: State) {
    && FreshAnswers(s.queue, s.h)
    && s.pending.Keys <= s.h.sentAt.Keys
    && s.resuming <= s.h.sentAt.Keys
    && s.resuming !! s.pending.Keys
    && (forall m :: m in s.pending ==> s.pending[m].item.request.answer == Id(m))
    && (forall k :: k in s.idleTimers ==> s.idleTimers[k].msgId in s.h.sentAt)
  }

  lemma HandOverFresh(s: State)
    requires Fresh(s) && s.queue != []
    ensures Fresh(HandOverFirst(s))
  {
    var t := HandOverFirst(s);
    assert t.queue == s.queue[1..];
    assert FreshAnswers(t.queue, t.h);
  }

  lemma NoteFresh(s: State, t: State, m: MsgId)
    requires Fresh(s) && Noted(s, t, m)
    ensures Fresh(t)
  {
  }

  lemma FreshMove(c: Config, s: State, v: Move)
    requires Fresh(s) && Can(c, s, v)
    ensures Fresh(Apply(c, s, v))
  {
    match v
    case HandOver => HandOverFresh(s);
    case Hear(msg) =>
      NoteChanges(c, s, msg);
      NoteFresh(s, Note(c, s, msg), msg.parent);
    case _ =>
  }

  // ----- conservation -----

  ghost predicate Conserved(s: State) {
    && Increasing(s.queue)
    && (forall item :: item in s.queue ==> item.id < s.h.submitted)
    && (forall m :: m in s.pending ==> s.pending[m].item.id < s.h.submitted)
    && (forall m, n :: m in s.pending && n in s.pending && m != n ==> s.pending[m].item.id != s.pending[n].item.id)
    && IdsOf(s.queue) !! IdsInFlight(s.pending) !! s.h.settled.Keys
    && (forall id :: id in s.h.settled ==> id < s.h.submitted && |s.h.settled[id]| == 1)
    && (forall id: nat :: id < s.h.submitted ==>
          id in IdsOf(s.queue) || id in IdsInFlight(s.pending) || id in s.h.settled)
  }

  lemma IdsOfTail(queue: seq<Item>)
    requires queue != [] && Increasing(queue)
    ensures Increasing(queue[1..])
    ensures IdsOf(queue) == IdsOf(queue[1..]) + {queue[0].id}
    ensures queue[0].id !in IdsOf(queue[1..])
  {
    assert queue == [queue[0]] + queue[1..];
    assert queue[0] in queue;
    assert forall i :: i in queue[1..] ==> i in queue;
  }

  lemma IdsOfAppend(queue: seq<Item>, item: Item)
    ensures IdsOf(queue + [item]) == IdsOf(queue) + {item.id}
  {
    assert item in queue + [item];
    assert forall i :: i in queue ==> i in queue + [item];
  }

  lemma InFlightAdd(pending: map<MsgId, Pending>, m: MsgId, p: Pending)
    requires m !in pending
    ensures IdsInFlight(pending[m := p]) == IdsInFlight(pending) + {p.item.id}
  {
    var after := pending[m := p];
    assert m in after;
    assert forall n :: n in pending ==> n in after && after[n] == pending[n];
  }

  lemma InFlightRemove(pending: map<MsgId, Pending>, m: MsgId)
    requires m in pending
    requires forall n :: n in pending && n != m ==> pending[m].item.id != pending[n].item.id
    ensures IdsInFlight(pending - {m}) == IdsInFlight(pending) - {pending[m].item.id}
  {
    var after := pending - {m};
    assert forall n :: n in after ==> n in pending && after[n] == pending[n];
    assert forall n :: n in pending && n != m ==> n in after;
  }

  lemma LandConserved(s: State, m: MsgId, o: Outcome)
    requires Conserved(s) && m in s.pending
    ensures Conserved(Land(s, m, o))
  {
    InFlightRemove(s.pending, m);
    assert s.pending[m].item.id in IdsInFlight(s.pending);
  }

  lemma HandOverConserved(s: State)
    requires Fresh(s) && Conserved(s) && s.queue != []
    ensures Conserved(HandOverFirst(s))
  {
    var item, t := s.queue[0], HandOverFirst(s);
    IdsOfTail(s.queue);
    assert forall i :: i in s.queue[1..] ==> i in s.queue;
    if item.request.answer.Id? {
      InFlightAdd(s.pending, item.request.answer.msgId, t.pending[item.request.answer.msgId]);
      SendConserved(s, t, item.request.answer.msgId);
    } else {
      SkipConserved(s, t);
    }
  }

  lemma SkipConserved(s: State, t: State)
    requires Conserved(s) && s.queue != [] && s.queue[0] in s.queue
    requires t.queue == s.queue[1..] && Increasing(t.queue) && t.pending == s.pending
    requires IdsOf(s.queue) == IdsOf(t.queue) + {s.queue[0].id} && s.queue[0].id !in IdsOf(t.queue)
    requires forall i :: i in t.queue ==> i in s.queue
    requires t.h.submitted == s.h.submitted && s.queue[0].id in t.h.settled && |t.h.settled[s.queue[0].id]| == 1
    requires t.h.settled == s.h.settled[s.queue[0].id := t.h.settled[s.queue[0].id]]
    ensures Conserved(t)
  {
  }

  lemma SendConserved(s: State, t: State, m: MsgId)
    requires Conserved(s) && s.queue != [] && s.queue[0] in s.queue
    requires t.queue == s.queue[1..] && Increasing(t.queue)
    requires IdsOf(s.queue) == IdsOf(t.queue) + {s.queue[0].id} && s.queue[0].id !in IdsOf(t.queue)
    requires forall i :: i in t.queue ==> i in s.queue
    requires m !in s.pending && m in t.pending && t.pending[m].item == s.queue[0]
    requires t.pending == s.pending[m := t.pending[m]]
    requires IdsInFlight(t.pending) == IdsInFlight(s.pending) + {s.queue[0].id}
    requires t.h.submitted == s.h.submitted && t.h.settled == s.h.settled
    ensures Conserved(t)
  {
    var id := s.queue[0].id;
    assert id in IdsOf(s.queue);
    forall n | n in s.pending ensures s.pending[n].item.id != id {
      assert s.pending[n].item.id in IdsInFlight(s.pending);
    }
  }

  lemma AcceptConserved(s: State, r: Request)
    requires Conserved(s)
    ensures Conserved(Count(s, r).(queue := s.queue + [Item(s.h.submitted, r)]))
  {
    var item, t := Item(s.h.submitted, r), Count(s, r).(queue := s.queue + [Item(s.h.submitted, r)]);
    IdsOfAppend(s.queue, item);
    assert item.id !in IdsInFlight(s.pending) by {
      assert forall m :: m in s.pending ==> s.pending[m].item.id != item.id;
    }
    QueuedConserved(s, t, item);
  }

  lemma QueuedConserved(s: State, t: State, item: Item)
    requires Conserved(s) && item.id == s.h.submitted && item.id !in IdsInFlight(s.pending)
    requires t.queue == s.queue + [item] && IdsOf(t.queue) == IdsOf(s.queue) + {item.id}
    requires t.pending == s.pending && t.h.settled == s.h.settled && t.h.submitted == s.h.submitted + 1
    ensures Conserved(t)
  {
    assert forall i :: i in t.queue ==> i in s.queue || i == item;
  }

  lemma NoteConserved(s: State, t: State, m: MsgId)
    requires Conserved(s) && Noted(s, t, m)
    ensures Conserved(t)
  {
    assert forall n :: n in s.pending <==> n in t.pending;
    assert IdsInFlight(t.pending) == IdsInFlight(s.pending);
  }

  lemma RefuseConserved(s: State, r: Request)
    requires Conserved(s)
    ensures Conserved(Count(s, r).(h := Settle(Count(s, r).h, s.h.submitted, Rejected(QueueFull), None)))
  {
    assert s.h.submitted !in IdsInFlight(s.pending);
    assert s.h.submitted !in IdsOf(s.queue);
  }

  lemma ConservedMove(c: Config, s: State, v: Move)
    requires Fresh(s) && Conserved(s) && Can(c, s, v)
    ensures Conserved(Apply(c, s, v))
  {
    match v
    case Accept(r) => AcceptConserved(s, r);
    case Refuse(r) => RefuseConserved(s, r);
    case HandOver => HandOverConserved(s);
    case Hear(msg) =>
      NoteChanges(c, s, msg);
      NoteConserved(s, Note(c, s, msg), msg.parent);
    case LandByError(report) => LandConserved(s, report.parent, ErrorOutcome(s, report.parent, report));
    case LandByReply(m, reply, timers) => LandConserved(s, m, ReplyOutcome(s, m, reply));
    case LandByTimeout(m) =>
      LandConserved(s, m, Rejected(TimedOut(s.pending[m].item.request.interruptOnTimeout && c.interrupts)));
    case Abort => AbortConserved(s);
    case Empty => EmptyConserved(s);
    case _ =>
  }

  lemma AbortConserved(s: State)
    requires Conserved(s)
    ensures Conserved(AbortQueued(s))
  {
  }

  lemma EmptyConserved(s: State)
    requires Conserved(s)
    ensures Conserved(Clear(s))
  {
  }

  // ----- the order of handing over -----

  ghost predicate WasSent(h: History, id: nat) {
    exists item :: item in h.handed && item.id == id && item.request.answer.Id?
  }

  /** The submission's own item was handed over, and the kernel knows it as `m`. */
  ghost predicate SentAs(h: History, id: nat, m: MsgId) {
    exists item :: item in h.handed && item.id == id && item.request.answer == Id(m)
  }

  /** Whether the outcome says its execution reached the kernel; a clear() says nothing. */
  predicate AgreesWithSent(o: Outcome, sent: bool) {
    match o
    case Resolved(_, cause) => sent == !cause.ByAbort?
    case Rejected(TimedOut(_)) => sent
    case Rejected(Cleared) => true
    case Rejected(_) => !sent
  }

  /** What was handed over, then what is queued: all in the order of submission. */
  ghost predicate InOrder(queue: seq<Item>, h: History) {
    && Increasing(h.handed + queue)
    && (forall item :: item in h.handed ==> item.id < h.submitted)
    && (forall item :: item in h.handed && item.request.answer.Id? ==> item.request.answer.msgId in h.sentAt)
  }

  ghost predicate SettledInOrder(h: History) {
    forall id :: id in h.settled ==>
      && h.settled[id] != []
      && AgreesWithSent(h.settled[id][0].outcome, WasSent(h, id))
      && (h.settled[id][0].msgId.Some? ==> SentAs(h, id, h.settled[id][0].msgId.value))
  }

  ghost predicate Ordered(s: State) {
    && InOrder(s.queue, s.h)
    && (forall m :: m in s.pending ==> s.pending[m].item in s.h.handed)
    && SettledInOrder(s.h)
  }

  lemma QueuedNotHanded(queue: seq<Item>, h: History)
    requires InOrder(queue, h)
    ensures forall a, b :: a in h.handed && b in queue ==> a.id < b.id
  {
    forall a, b | a in h.handed && b in queue ensures a.id < b.id {
      var i :| 0 <= i < |h.handed| && h.handed[i] == a;
      var j :| 0 <= j < |queue| && queue[j] == b;
      assert (h.handed + queue)[i] == a && (h.handed + queue)[|h.handed| + j] == b;
    }
  }

  lemma MoveFirst(handed: seq<Item>, queue: seq<Item>)
    requires queue != []
    ensures (handed + [queue[0]]) + queue[1..] == handed + queue
  {
  }

  lemma HandOverInOrder(s: State)
    requires InOrder(s.queue, s.h) && s.queue != [] && s.queue[0].id < s.h.submitted
    ensures InOrder(HandOverFirst(s).queue, HandOverFirst(s).h)
  {
    var item, t := s.queue[0], HandOverFirst(s);
    MoveFirst(s.h.handed, s.queue);
    assert t.h.handed == s.h.handed + [item];
    assert t.queue == s.queue[1..];
  }

  /** Who was sent, once one more item is handed over. */
  lemma HandedOneMore(h: History, h': History, item: Item, id: nat)
    requires h'.handed == h.handed + [item]
    ensures WasSent(h', id) <==> WasSent(h, id) || (id == item.id && item.request.answer.Id?)
  {
    assert item in h'.handed;
    assert forall i :: i in h.handed ==> i in h'.handed;
    assert forall i :: i in h'.handed ==> i in h.handed || i == item;
  }

  lemma StillSentAs(h: History, t: History, id: nat, m: MsgId)
    requires SentAs(h, id, m) && h.handed <= t.handed
    ensures SentAs(t, id, m)
  {
    assert forall item :: item in h.handed ==> item in t.handed;
  }

  lemma HandOverSettled(s: State)
    requires Fresh(s) && Conserved(s) && Ordered(s) && s.queue != []
    ensures SettledInOrder(HandOverFirst(s).h)
  {
    var item, t := s.queue[0], HandOverFirst(s);
    assert item in s.queue && item.id in IdsOf(s.queue);
    QueuedNotHanded(s.queue, s.h);
    forall id | id in t.h.settled
      ensures t.h.settled[id] != [] && AgreesWithSent(t.h.settled[id][0].outcome, WasSent(t.h, id))
      ensures t.h.settled[id][0].msgId.Some? ==> SentAs(t.h, id, t.h.settled[id][0].msgId.value)
    {
      HandedOneMore(s.h, t.h, item, id);
      if t.h.settled[id][0].msgId.Some? {
        StillSentAs(s.h, t.h, id, t.h.settled[id][0].msgId.value);
      }
    }
  }

  lemma HandOverOrdered(s: State)
    requires Fresh(s) && Conserved(s) && Ordered(s) && s.queue != []
    ensures Ordered(HandOverFirst(s))
  {
    var item, t := s.queue[0], HandOverFirst(s);
    assert item in s.queue && item.id in IdsOf(s.queue);
    HandOverInOrder(s);
    HandOverSettled(s);
    forall m | m in t.pending ensures t.pending[m].item in t.h.handed {
      assert t.pending[m].item == item || t.pending[m].item in s.h.handed;
    }
  }

  /** Settling one submission keeps the order when the outcome agrees with whether it was sent. */
  lemma SettleOrdered(h: History, id: nat, o: Outcome, m: Option<MsgId>)
    requires SettledInOrder(h) && id !in h.settled && AgreesWithSent(o, WasSent(h, id))
    requires m.Some? ==> SentAs(h, id, m.value)
    ensures SettledInOrder(Settle(h, id, o, m))
  {
    var t := Settle(h, id, o, m);
    assert forall i :: WasSent(t, i) == WasSent(h, i);
    assert forall i, n :: SentAs(t, i, n) == SentAs(h, i, n);
  }

  lemma SettleAllOrdered(h: History, ids: set<nat>, o: Outcome)
    requires SettledInOrder(h) && ids !! h.settled.Keys
    requires forall id :: id in ids ==> AgreesWithSent(o, WasSent(h, id))
    ensures SettledInOrder(SettleAll(h, ids, o))
  {
    var t := SettleAll(h, ids, o);
    assert forall i :: WasSent(t, i) == WasSent(h, i);
    assert forall i, n :: SentAs(t, i, n) == SentAs(h, i, n);
  }

  lemma InFlightWasSent(s: State, m: MsgId)
    requires Fresh(s) && Conserved(s) && Ordered(s) && m in s.pending
    ensures WasSent(s.h, s.pending[m].item.id) && s.pending[m].item.id !in s.h.settled
  {
    assert s.pending[m].item.id in IdsInFlight(s.pending);
  }

  lemma NoteOrdered(s: State, t: State, m: MsgId)
    requires Ordered(s) && Noted(s, t, m)
    ensures Ordered(t)
  {
    assert forall i :: WasSent(t.h, i) == WasSent(s.h, i);
    assert forall i, n :: SentAs(t.h, i, n) == SentAs(s.h, i, n);
  }

  lemma AcceptOrdered(s: State, r: Request)
    requires Conserved(s) && Ordered(s)
    ensures Ordered(Count(s, r))
    ensures Ordered(Count(s, r).(queue := s.queue + [Item(s.h.submitted, r)]))
    ensures !WasSent(Count(s, r).h, s.h.submitted)
  {
    var t := Count(s, r);
    assert forall i :: WasSent(t.h, i) == WasSent(s.h, i);
    assert forall i, n :: SentAs(t.h, i, n) == SentAs(s.h, i, n);
    var item := Item(s.h.submitted, r);
    QueuedNotHanded(s.queue, s.h);
    assert s.h.handed + (s.queue + [item]) == (s.h.handed + s.queue) + [item];
    assert forall i :: 0 <= i < |s.h.handed| ==> s.h.handed[i] in s.h.handed;
  }

  lemma LandOrdered(s: State, m: MsgId, o: Outcome)
    requires Fresh(s) && Conserved(s) && Ordered(s) && m in s.pending && AgreesWithSent(o, true)
    ensures Ordered(Land(s, m, o))
  {
    InFlightWasSent(s, m);
    assert SentAs(s.h, s.pending[m].item.id, m);
    SettleOrdered(s.h, s.pending[m].item.id, o, Some(m));
  }

  /** Dropping the queue, all of it unsent, with one outcome. */
  lemma DropQueueOrdered(s: State, o: Outcome)
    requires Conserved(s) && Ordered(s) && AgreesWithSent(o, false)
    ensures Ordered(s.(queue := [], h := SettleAll(s.h, IdsOf(s.queue), o)))
  {
    var t := SettleAll(s.h, IdsOf(s.queue), o);
    QueuedNotHanded(s.queue, s.h);
    assert t.handed + [] == (s.h.handed + s.queue)[..|s.h.handed|];
    SettleAllOrdered(s.h, IdsOf(s.queue), o);
  }

  lemma EmptyOrdered(s: State)
    requires Conserved(s) && Ordered(s)
    ensures Ordered(Clear(s))
  {
    var t := s.(queue := [], h := SettleAll(s.h, IdsOf(s.queue), Rejected(Cleared)));
    DropQueueOrdered(s, Rejected(Cleared));
    SettleAllOrdered(t.h, IdsInFlight(s.pending), Rejected(Cleared));
  }

  lemma OrderedMove(c: Config, s: State, v: Move)
    requires Fresh(s) && Conserved(s) && Ordered(s) && Can(c, s, v)
    ensures Ordered(Apply(c, s, v))
  {
    match v
    case Accept(r) => AcceptOrdered(s, r);
    case Refuse(r) =>
      AcceptOrdered(s, r);
      SettleOrdered(Count(s, r).h, s.h.submitted, Rejected(QueueFull), None);
    case HandOver => HandOverOrdered(s);
    case Hear(msg) =>
      NoteChanges(c, s, msg);
      NoteOrdered(s, Note(c, s, msg), msg.parent);
    case LandByError(report) => LandOrdered(s, report.parent, ErrorOutcome(s, report.parent, report));
    case LandByReply(m, reply, _) => LandOrdered(s, m, ReplyOutcome(s, m, reply));
    case LandByTimeout(m) =>
      LandOrdered(s, m, Rejected(TimedOut(s.pending[m].item.request.interruptOnTimeout && c.interrupts)));
    case Abort => DropQueueOrdered(s, Resolved(AbortedResult, ByAbort));
    case Empty => EmptyOrdered(s);
    case _ =>
  }
}
