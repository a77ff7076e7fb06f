/**
 Where two of the queue's promises end: a clear() while an interrupt is unanswered breaks single
 flight, and a second reply to one execution cuts its wait for the idle short.
 */
module ExecutionQueueLimits {
  import opened Wrappers
  import opened ExecutionQueueSpec
  import opened ExecutionQueueMoves
  import opened ExecutionQueueInvariants
  import opened ExecutionQueueTruth
  import opened ExecutionQueueTheorems
  import opened ExecutionQueueWaits
  import F = Folds

  // ----- clear() and an unanswered interrupt -----

  /** Nothing reaches the kernel through a queue of size zero. */
  ghost predicate Roomy(c: Config, s: State) {
    c.maxSize > 0 || (s.queue == [] && s.h.sentAt == map[])
  }

  lemma AfterRoomy(c: Config, events: seq<Event>)
    ensures Inv(c, After(c, events)) && Roomy(c, After(c, events))
  {
    var inv: State -> bool := s => Inv(c, s) && Roomy(c, s);
    InvKept(c);
    forall s, v | inv(s) && Can(c, s, v) ensures inv(Apply(c, s, v)) {
      assert (q => Inv(c, q))(Apply(c, s, v));
      RoomyMove(c, s, v);
    }
    AfterInv(c, []);
    RunKeeps(c, inv, Initial, events);
  }

  lemma RoomyMove(c: Config, s: State, v: Move)
    requires Roomy(c, s) && Can(c, s, v)
    ensures Roomy(c, Apply(c, s, v))
  {
    match v
    case Hear(msg) => NoteChanges(c, s, msg);
    case HandOver => assert c.maxSize > 0;
    case _ => assert Apply(c, s, v).h.sentAt == s.h.sentAt;
  }

  lemma RunOneMore(c: Config, s: State, events: seq<Event>, e: Event)
    ensures Run(c, s, events + [e]) == Step(c, Run(c, s, events), e)
  {
    assert (events + [e])[..|events|] == events;
  }

  ghost predicate AtMostOneInFlight(s: State) {
    forall m, n :: m in s.pending && n in s.pending ==> m == n
  }

  function Plain(m: MsgId): Request {
    Request("", None, true, false, Id(m))
  }

  /** Two submissions and the late answer: the second is sent while the first is in flight. */
  lemma TwoInFlight(c: Config, s: State, late: MsgId, a: MsgId, b: MsgId)
    requires s.queue == [] && !s.executing && s.pending == map[] && late in s.resuming && c.maxSize > 0
    requires a != b && a !in s.h.used && b !in s.h.used
    ensures var t := Run(c, s, [Submits(Plain(a)), Submits(Plain(b)), Resumes(late)]);
            a in t.pending && b in t.pending
  {
    var e := [Submits(Plain(a)), Submits(Plain(b)), Resumes(late)];
    RunOneMore(c, s, [], e[0]);
    RunOneMore(c, s, [] + [e[0]], e[1]);
    RunOneMore(c, s, [] + [e[0]] + [e[1]], e[2]);
    assert e == [] + [e[0]] + [e[1]] + [e[2]];
    var s1 := Step(c, s, e[0]);
    var item := Item(s.h.submitted, Plain(a));
    ProcessNextStopsAtFirstSent(Count(s, Plain(a)).(queue := s.queue + [item]));
    assert s1.queue == [] && s1.executing && a in s1.pending && s1.resuming == s.resuming;
    SubmitUses(c, s, Plain(a));
    var s2 := Step(c, s1, e[1]);
    assert s2.queue == [Item(s1.h.submitted, Plain(b))] && a in s2.pending && late in s2.resuming;
    var s3 := Step(c, s2, e[2]);
    ProcessNextStopsAtFirstSent(s2.(resuming := s2.resuming - {late}));
  }

  lemma {:induction false} ProcessNextUses(s: State)
    ensures ProcessNext(s).h.used == s.h.used
    decreases |s.queue|
  {
    if s.queue != [] && !s.queue[0].request.answer.Id? {
      ProcessNextUses(HandOverFirst(s));
    }
  }

  lemma SubmitUses(c: Config, s: State, r: Request)
    ensures Submit(c, s, r).h.used == if r.answer.Id? then s.h.used + {r.answer.msgId} else s.h.used
  {
    ProcessNextUses(Count(s, r).(queue := s.queue + [Item(s.h.submitted, r)]));
  }

  /**
   After any run whose clears were in peace, one more clear() leaves single flight safe for every
   peaceful continuation exactly when no interrupt is unanswered.
   */
  lemma ClearIsSafeIff(c: Config, events: seq<Event>)
    requires ClearsInPeace(c, Initial, events)
    ensures var s := After(c, events);
            s.resuming == {} <==>
            (forall more :: ClearsInPeace(c, Clear(s), more) ==> AtMostOneInFlight(Run(c, Clear(s), more)))
  {
    var s := After(c, events);
    SingleFlight(c, events);
    AfterRoomy(c, events);
    if s.resuming == {} {
      forall more | ClearsInPeace(c, Clear(s), more) ensures AtMostOneInFlight(Run(c, Clear(s), more)) {
        ClearedInPeace(c, s, more);
      }
    } else {
      var more := ClearedTooEarly(c, s);
    }
  }

  lemma ClearedInPeace(c: Config, s: State, more: seq<Event>)
    requires Solo(s) && s.resuming == {} && ClearsInPeace(c, Clear(s), more)
    ensures AtMostOneInFlight(Run(c, Clear(s), more))
  {
    StepSolo(c, s, Clears);
    RunSolo(c, Clear(s), more);
  }

  /** The interrupt's answer comes after two more submissions. */
  lemma ClearedTooEarly(c: Config, s: State) returns (more: seq<Event>)
    requires Roomy(c, s) && s.resuming != {} && s.resuming <= s.h.sentAt.Keys
    ensures ClearsInPeace(c, Clear(s), more) && !AtMostOneInFlight(Run(c, Clear(s), more))
  {
    var late :| late in s.resuming;
    var bound := FreshId(s.h.used);
    more := [Submits(Plain(bound)), Submits(Plain(bound + 1)), Resumes(late)];
    TwoInFlight(c, Clear(s), late, bound, bound + 1);
  }

  // ----- a second reply and the wait for the idle -----

  /** Execution `m` was resolved from a reply without an idle, and less than the wait after its last message. */
  ghost predicate ResolvedEarly(c: Config, h: History, m: MsgId) {
    exists id :: id in h.settled && ResolvedEarlyAs(c, h, id, m)
  }

  ghost predicate ResolvedEarlyAs(c: Config, h: History, id: nat, m: MsgId)
    requires id in h.settled
  {
    && h.settled[id] != []
    && var x := h.settled[id][0];
       && x.msgId == Some(m) && x.outcome.Resolved? && x.outcome.cause.ByReply?
       && x.outcome.cause.reply.kind != ExecuteReply(Aborted)
       && m in h.sentAt && h.sentAt[m] <= x.upTo <= |h.arrived|
       && !Said(HeardBy(h, m, x.upTo), Status(true))
       && !Waited(HeardBy(h, m, x.upTo), c.idleWaitMs, x.at)
  }

  /** Hearing a second reply while waiting on a first leaves the first one's timer stale. */
  lemma SecondReplyLeavesStaleTimer(c: Config, events: seq<Event>, m: MsgId, reply: ReplyMessage)
    requires var s := After(c, events); m in s.pending && s.pending[m].wait.Some? && !s.pending[m].idle
    requires reply.parent == m && reply.kind.status != Aborted
    requires After(c, events).pending[m].wait.value.reply.kind.status != Aborted
    ensures StaleTimer(After(c, events + [Hears(reply)]), m, After(c, events).pending[m].wait.value.serial)
  {
    var s := After(c, events);
    AfterInv(c, events);
    OneMore(c, events, Hears(reply));
    NoteIs(c, s, reply);
    assert HandleMessage(c, s, reply) == Note(c, s, reply);
  }

  lemma {:induction false} ProcessNextKeepsLanded(s: State, id: nat, m: MsgId)
    requires id in s.h.settled && id !in IdsOf(s.queue) && m in s.h.sentAt
    requires forall item :: item in s.queue ==> item.request.answer != Id(m)
    ensures var t := ProcessNext(s);
            && id in t.h.settled && t.h.settled[id] == s.h.settled[id]
            && t.h.arrived == s.h.arrived && m in t.h.sentAt && t.h.sentAt[m] == s.h.sentAt[m]
    decreases |s.queue|
  {
    if s.queue != [] {
      assert s.queue[0] in s.queue && s.queue[0].id in IdsOf(s.queue);
      assert forall item :: item in s.queue[1..] ==> item in s.queue;
      if !s.queue[0].request.answer.Id? {
        ProcessNextKeepsLanded(HandOverFirst(s), id, m);
      }
    }
  }

  /** Landing from a reply with neither the idle in nor the wait over is resolving early. */
  lemma LandsEarly(c: Config, s: State, t: State, m: MsgId, reply: ReplyMessage)
    requires Inv(c, s) && m in s.pending && t.pending == s.pending
    requires t.h.arrived == s.h.arrived && t.h.sentAt == s.h.sentAt && t.h.now == s.h.now
    requires (t.queue == s.queue && t.h == s.h) || t.queue == []
    requires s.pending[m].item.id !in t.h.settled && reply.kind.status != Aborted
    requires !Said(HeardBy(s.h, m, |s.h.arrived|), Status(true))
    requires !Waited(HeardBy(s.h, m, |s.h.arrived|), c.idleWaitMs, s.h.now)
    ensures ResolvedEarly(c, ProcessNext(Land(t, m, ReplyOutcome(s, m, reply))).h, m)
  {
    var landed, id := Land(t, m, ReplyOutcome(s, m, reply)), s.pending[m].item.id;
    assert id in IdsInFlight(s.pending);
    ProcessNextKeepsLanded(landed, id, m);
    var h := ProcessNext(landed).h;
    assert h.settled[id] == [Settlement(ReplyOutcome(s, m, reply), Some(m), |s.h.arrived|, s.h.now)];
    assert HeardBy(h, m, |s.h.arrived|) == HeardBy(s.h, m, |s.h.arrived|);
    assert ResolvedEarlyAs(c, h, id, m);
  }

  lemma StaleFires(c: Config, s: State, m: MsgId, k: nat)
    requires Inv(c, s) && StaleTimer(s, m, k) && IdleTimerDue(s, k)
    requires !Waited(HeardBy(s.h, m, |s.h.arrived|), c.idleWaitMs, s.h.now)
    ensures ResolvedEarly(c, IdleTimerFires(s, k).h, m)
  {
    var reply := s.idleTimers[k].reply;
    var abort := reply.kind.status != Ok && s.pending[m].item.request.stopOnError;
    var t := AbortIf(s.(idleTimers := s.idleTimers - {k}), abort);
    assert RecordTells(s.pending[m], HeardBy(s.h, m, |s.h.arrived|));
    assert s.pending[m].item.id in IdsInFlight(s.pending);
    LandsEarly(c, s, t, m, reply);
  }

  lemma OutputLeavesStale(c: Config, s: State, m: MsgId, k: nat, msg: Message)
    requires c.idleWaitMs > 0 && Inv(c, s) && StaleTimer(s, m, k) && msg == Message(m, Stream, 0)
    ensures var t := HandleMessage(c, s, msg);
            && StaleTimer(t, m, k) && t.idleTimers[k] == s.idleTimers[k] && t.h.now == s.h.now && SentBefore(t)
            && !Waited(HeardBy(t.h, m, |t.h.arrived|), c.idleWaitMs, t.h.now)
  {
    var t := HandleMessage(c, s, msg);
    NoteIs(c, s, msg);
    assert t == Note(c, s, msg);
    HeardByGrows(s, msg, m);
    var heard := HeardBy(t.h, m, |t.h.arrived|);
    assert heard == HeardBy(s.h, m, |s.h.arrived|) + [Arrival(msg, s.h.now)];
    assert heard[|heard| - 1].at == s.h.now;
    NoteTimely(c, s, msg);
  }

  lemma UntilDue(c: Config, events: seq<Event>, m: MsgId, k: nat, gap: nat)
    requires StaleTimer(After(c, events), m, k)
    requires After(c, events).idleTimers[k].deadline <= After(c, events).h.now + gap
    ensures var t := After(c, events + [Passes(gap)]);
            StaleTimer(t, m, k) && IdleTimerDue(t, k)
  {
    OneMore(c, events, Passes(gap));
  }

  lemma OutputJustBefore(c: Config, events: seq<Event>, m: MsgId, k: nat, msg: Message)
    requires c.idleWaitMs > 0 && msg == Message(m, Stream, 0)
    requires StaleTimer(After(c, events), m, k) && IdleTimerDue(After(c, events), k)
    ensures var t := After(c, events + [Hears(msg)]);
            && StaleTimer(t, m, k) && IdleTimerDue(t, k) && SentBefore(t)
            && !Waited(HeardBy(t.h, m, |t.h.arrived|), c.idleWaitMs, t.h.now)
  {
    AfterInv(c, events);
    OneMore(c, events, Hears(msg));
    OutputLeavesStale(c, After(c, events), m, k, msg);
  }

  /** No reply to `m` is among these events. */
  predicate NoReplyTo(more: seq<Event>, m: MsgId) {
    forall i :: 0 <= i < |more| && more[i].Hears? ==> !(more[i].msg.parent == m && more[i].msg.kind.ExecuteReply?)
  }

  /**
   From any reachable state with a stale timer, output heard just before it falls due is followed by
   a resolution that waited for neither the idle nor idleWaitMs.
   */
  lemma StaleTimerResolvesEarly(c: Config, events: seq<Event>, m: MsgId, k: nat) returns (more: seq<Event>)
    requires c.idleWaitMs > 0 && StaleTimer(After(c, events), m, k)
    ensures NoReplyTo(more, m) && ResolvedEarly(c, After(c, events + more).h, m)
  {
    var s := After(c, events);
    var gap := if s.idleTimers[k].deadline > s.h.now then s.idleTimers[k].deadline - s.h.now else 0;
    var msg := Message(m, Stream, 0);
    UntilDue(c, events, m, k, gap);
    var waited := events + [Passes(gap)];
    OutputJustBefore(c, waited, m, k, msg);
    var heard := waited + [Hears(msg)];
    ElapsesEarly(c, heard, m, k);
    more := [Passes(gap), Hears(msg), IdleTimerElapses(k)];
    assert heard + [IdleTimerElapses(k)] == events + more;
  }

  // ----- and nothing but a second reply can -----

  /** How often `m` was replied to. */
  ghost function RepliesTo(h: History, m: MsgId): nat
    requires m in h.sentAt && h.sentAt[m] <= |h.arrived|
  {
    Replies(HeardBy(h, m, |h.arrived|))
  }

  lemma {:induction false} HeardOfPart(log: seq<Arrival>, m: MsgId, i: nat)
    requires i <= |log|
    ensures Replies(Heard(log[..i], m)) <= Replies(Heard(log, m))
  {
    if i == |log| {
      assert log[..i] == log;
    } else {
      var init, last := log[..|log| - 1], log[|log| - 1];
      assert init[..i] == log[..i];
      HeardOfPart(init, m, i);
      ReadAppend(Heard(init, m), last);
      assert Heard(init, m) + [] == Heard(init, m);
    }
  }

  lemma StepReplies(c: Config, s: State, e: Event, m: MsgId)
    requires Inv(c, s) && m in s.h.sentAt && NoReplyTo([e], m)
    ensures var t := Step(c, s, e);
            m in t.h.sentAt && t.h.sentAt[m] <= |t.h.arrived| && RepliesTo(t.h, m) == RepliesTo(s.h, m)
  {
    if e.Hears? {
      var u := Note(c, s, e.msg);
      assert [e][0].msg == e.msg;
      if e.msg.parent in s.pending {
        assert WaitTells(c, e.msg.parent, s.pending[e.msg.parent], s.idleTimers,
            HeardBy(s.h, e.msg.parent, |s.h.arrived|));
      }
      HearsCalm(c, s, e.msg);
      NoteChanges(c, s, e.msg);
      HeardByGrows(s, e.msg, m);
      NotedLog(c, s, e.msg);
      var heard := HeardBy(s.h, m, |s.h.arrived|);
      ReadAppend(heard, Arrival(e.msg, s.h.now));
      assert heard + [] == heard;
      assert HeardBy(Step(c, s, e).h, m, |u.h.arrived|) == HeardBy(Arrive(s, e.msg).h, m, |s.h.arrived| + 1);
    } else {
      OtherCalm(c, s, e);
      assert HeardBy(Step(c, s, e).h, m, |s.h.arrived|) == HeardBy(s.h, m, |s.h.arrived|);
    }
  }

  lemma NotedLog(c: Config, s: State, msg: Message)
    ensures Note(c, s, msg).h.arrived == Arrive(s, msg).h.arrived && Note(c, s, msg).h.sentAt == s.h.sentAt
  {
  }

  /** `t` knows of `m` what `s` knows, replies included. */
  ghost predicate AsReplied(s: State, t: State, m: MsgId) {
    && m in s.h.sentAt && s.h.sentAt[m] <= |s.h.arrived|
    && m in t.h.sentAt && t.h.sentAt[m] <= |t.h.arrived|
    && RepliesTo(t.h, m) == RepliesTo(s.h, m)
  }

  lemma EventReplies(c: Config, events: seq<Event>, e: Event, s: State, m: MsgId)
    requires AsReplied(s, After(c, events), m) && NoReplyTo([e], m)
    ensures AsReplied(s, After(c, events + [e]), m)
  {
    AfterInv(c, events);
    OneMore(c, events, e);
    StepReplies(c, After(c, events), e, m);
  }

  /** Without a further reply to it, an execution stays replied to as often as it was. */
  lemma {:induction false} RunReplies(c: Config, events: seq<Event>, more: seq<Event>, m: MsgId)
    requires m in After(c, events).h.sentAt && NoReplyTo(more, m)
    ensures AsReplied(After(c, events), After(c, events + more), m)
    decreases |more|
  {
    if more == [] {
      AfterInv(c, events);
      assert events + more == events;
    } else {
      var init, e := more[..|more| - 1], more[|more| - 1];
      RunReplies(c, events, init, m);
      assert more[|more| - 1] == e && NoReplyTo([e], m);
      EventReplies(c, events + init, e, After(c, events), m);
      assert (events + init) + [e] == events + more;
    }
  }

  lemma HeardByThen(h: History, m: MsgId, upTo: nat)
    requires m in h.sentAt && h.sentAt[m] <= upTo <= |h.arrived|
    ensures Replies(HeardBy(h, m, upTo)) <= RepliesTo(h, m)
  {
    var log, n := h.arrived[h.sentAt[m]..|h.arrived|], upTo - h.sentAt[m];
    assert log[..n] == h.arrived[h.sentAt[m]..upTo];
    HeardOfPart(log, m, n);
  }

  /** Whoever was resolved early had been replied to twice. */
  lemma EarlyByTwo(c: Config, events: seq<Event>, m: MsgId)
    requires ResolvedEarly(c, After(c, events).h, m)
    ensures var h := After(c, events).h;
            m in h.sentAt && h.sentAt[m] <= |h.arrived| && RepliesTo(h, m) >= 2
  {
    var h := After(c, events).h;
    var id :| id in h.settled && ResolvedEarlyAs(c, h, id, m);
    var x := h.settled[id][0];
    assert SettlementTells(c, h, x) by {
      AfterInv(c, events);
    }
    CutShortByTwo(HeardBy(h, m, x.upTo), x.outcome.cause.reply, c.idleWaitMs, x.at);
    HeardByThen(h, m, x.upTo);
  }

  /**
   An execution in flight can still be resolved early, hearing no further reply, exactly when it has
   been replied to twice.
   */
  lemma ResolvesEarlyIffTwoReplies(c: Config, events: seq<Event>, m: MsgId)
    requires c.idleWaitMs > 0 && m in After(c, events).pending
    ensures var h := After(c, events).h;
            && m in h.sentAt && h.sentAt[m] <= |h.arrived|
            && (RepliesTo(h, m) >= 2 <==>
                exists more :: NoReplyTo(more, m) && ResolvedEarly(c, After(c, events + more).h, m))
  {
    var s := After(c, events);
    TwoRepliesIffStale(c, events, m);
    if RepliesTo(s.h, m) >= 2 {
      var k :| StaleTimer(s, m, k);
      var more := StaleTimerResolvesEarly(c, events, m, k);
    }
    forall more | NoReplyTo(more, m) && ResolvedEarly(c, After(c, events + more).h, m) ensures RepliesTo(s.h, m) >= 2 {
      RunReplies(c, events, more, m);
      EarlyByTwo(c, events + more, m);
    }
  }

  /** A kernel that replies twice before the idle, from the start. */
  lemma SomeRunHearsTwo(c: Config, m: MsgId) returns (events: seq<Event>)
    requires c.maxSize > 0
    ensures m in After(c, events).pending
    ensures var h := After(c, events).h;
            m in h.sentAt && h.sentAt[m] <= |h.arrived| && RepliesTo(h, m) >= 2
  {
    var reply := Message(m, ExecuteReply(Ok), 0);
    events := [Submits(Plain(m)), Hears(reply)];
    F.FoldOne(Stepper(c), Initial, Submits(Plain(m)));
    OneMore(c, [Submits(Plain(m))], Hears(reply));
    assert [Submits(Plain(m))] + [Hears(reply)] == events;
    SecondReplyLeavesStaleTimer(c, events, m, reply);
    var k := After(c, events).pending[m].wait.value.serial;
    events := events + [Hears(reply)];
    assert StaleTimer(After(c, events), m, k);
    TwoRepliesIffStale(c, events, m);
  }

  lemma ElapsesEarly(c: Config, events: seq<Event>, m: MsgId, k: nat)
    requires StaleTimer(After(c, events), m, k) && IdleTimerDue(After(c, events), k) && SentBefore(After(c, events))
    requires var s := After(c, events); !Waited(HeardBy(s.h, m, |s.h.arrived|), c.idleWaitMs, s.h.now)
    ensures ResolvedEarly(c, After(c, events + [IdleTimerElapses(k)]).h, m)
  {
    AfterInv(c, events);
    OneMore(c, events, IdleTimerElapses(k));
    StaleFires(c, After(c, events), m, k);
  }
}
