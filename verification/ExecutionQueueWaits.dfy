/**
 What an execution in flight has heard, and what it therefore waits for: after one reply that reply's
 idle, with its own fallback armed; after more, another fallback too. This holds between events, not
 between the moves of one.
 */
module ExecutionQueueWaits {
  import opened Wrappers
  import opened ExecutionQueueSpec
  import opened ExecutionQueueMoves
  import opened ExecutionQueueInvariants
  import opened ExecutionQueueTruth
  import opened ExecutionQueueTheorems

  /** Another reply's idle timer is still armed for `m`. */
  ghost predicate StaleTimer(s: State, m: MsgId, k: nat) {
    && m in s.pending && s.pending[m].wait.Some? && !s.pending[m].idle
    && k in s.idleTimers && s.idleTimers[k].msgId == m && k != s.pending[m].wait.value.serial
    && s.idleTimers[k].reply.kind.status != Aborted
  }

  /** The reply heard last. */
  function LastReply(heard: seq<Arrival>): Option<Message> {
    if heard == [] then None
    else
      var last := heard[|heard| - 1];
      if last.msg.kind.ExecuteReply? then Some(last.msg) else LastReply(heard[..|heard| - 1])
  }

  lemma LastReplyAppend(heard: seq<Arrival>, x: Arrival)
    ensures LastReply(heard + [x]) == if x.msg.kind.ExecuteReply? then Some(x.msg) else LastReply(heard)
  {
    assert (heard + [x])[..|heard|] == heard;
  }

  /** The record waits for its idle on the latest reply, until `wait` milliseconds after the latest message. */
  predicate WaitsOn(p: Pending, m: MsgId, timers: map<nat, IdleTimer>, heard: seq<Arrival>, wait: nat) {
    && p.wait.Some? && !p.idle && LastReply(heard) == Some(p.wait.value.reply)
    && p.wait.value.serial in timers && heard != []
    && timers[p.wait.value.serial] == IdleTimer(m, p.wait.value.reply, heard[|heard| - 1].at + wait)
  }

  /** `m` waits for its idle as soon as it has heard a reply, and has a stale timer once it has heard two. */
  ghost predicate Waits(c: Config, s: State, m: MsgId)
    requires SentBefore(s) && m in s.pending
  {
    var heard := HeardBy(s.h, m, |s.h.arrived|);
    && (Replies(heard) >= 1 ==> WaitsOn(s.pending[m], m, s.idleTimers, heard, c.idleWaitMs))
    && (Replies(heard) >= 2 ==> exists k :: StaleTimer(s, m, k))
  }

  ghost predicate NoneAborted(s: State) {
    forall k :: k in s.idleTimers ==> s.idleTimers[k].reply.kind.status != Aborted
  }

  ghost predicate Tidy(c: Config, s: State) {
    SentBefore(s) && NoneAborted(s) && forall m :: m in s.pending ==> Waits(c, s, m)
  }

  // ----- steps that hear nothing -----

  /** Nothing was heard; executions in flight are as before, or were just sent. */
  ghost predicate Calm(s: State, t: State) {
    && t.h.arrived == s.h.arrived
    && (forall m :: m in s.h.sentAt ==> m in t.h.sentAt && t.h.sentAt[m] == s.h.sentAt[m])
    && (forall m :: m in t.pending ==> StillThere(s, t, m) || JustSent(s, t, m))
    && (forall k :: k in t.idleTimers ==> k in s.idleTimers && t.idleTimers[k] == s.idleTimers[k])
    && (forall k :: k in s.idleTimers && s.idleTimers[k].msgId in t.pending ==> k in t.idleTimers)
  }

  predicate StillThere(s: State, t: State, m: MsgId) {
    m in s.pending && m in t.pending && t.pending[m] == s.pending[m]
  }

  predicate JustSent(s: State, t: State, m: MsgId) {
    m !in s.h.sentAt && m in t.h.sentAt && t.h.sentAt[m] == |t.h.arrived|
  }

  lemma CalmTidy(c: Config, s: State, t: State)
    requires SentBefore(s) && SentBefore(t) && Calm(s, t) && NoneAborted(s)
    requires forall m :: m in s.pending && StillThere(s, t, m) ==> Waits(c, s, m)
    ensures Tidy(c, t)
  {
    forall m | m in t.pending ensures Waits(c, t, m) {
      if StillThere(s, t, m) {
        assert HeardBy(t.h, m, |t.h.arrived|) == HeardBy(s.h, m, |s.h.arrived|);
        if Replies(HeardBy(s.h, m, |s.h.arrived|)) >= 2 {
          var k :| StaleTimer(s, m, k);
          assert StaleTimer(t, m, k);
        }
      } else {
        assert HeardBy(t.h, m, |t.h.arrived|) == [];
      }
    }
  }

  lemma HandOverCalm(s: State)
    requires Fresh(s) && s.queue != []
    ensures Calm(s, HandOverFirst(s))
  {
    assert s.queue[0] in s.queue;
  }

  lemma {:induction false} ProcessNextCalm(s: State)
    requires Fresh(s)
    ensures Calm(s, ProcessNext(s))
    decreases |s.queue|
  {
    if s.queue != [] {
      var t := HandOverFirst(s);
      HandOverCalm(s);
      HandOverFresh(s);
      if !s.queue[0].request.answer.Id? {
        ProcessNextCalm(t);
        assert t.pending == s.pending && t.h.sentAt == s.h.sentAt && t.idleTimers == s.idleTimers;
        assert Calm(s, ProcessNext(t));
      }
    }
  }

  /** What goes before, if it only takes executions away with their timers. */
  ghost predicate Fewer(s: State, u: State) {
    && u.h.arrived == s.h.arrived && u.h.sentAt == s.h.sentAt
    && (forall m :: m in u.pending ==> m in s.pending && u.pending[m] == s.pending[m])
    && (forall k :: k in u.idleTimers ==> k in s.idleTimers && u.idleTimers[k] == s.idleTimers[k])
    && (forall k :: k in s.idleTimers && k !in u.idleTimers ==> s.idleTimers[k].msgId !in u.pending)
  }

  lemma FewerCalm(s: State, u: State, t: State)
    requires Fresh(s) && Fewer(s, u) && Calm(u, t)
    ensures Calm(s, t)
  {
  }

  lemma FinishCalm(s: State, m: MsgId, o: Outcome, timers: set<nat>)
    requires Fresh(s) && m in s.pending && forall k :: k in timers && k in s.idleTimers ==> s.idleTimers[k].msgId == m
    ensures Calm(s, Finish(s.(idleTimers := s.idleTimers - timers), m, o))
    ensures m !in Finish(s.(idleTimers := s.idleTimers - timers), m, o).pending
  {
    var u := Land(s.(idleTimers := s.idleTimers - timers), m, o);
    assert Fresh(u);
    ProcessNextCalm(u);
    FewerCalm(s, u, ProcessNext(u));
    assert m in u.h.sentAt;
  }

  lemma AbortedFresh(s: State, abort: bool)
    requires Fresh(s)
    ensures Fresh(AbortIf(s, abort)) && Fewer(s, AbortIf(s, abort))
  {
  }

  lemma FinishByReplyCalm(s: State, m: MsgId, reply: ReplyMessage, timers: set<nat>)
    requires Fresh(s) && m in s.pending && forall k :: k in timers && k in s.idleTimers ==> s.idleTimers[k].msgId == m
    ensures var t := FinishByReply(s.(idleTimers := s.idleTimers - timers), m, reply);
            Calm(s, t) && m !in t.pending
  {
    var abort := reply.kind.status != Ok && s.pending[m].item.request.stopOnError;
    AbortedFresh(s, abort);
    var u := AbortIf(s, abort);
    var o := ReplyOutcome(s, m, reply);
    FinishCalm(u, m, o, timers);
    assert u.(idleTimers := u.idleTimers - timers) == AbortIf(s.(idleTimers := s.idleTimers - timers), abort);
    FewerCalm(s, u, Finish(u.(idleTimers := u.idleTimers - timers), m, o));
  }

  lemma FailCalm(s: State, m: MsgId, o: Outcome, abort: bool)
    requires Fresh(s) && m in s.pending
    ensures var t := Finish(AbortIf(s, abort), m, o); Calm(s, t) && m !in t.pending
  {
    AbortedFresh(s, abort);
    var u := AbortIf(s, abort);
    FinishCalm(u, m, o, {});
    assert u.(idleTimers := u.idleTimers - {}) == u;
    FewerCalm(s, u, Finish(u, m, o));
  }

  // ----- every event -----

  /** Whether the message ends its execution. */
  predicate Ends(s: State, msg: Message) {
    && msg.parent in s.pending
    && match msg.kind
       case Status(idle) => idle && s.pending[msg.parent].wait.Some?
       case ErrorReport => true
       case ExecuteReply(status) => s.pending[msg.parent].idle || status == Aborted
       case _ => false
  }

  /** The reply waited on has its timer armed. */
  predicate WaitArmed(s: State, m: MsgId) {
    m in s.pending && s.pending[m].wait.Some? ==>
      s.pending[m].wait.value.serial in s.idleTimers && s.idleTimers[s.pending[m].wait.value.serial].msgId == m
  }

  lemma IdleCalm(c: Config, s: State, msg: Message)
    requires Fresh(s) && WaitArmed(s, msg.parent) && Ends(s, msg) && msg.kind.Status?
    ensures Calm(Note(c, s, msg), HandleMessage(c, s, msg)) && msg.parent !in HandleMessage(c, s, msg).pending
  {
    var m, t, w := msg.parent, Note(c, s, msg), s.pending[msg.parent].wait.value;
    NoteChanges(c, s, msg);
    NoteFresh(s, t, m);
    FinishByReplyCalm(t, m, w.reply, {w.serial});
    assert HandleMessage(c, s, msg) == FinishByReply(t.(idleTimers := t.idleTimers - {w.serial}), m, w.reply);
  }

  lemma ReplyCalm(c: Config, s: State, msg: Message)
    requires Fresh(s) && Ends(s, msg) && msg.kind.ExecuteReply?
    ensures Calm(Note(c, s, msg), HandleMessage(c, s, msg)) && msg.parent !in HandleMessage(c, s, msg).pending
  {
    var m, t := msg.parent, Note(c, s, msg);
    NoteChanges(c, s, msg);
    NoteFresh(s, t, m);
    FinishByReplyCalm(t, m, msg, {});
    assert t.(idleTimers := t.idleTimers - {}) == t;
    assert HandleMessage(c, s, msg) == FinishByReply(t, m, msg);
  }

  lemma ErrorCalm(c: Config, s: State, msg: Message)
    requires Fresh(s) && Ends(s, msg) && msg.kind.ErrorReport?
    ensures Calm(Note(c, s, msg), HandleMessage(c, s, msg)) && msg.parent !in HandleMessage(c, s, msg).pending
  {
    var m, t := msg.parent, Note(c, s, msg);
    NoteChanges(c, s, msg);
    NoteFresh(s, t, m);
    FailCalm(t, m, ErrorOutcome(t, m, msg), s.pending[m].item.request.stopOnError);
  }

  /** A message is noted, and then ends its execution or does nothing more. */
  lemma HearsCalm(c: Config, s: State, msg: Message)
    requires Fresh(s) && WaitArmed(s, msg.parent)
    ensures Calm(Note(c, s, msg), HandleMessage(c, s, msg))
    ensures if Ends(s, msg) then msg.parent !in HandleMessage(c, s, msg).pending
            else HandleMessage(c, s, msg) == Note(c, s, msg)
  {
    if Ends(s, msg) {
      match msg.kind
      case Status(_) => IdleCalm(c, s, msg);
      case ErrorReport => ErrorCalm(c, s, msg);
      case ExecuteReply(_) => ReplyCalm(c, s, msg);
    }
  }

  /** An event that is no message. */
  lemma OtherCalm(c: Config, s: State, e: Event)
    requires Fresh(s) && !e.Hears?
    ensures Calm(s, Step(c, s, e))
  {
    if Enabled(s, e) {
      match e
      case Submits(r) =>
        var u := Count(s, r).(queue := s.queue + [Item(s.h.submitted, r)]);
        if |s.queue| < c.maxSize && !s.executing {
          FreshMove(c, s, Accept(r));
          ProcessNextCalm(u);
          FewerCalm(s, u, ProcessNext(u));
        }
      case Resumes(m) =>
        var u := s.(resuming := s.resuming - {m});
        ProcessNextCalm(u);
        FewerCalm(s, u, ProcessNext(u));
      case IdleTimerElapses(k) =>
        if s.idleTimers[k].msgId in s.pending {
          FinishByReplyCalm(s, s.idleTimers[k].msgId, s.idleTimers[k].reply, {k});
        }
      case _ =>
    }
  }

  /** A message restarts the wait there is, and a reply that has to wait starts its own. */
  lemma NotedWaitsOn(c: Config, m: MsgId, p: Pending, msg: Message, timers: map<nat, IdleTimer>, serial: nat,
                     heard: seq<Arrival>, x: Arrival)
    requires x.msg == msg && LastReply(heard + [x]) == (if msg.kind.ExecuteReply? then Some(msg) else LastReply(heard))
    requires StartsWait(p, msg)
          || (!msg.kind.ExecuteReply? && msg.kind != Status(true) && WaitsOn(p, m, timers, heard, c.idleWaitMs))
    ensures WaitsOn(NotedRecord(p, msg, serial), m, NotedTimers(c, m, p, msg, timers, serial, x.at), heard + [x],
                    c.idleWaitMs)
  {
  }

  lemma NotedWaits(c: Config, s: State, t: State, msg: Message, heard: seq<Arrival>, x: Arrival)
    requires msg.parent in s.pending && !Ends(s, msg) && x == Arrival(msg, s.h.now)
    requires SentBefore(s) && SentBefore(t) && NoneAborted(s) && Waits(c, s, msg.parent) && s.h.replies !in s.idleTimers
    requires t.pending == s.pending[msg.parent := NotedRecord(s.pending[msg.parent], msg, s.h.replies)]
    requires t.idleTimers == NotedTimers(c, msg.parent, s.pending[msg.parent], msg, s.idleTimers, s.h.replies, s.h.now)
    requires HeardBy(s.h, msg.parent, |s.h.arrived|) == heard && HeardBy(t.h, msg.parent, |t.h.arrived|) == heard + [x]
    requires WaitTells(c, msg.parent, s.pending[msg.parent], s.idleTimers, heard)
    ensures Waits(c, t, msg.parent)
  {
    var m, p := msg.parent, s.pending[msg.parent];
    ReadAppend(heard, x);
    LastReplyAppend(heard, x);
    if Replies(heard + [x]) >= 1 {
      NotedWaitsOn(c, m, p, msg, s.idleTimers, s.h.replies, heard, x);
    }
    if msg.kind.ExecuteReply? {
      if p.wait.Some? {
        assert StaleTimer(t, m, p.wait.value.serial);
      }
    } else if Replies(heard) >= 2 {
      var k :| StaleTimer(s, m, k);
      assert StaleTimer(t, m, k);
    }
  }

  lemma NotedNoneAborted(c: Config, s: State, msg: Message)
    requires Inv(c, s) && NoneAborted(s)
    ensures NoneAborted(Note(c, s, msg))
  {
    if msg.parent in s.pending {
      NoteIs(c, s, msg);
      assert WaitTells(c, msg.parent, s.pending[msg.parent], s.idleTimers, HeardBy(s.h, msg.parent, |s.h.arrived|));
    }
  }

  /** A message that ends nothing leaves its execution waiting as it should. */
  lemma OwnWaits(c: Config, s: State, msg: Message)
    requires Inv(c, s) && Tidy(c, s) && msg.parent in s.pending && !Ends(s, msg)
    ensures var t := Note(c, s, msg); SentBefore(t) && msg.parent in t.pending && Waits(c, t, msg.parent)
  {
    var m, t, x := msg.parent, Note(c, s, msg), Arrival(msg, s.h.now);
    NoteIs(c, s, msg);
    NoteTimely(c, s, msg);
    HeardByGrows(s, msg, m);
    var heard := HeardBy(s.h, m, |s.h.arrived|);
    assert HeardBy(t.h, m, |t.h.arrived|) == heard + [x];
    assert WaitTells(c, m, s.pending[m], s.idleTimers, heard);
    NotedWaits(c, s, t, msg, heard, x);
  }

  /** Another's message touches neither its record nor its timers. */
  lemma NotedForOthers(c: Config, s: State, msg: Message, n: MsgId)
    requires Inv(c, s) && n in s.pending && n != msg.parent
    ensures var t := Note(c, s, msg);
            && SentBefore(t) && n in t.pending && t.pending[n] == s.pending[n]
            && (forall k :: k in s.idleTimers && s.idleTimers[k].msgId == n ==>
                  k in t.idleTimers && t.idleTimers[k] == s.idleTimers[k])
            && HeardBy(t.h, n, |t.h.arrived|) == HeardBy(s.h, n, |s.h.arrived|)
  {
    HeardByGrows(s, msg, n);
    if msg.parent in s.pending {
      NoteIs(c, s, msg);
      NoteTimely(c, s, msg);
      assert WaitTells(c, msg.parent, s.pending[msg.parent], s.idleTimers, HeardBy(s.h, msg.parent, |s.h.arrived|));
    }
  }

  lemma OthersWait(c: Config, s: State, msg: Message, n: MsgId)
    requires Inv(c, s) && Tidy(c, s) && n in s.pending && n != msg.parent
    ensures var t := Note(c, s, msg); SentBefore(t) && n in t.pending && Waits(c, t, n)
  {
    var t := Note(c, s, msg);
    NotedForOthers(c, s, msg, n);
    if Replies(HeardBy(s.h, n, |s.h.arrived|)) >= 2 {
      var k :| StaleTimer(s, n, k);
      assert StaleTimer(t, n, k);
    }
  }

  lemma HearsTidy(c: Config, s: State, msg: Message)
    requires Inv(c, s) && Tidy(c, s)
    ensures Tidy(c, HandleMessage(c, s, msg))
  {
    var n, t := Note(c, s, msg), HandleMessage(c, s, msg);
    if msg.parent in s.pending {
      assert WaitTells(c, msg.parent, s.pending[msg.parent], s.idleTimers, HeardBy(s.h, msg.parent, |s.h.arrived|));
      if !Ends(s, msg) {
        OwnWaits(c, s, msg);
      }
    }
    HearsCalm(c, s, msg);
    NotedNoneAborted(c, s, msg);
    NoteChanges(c, s, msg);
    StepIsSentBefore(c, s, Hears(msg));
    forall m | m in n.pending && StillThere(n, t, m) ensures Waits(c, n, m) {
      if m != msg.parent {
        OthersWait(c, s, msg, m);
      }
    }
    CalmTidy(c, n, t);
  }

  lemma StepIsSentBefore(c: Config, s: State, e: Event)
    requires Inv(c, s)
    ensures SentBefore(Step(c, s, e))
  {
    InvKept(c);
    StepKeeps(c, s => Inv(c, s), s, e);
  }

  lemma StepTidy(c: Config, s: State, e: Event)
    requires Inv(c, s) && Tidy(c, s)
    ensures Tidy(c, Step(c, s, e))
  {
    match e
    case Hears(msg) => HearsTidy(c, s, msg);
    case _ =>
      OtherCalm(c, s, e);
      StepIsSentBefore(c, s, e);
      CalmTidy(c, s, Step(c, s, e));
  }

  /** After every run, whoever has heard a reply waits, and whoever has heard two has a stale timer. */
  lemma {:induction false} AfterTidy(c: Config, events: seq<Event>)
    ensures Tidy(c, After(c, events))
    decreases |events|
  {
    if events != [] {
      var init, e := events[..|events| - 1], events[|events| - 1];
      AfterTidy(c, init);
      AfterInv(c, init);
      OneMore(c, init, e);
      assert events == init + [e];
      StepTidy(c, After(c, init), e);
    }
  }

  /** A second reply is heard exactly by whom another timer is armed for. */
  lemma TwoRepliesIffStale(c: Config, events: seq<Event>, m: MsgId)
    requires m in After(c, events).pending
    ensures var s := After(c, events);
            && m in s.h.sentAt && s.h.sentAt[m] <= |s.h.arrived|
            && (Replies(HeardBy(s.h, m, |s.h.arrived|)) >= 2 <==> exists k :: StaleTimer(s, m, k))
  {
    var s := After(c, events);
    AfterTidy(c, events);
    AfterInv(c, events);
    var heard := HeardBy(s.h, m, |s.h.arrived|);
    assert WaitTells(c, m, s.pending[m], s.idleTimers, heard);
    assert Waits(c, s, m);
    if k :| StaleTimer(s, m, k) {
      CutShortByTwo(heard, s.idleTimers[k].reply, c.idleWaitMs, s.idleTimers[k].deadline);
    }
  }
}
