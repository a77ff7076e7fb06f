/** What the execution queue promises over every run of submissions, messages, timers and clears. */
module ExecutionQueueTheorems {
  import opened Wrappers
  import opened ExecutionQueueSpec
  import opened ExecutionQueueMoves
  import opened ExecutionQueueInvariants
  import opened ExecutionQueueTruth

  ghost predicate Inv(c: Config, s: State) {
    Fresh(s) && Conserved(s) && Ordered(s) && Truthful(c, s)
  }

  lemma InvKept(c: Config)
    ensures KeptByMoves(c, s => Inv(c, s))
  {
    forall s, v | Inv(c, s) && Can(c, s, v) ensures Inv(c, Apply(c, s, v)) {
      FreshMove(c, s, v);
      ConservedMove(c, s, v);
      OrderedMove(c, s, v);
      TruthfulMove(c, s, v);
    }
  }

  /** Every reachable state keeps the invariants. */
  lemma RunInv(c: Config, s: State, events: seq<Event>)
    requires Inv(c, s)
    ensures Inv(c, Run(c, s, events))
  {
    InvKept(c);
    RunKeeps(c, s => Inv(c, s), s, events);
  }

  lemma InitialInv(c: Config)
    ensures Inv(c, Initial)
  {
    assert Fresh(Initial);
    InitialConserved();
    InitialOrdered();
    assert Truthful(c, Initial);
  }

  lemma InitialConserved()
    ensures Conserved(Initial)
  {
  }

  lemma InitialOrdered()
    ensures Ordered(Initial)
  {
  }

  lemma AfterInv(c: Config, events: seq<Event>)
    ensures Inv(c, After(c, events))
  {
    InitialInv(c);
    RunInv(c, Initial, events);
  }

  // ----- exactly once -----

  /** Every submission is in exactly one place, and a settled one was settled once. */
  lemma ExactlyOnce(c: Config, events: seq<Event>, id: nat)
    requires id < After(c, events).h.submitted
    ensures var s := After(c, events);
            && (id in s.h.settled ==> |s.h.settled[id]| == 1 && id !in IdsOf(s.queue) && id !in IdsInFlight(s.pending))
            && (id !in s.h.settled ==> (id in IdsOf(s.queue) <==> id !in IdsInFlight(s.pending)))
            && (forall i, j :: 0 <= i < j < |s.queue| ==> s.queue[i].id != s.queue[j].id)
            && (forall m, n :: m in s.pending && n in s.pending && m != n ==>
                 s.pending[m].item.id != s.pending[n].item.id)
  {
    AfterInv(c, events);
  }

  /** How often an item of this submission was given to addon.execute(): the items that were. */
  ghost function HandedOf(h: History, id: nat): set<Item> {
    set item | item in h.handed && item.id == id
  }

  ghost predicate SettledAs(s: State, id: nat, x: seq<Settlement>, handed: set<Item>) {
    id in s.h.settled && s.h.settled[id] == x && HandedOf(s.h, id) == handed
  }

  lemma HandOverKeepsSettled(s: State, id: nat)
    requires Conserved(s) && s.queue != [] && id in s.h.settled
    ensures SettledAs(HandOverFirst(s), id, s.h.settled[id], HandedOf(s.h, id))
  {
    var t := HandOverFirst(s);
    assert s.queue[0] in s.queue && s.queue[0].id in IdsOf(s.queue);
    assert t.h.handed == s.h.handed + [s.queue[0]];
    assert HandedOf(t.h, id) == HandedOf(s.h, id);
  }

  lemma LandKeepsSettled(s: State, m: MsgId, o: Outcome, id: nat)
    requires Conserved(s) && m in s.pending && id in s.h.settled
    ensures SettledAs(Land(s, m, o), id, s.h.settled[id], HandedOf(s.h, id))
  {
    assert s.pending[m].item.id in IdsInFlight(s.pending);
  }

  lemma SettledMove(c: Config, s: State, v: Move, id: nat)
    requires Conserved(s) && Can(c, s, v) && id in s.h.settled
    ensures SettledAs(Apply(c, s, v), id, s.h.settled[id], HandedOf(s.h, id))
  {
    match v
    case HandOver => HandOverKeepsSettled(s, id);
    case Hear(msg) => NoteChanges(c, s, msg);
    case LandByError(report) => LandKeepsSettled(s, report.parent, ErrorOutcome(s, report.parent, report), id);
    case LandByReply(m, reply, _) => LandKeepsSettled(s, m, ReplyOutcome(s, m, reply), id);
    case LandByTimeout(m) =>
      LandKeepsSettled(s, m, Rejected(TimedOut(s.pending[m].item.request.interruptOnTimeout && c.interrupts)), id);
    case _ =>
  }

  lemma StaysSettled(c: Config, s: State, more: seq<Event>, id: nat)
    requires Inv(c, s) && id in s.h.settled
    ensures SettledAs(Run(c, s, more), id, s.h.settled[id], HandedOf(s.h, id))
  {
    var x, handed := s.h.settled[id], HandedOf(s.h, id);
    var inv: State -> bool := t => Inv(c, t) && SettledAs(t, id, x, handed);
    InvKept(c);
    forall t, v | inv(t) && Can(c, t, v) ensures inv(Apply(c, t, v)) {
      assert (q => Inv(c, q))(Apply(c, t, v));
      SettledMove(c, t, v, id);
    }
    RunKeeps(c, inv, s, more);
  }

  /** A settlement is final: nothing later changes or repeats it, or hands its item over. */
  lemma SettledForGood(c: Config, events: seq<Event>, more: seq<Event>, id: nat)
    requires id in After(c, events).h.settled
    ensures id in After(c, events + more).h.settled
    ensures After(c, events + more).h.settled[id] == After(c, events).h.settled[id]
    ensures HandedOf(After(c, events + more).h, id) == HandedOf(After(c, events).h, id)
  {
    AfterInv(c, events);
    RunAppend(c, Initial, events, more);
    StaysSettled(c, After(c, events), more, id);
  }

  // ----- nothing hangs without a reason -----

  /**
   An execution in flight has its timeout armed, or the idle fallback of a reply it heard, or it
   had no timeout, or the kernel asked its user for input.
   */
  lemma NeverStuck(c: Config, events: seq<Event>, m: MsgId)
    requires m in After(c, events).pending
    ensures var s := After(c, events);
            && m in s.h.sentAt && s.h.sentAt[m] <= |s.h.arrived|
            && (|| TimerArmed(s, m)
                || (exists k :: k in s.idleTimers && s.idleTimers[k].msgId == m)
                || TimeoutMs(s.pending[m].item.request) <= 0
                || Said(HeardBy(s.h, m, |s.h.arrived|), InputRequest))
            && (s.pending[m].wait.Some? ==> exists k :: k in s.idleTimers && s.idleTimers[k].msgId == m)
  {
    AfterInv(c, events);
    var s := After(c, events);
    assert RecordTells(s.pending[m], HeardBy(s.h, m, |s.h.arrived|));
    assert WaitTells(c, m, s.pending[m], s.idleTimers, HeardBy(s.h, m, |s.h.arrived|));
  }

  // ----- the order of handing over -----

  /**
   Items are handed over in submission order, and what was skipped is what was settled unsent: a
   submission that never reached the kernel is still queued, or settled with an outcome that says so.
   */
  lemma HandedInOrder(c: Config, events: seq<Event>)
    ensures var s := After(c, events);
            && (forall i, j :: 0 <= i < j < |s.h.handed| ==> s.h.handed[i].id < s.h.handed[j].id)
            && (forall a, b :: a in s.h.handed && b in s.queue ==> a.id < b.id)
            && (forall id: nat :: id < s.h.submitted && !WasSent(s.h, id) ==> id in IdsOf(s.queue) || id in s.h.settled)
            && (forall id :: id in s.h.settled ==>
                  s.h.settled[id] != [] && AgreesWithSent(s.h.settled[id][0].outcome, WasSent(s.h, id)))
  {
    var s := After(c, events);
    AfterInv(c, events);
    QueuedNotHanded(s.queue, s.h);
    assert forall i :: 0 <= i < |s.h.handed| ==> (s.h.handed + s.queue)[i] == s.h.handed[i];
    forall id | id in IdsInFlight(s.pending) ensures WasSent(s.h, id) {
      var m :| m in s.pending && s.pending[m].item.id == id;
      InFlightWasSent(s, m);
    }
  }

  /** Where the first item that reaches the kernel is. */
  function FirstSendable(queue: seq<Item>): (k: nat)
    ensures k <= |queue|
    ensures k < |queue| ==> queue[k].request.answer.Id?
    ensures forall i :: 0 <= i < k ==> !queue[i].request.answer.Id?
  {
    if queue == [] || queue[0].request.answer.Id? then 0 else 1 + FirstSendable(queue[1..])
  }

  /** `t` is `s` after the first `k` items were refused, and the next one sent if there is one. */
  ghost predicate HandedUpTo(s: State, t: State, k: nat)
    requires k < |s.queue| ==> s.queue[k].request.answer.Id?
  {
    && t.resuming == s.resuming && t.idleTimers == s.idleTimers
    && if k >= |s.queue|
       then !t.executing && t.queue == [] && t.pending == s.pending && t.h.handed == s.h.handed + s.queue
       else
         var m := s.queue[k].request.answer.msgId;
         && t.executing && t.queue == s.queue[k + 1..] && t.h.handed == s.h.handed + s.queue[..k + 1]
         && m in t.pending && t.pending[m].item == s.queue[k]
         && t.pending == s.pending[m := t.pending[m]]
  }

  /**
   processNext() hands over items until the kernel takes one, however many the addon refuses, and
   stops executing when none is left.
   */
  lemma {:induction false} ProcessNextStopsAtFirstSent(s: State)
    ensures HandedUpTo(s, ProcessNext(s), FirstSendable(s.queue))
    decreases |s.queue|
  {
    if s.queue == [] {
    } else if s.queue[0].request.answer.Id? {
      assert s.queue[..1] == [s.queue[0]];
    } else {
      var u := HandOverFirst(s);
      ProcessNextStopsAtFirstSent(u);
      HandedOneEarlier(s, u, ProcessNext(u), FirstSendable(u.queue));
    }
  }

  lemma HandedOneEarlier(s: State, u: State, t: State, k: nat)
    requires s.queue != [] && u.queue == s.queue[1..] && u.h.handed == s.h.handed + [s.queue[0]]
    requires u.pending == s.pending && u.resuming == s.resuming && u.idleTimers == s.idleTimers
    requires k <= |u.queue| && (k < |u.queue| ==> u.queue[k].request.answer.Id?)
    requires HandedUpTo(u, t, k)
    ensures HandedUpTo(s, t, k + 1)
  {
    assert s.queue == [s.queue[0]] + u.queue;
    if k < |u.queue| {
      assert s.queue[..k + 2] == [s.queue[0]] + u.queue[..k + 1];
    }
  }

  // ----- a failure takes the queue down (stopOnError) -----

  /** `e` ends the in-flight execution `m` by an error message or a reply whose status is not ok. */
  ghost predicate FailsNow(c: Config, s: State, e: Event, m: MsgId) {
    && m in s.pending
    && Enabled(s, e)
    && match e
       case Hears(msg) =>
         && msg.parent == m
         && (match msg.kind
             case ErrorReport => true
             case ExecuteReply(status) => status != Ok && (s.pending[m].idle || status == Aborted)
             case Status(idle) => idle && s.pending[m].wait.Some? && s.pending[m].wait.value.reply.kind.status != Ok
             case _ => false)
       case IdleTimerElapses(k) => s.idleTimers[k].msgId == m && s.idleTimers[k].reply.kind.status != Ok
       case _ => false
  }

  ghost predicate AllAborted(s: State, t: State) {
    && t.queue == [] && !t.executing && t.h.handed == s.h.handed && t.h.submitted == s.h.submitted
    && (forall item :: item in s.queue ==>
          item.id in t.h.settled && t.h.settled[item.id] != []
          && t.h.settled[item.id][|t.h.settled[item.id]| - 1].outcome == Resolved(AbortedResult, ByAbort))
  }

  lemma AbortThenFinish(s: State, m: MsgId, o: Outcome)
    requires m in s.pending && s.pending[m].item.id !in IdsOf(s.queue)
    ensures AllAborted(s, Finish(AbortQueued(s), m, o))
  {
    forall item | item in s.queue ensures item.id in IdsOf(s.queue) {}
  }

  lemma ReplyFailureAborts(s: State, t: State, m: MsgId, reply: ReplyMessage)
    requires t.queue == s.queue && t.h.handed == s.h.handed && t.h.submitted == s.h.submitted
    requires m in t.pending && t.pending[m].item.request.stopOnError && t.pending[m].item.id !in IdsOf(t.queue)
    requires reply.kind.status != Ok
    ensures AllAborted(s, FinishByReply(t, m, reply))
  {
    AbortThenFinish(t, m, Resolved(ReplyResult(reply.kind.status, t.pending[m].output), ByReply(reply)));
  }

  lemma ErrorAborts(c: Config, s: State, msg: Message)
    requires Inv(c, s) && FailsNow(c, s, Hears(msg), msg.parent) && s.pending[msg.parent].item.request.stopOnError
    requires msg.kind.ErrorReport?
    ensures AllAborted(s, HandleMessage(c, s, msg))
  {
    var m := msg.parent;
    assert s.pending[m].item.id in IdsInFlight(s.pending);
    var u := Push(RestartIdleWait(c, Arrive(s, msg), m), m, msg);
    AbortThenFinish(u, m, Resolved(Result(false, Some(Failed), false, u.pending[m].output), ByError(msg)));
  }

  lemma HearsFailureAborts(c: Config, s: State, msg: Message)
    requires Inv(c, s) && FailsNow(c, s, Hears(msg), msg.parent) && s.pending[msg.parent].item.request.stopOnError
    ensures AllAborted(s, HandleMessage(c, s, msg))
  {
    var m := msg.parent;
    assert s.pending[m].item.id in IdsInFlight(s.pending);
    var t := RestartIdleWait(c, Arrive(s, msg), m);
    match msg.kind
    case ErrorReport => ErrorAborts(c, s, msg);
    case ExecuteReply(_) => ReplyFailureAborts(s, t, m, msg);
    case Status(_) =>
      var w, u := s.pending[m].wait.value, Update(t, m, t.pending[m].(idle := true));
      ReplyFailureAborts(s, u.(idleTimers := u.idleTimers - {w.serial}), m, w.reply);
  }

  lemma FailureAborts(c: Config, s: State, e: Event, m: MsgId)
    requires Inv(c, s) && FailsNow(c, s, e, m) && s.pending[m].item.request.stopOnError
    ensures AllAborted(s, Step(c, s, e))
  {
    match e
    case Hears(msg) => HearsFailureAborts(c, s, msg);
    case IdleTimerElapses(k) =>
      assert s.pending[m].item.id in IdsInFlight(s.pending);
      ReplyFailureAborts(s, s.(idleTimers := s.idleTimers - {k}), m, s.idleTimers[k].reply);
  }

  /** From a state where everything that was queued in `s` is aborted, it stays so. */
  lemma AbortedForGood(c: Config, s: State, t: State, more: seq<Event>, item: Item)
    requires Inv(c, s) && Inv(c, t) && AllAborted(s, t) && item in s.queue
    ensures SettledAs(Run(c, t, more), item.id, t.h.settled[item.id], {})
    ensures |t.h.settled[item.id]| == 1 && t.h.settled[item.id][0].outcome == Resolved(AbortedResult, ByAbort)
  {
    QueuedNotHanded(s.queue, s.h);
    assert HandedOf(t.h, item.id) == {};
    StaysSettled(c, t, more, item.id);
  }

  /** An idle, empty queue hands a submission over at once. */
  lemma RunsAtOnce(c: Config, t: State, r: Request)
    requires t.queue == [] && !t.executing && Enabled(t, Submits(r)) && c.maxSize > 0
    ensures Step(c, t, Submits(r)).h.handed == t.h.handed + [Item(t.h.submitted, r)]
  {
    var item := Item(t.h.submitted, r);
    var u := Count(t, r).(queue := t.queue + [item]);
    assert u.queue == [item] && u.queue[..1] == [item];
    ProcessNextStopsAtFirstSent(u);
  }

  /**
   When an execution submitted with stopOnError fails, everything queued at that moment is resolved
   as aborted, once, and never handed over, whatever happens later.
   */
  lemma FailureTakesTheQueueDown(c: Config, events: seq<Event>, e: Event, m: MsgId, more: seq<Event>)
    requires FailsNow(c, After(c, events), e, m)
    requires After(c, events).pending[m].item.request.stopOnError
    ensures var later := After(c, events + [e] + more);
            forall item :: item in After(c, events).queue ==>
              && item.id in later.h.settled
              && |later.h.settled[item.id]| == 1
              && later.h.settled[item.id][0].outcome == Resolved(AbortedResult, ByAbort)
              && HandedOf(later.h, item.id) == {}
  {
    var s, t := After(c, events), After(c, events + [e]);
    AfterInv(c, events);
    AfterInv(c, events + [e]);
    OneMore(c, events, e);
    FailureAborts(c, s, e, m);
    RunAppend(c, Initial, events + [e], more);
    forall item | item in s.queue
      ensures SettledAs(Run(c, t, more), item.id, t.h.settled[item.id], {})
      ensures |t.h.settled[item.id]| == 1 && t.h.settled[item.id][0].outcome == Resolved(AbortedResult, ByAbort)
    {
      AbortedForGood(c, s, t, more, item);
    }
  }

  /** ... while the next submission after the failure runs. */
  lemma SubmissionAfterFailureRuns(c: Config, events: seq<Event>, e: Event, m: MsgId, r: Request)
    requires FailsNow(c, After(c, events), e, m)
    requires After(c, events).pending[m].item.request.stopOnError
    requires c.maxSize > 0 && Enabled(After(c, events + [e]), Submits(r))
    ensures var t := After(c, events + [e]);
            After(c, events + [e] + [Submits(r)]).h.handed == t.h.handed + [Item(t.h.submitted, r)]
  {
    AfterInv(c, events);
    OneMore(c, events, e);
    OneMore(c, events + [e], Submits(r));
    FailureAborts(c, After(c, events), e, m);
    RunsAtOnce(c, After(c, events + [e]), r);
  }

  lemma OneMore(c: Config, events: seq<Event>, e: Event)
    ensures After(c, events + [e]) == Step(c, After(c, events), e)
  {
    assert (events + [e])[..|events|] == events;
  }

  // ----- single flight -----

  /** One execution at a time, or one interrupt to wait for; and neither exactly when not executing. */
  ghost predicate Solo(s: State) {
    && (s.queue != [] ==> s.executing)
    && (s.executing <==> s.pending != map[] || s.resuming != {})
    && (forall m, n :: m in s.pending && n in s.pending ==> m == n)
    && (forall m, n :: m in s.resuming && n in s.resuming ==> m == n)
    && (s.pending == map[] || s.resuming == {})
  }

  /** clear() never falls between a timeout and its interrupt's answer. */
  ghost predicate ClearsInPeace(c: Config, s: State, events: seq<Event>) {
    forall i :: 0 <= i < |events| && events[i] == Clears ==> Run(c, s, events[..i]).resuming == {}
  }

  lemma ProcessNextSolo(s: State)
    requires s.pending == map[] && s.resuming == {}
    ensures Solo(ProcessNext(s))
  {
    ProcessNextStopsAtFirstSent(s);
  }

  lemma FinishSolo(s: State, m: MsgId, o: Outcome)
    requires s.resuming == {} && m in s.pending && (forall n :: n in s.pending ==> n == m)
    ensures Solo(Finish(s, m, o))
  {
    var t := s.(pending := s.pending - {m}, h := Settle(s.h, s.pending[m].item.id, o, Some(m)));
    assert t.pending == map[];
    ProcessNextSolo(t);
  }

  lemma FinishByReplySolo(s: State, m: MsgId, reply: ReplyMessage)
    requires s.resuming == {} && m in s.pending && (forall n :: n in s.pending ==> n == m)
    ensures Solo(FinishByReply(s, m, reply))
  {
    var t := AbortIf(s, reply.kind.status != Ok && s.pending[m].item.request.stopOnError);
    FinishSolo(t, m, Resolved(ReplyResult(reply.kind.status, s.pending[m].output), ByReply(reply)));
  }

  lemma HearsSolo(c: Config, s: State, msg: Message)
    requires Solo(s)
    ensures Solo(HandleMessage(c, s, msg))
  {
    var m := msg.parent;
    if m in s.pending {
      var t := RestartIdleWait(c, Arrive(s, msg), m);
      assert t.pending == s.pending && t.resuming == {} && t.executing && t.queue == s.queue;
      match msg.kind
      case Status(idle) =>
        if idle && s.pending[m].wait.Some? {
          var u := Update(t, m, t.pending[m].(idle := true));
          FinishByReplySolo(u.(idleTimers := u.idleTimers - {s.pending[m].wait.value.serial}), m,
              s.pending[m].wait.value.reply);
        }
      case ErrorReport =>
        var u := AbortIf(Push(t, m, msg), s.pending[m].item.request.stopOnError);
        FinishSolo(u, m, Resolved(Result(false, Some(Failed), false, u.pending[m].output), ByError(msg)));
      case ExecuteReply(status) =>
        if s.pending[m].idle || status == Aborted {
          FinishByReplySolo(t, m, msg);
        }
      case _ =>
    }
  }

  lemma StepSolo(c: Config, s: State, e: Event)
    requires Solo(s) && (e == Clears ==> s.resuming == {})
    ensures Solo(Step(c, s, e))
  {
    if Enabled(s, e) {
      match e
      case Submits(r) =>
        if |s.queue| < c.maxSize && !s.executing {
          ProcessNextSolo(Count(s, r).(queue := s.queue + [Item(s.h.submitted, r)]));
        }
      case Hears(msg) => HearsSolo(c, s, msg);
      case TimesOut(m) => assert TimeOut(c, s, m).pending == map[];
      case Resumes(m) => ProcessNextSolo(s.(resuming := s.resuming - {m}));
      case IdleTimerElapses(k) =>
        if s.idleTimers[k].msgId in s.pending {
          FinishByReplySolo(s.(idleTimers := s.idleTimers - {k}), s.idleTimers[k].msgId, s.idleTimers[k].reply);
        }
      case _ =>
    }
  }

  lemma {:induction false} RunSolo(c: Config, s: State, events: seq<Event>)
    requires Solo(s) && ClearsInPeace(c, s, events)
    ensures Solo(Run(c, s, events))
    decreases |events|
  {
    if events != [] {
      var before := events[..|events| - 1];
      forall i | 0 <= i < |before| && before[i] == Clears ensures Run(c, s, before[..i]).resuming == {} {
        assert before[..i] == events[..i] && events[i] == Clears;
      }
      RunSolo(c, s, before);
      StepSolo(c, Run(c, s, before), events[|events| - 1]);
    }
  }

  /**
   Single flight, without stranding: with every clear() in peace at most one execution is in flight,
   a non-empty queue is being worked on, and working means one in flight or an interrupt to wait for.
   */
  lemma SingleFlight(c: Config, events: seq<Event>)
    requires ClearsInPeace(c, Initial, events)
    ensures Solo(After(c, events))
  {
    RunSolo(c, Initial, events);
  }

  /** While a timed-out execution's interrupt is unanswered, nothing is handed over. */
  lemma NothingSentBeforeInterruptAnswered(c: Config, events: seq<Event>, e: Event)
    requires ClearsInPeace(c, Initial, events)
    requires After(c, events).resuming != {} && !e.Resumes?
    ensures After(c, events + [e]).h.handed == After(c, events).h.handed
    ensures After(c, events + [e]).pending == map[]
  {
    SingleFlight(c, events);
    OneMore(c, events, e);
  }

  /** Even with clear() at the worst moment, a non-empty queue is being worked on. */
  ghost predicate NotStranded(s: State) {
    && (s.queue != [] ==> s.executing)
    && (s.executing ==> s.pending != map[] || s.resuming != {})
  }

  lemma ProcessNextNotStranded(s: State)
    ensures NotStranded(ProcessNext(s))
  {
    ProcessNextStopsAtFirstSent(s);
  }

  lemma StepNotStranded(c: Config, s: State, e: Event)
    requires NotStranded(s)
    ensures NotStranded(Step(c, s, e))
  {
    if Enabled(s, e) {
      match e
      case Submits(r) => ProcessNextNotStranded(Count(s, r).(queue := s.queue + [Item(s.h.submitted, r)]));
      case Hears(msg) => HearsNotStranded(c, s, msg);
      case Resumes(m) => ProcessNextNotStranded(s.(resuming := s.resuming - {m}));
      case IdleTimerElapses(k) =>
        if s.idleTimers[k].msgId in s.pending {
          FinishByReplyNotStranded(s.(idleTimers := s.idleTimers - {k}), s.idleTimers[k].msgId, s.idleTimers[k].reply);
        }
      case _ =>
    }
  }

  lemma FinishByReplyNotStranded(s: State, m: MsgId, reply: ReplyMessage)
    requires m in s.pending
    ensures NotStranded(FinishByReply(s, m, reply))
  {
    var t := AbortIf(s, reply.kind.status != Ok && s.pending[m].item.request.stopOnError);
    ProcessNextNotStranded(Land(t, m, ReplyOutcome(s, m, reply)));
  }

  lemma HearsNotStranded(c: Config, s: State, msg: Message)
    requires NotStranded(s)
    ensures NotStranded(HandleMessage(c, s, msg))
  {
    var m := msg.parent;
    if m in s.pending {
      var t := RestartIdleWait(c, Arrive(s, msg), m);
      match msg.kind
      case Status(idle) =>
        if idle && s.pending[m].wait.Some? {
          var u := Update(t, m, t.pending[m].(idle := true));
          FinishByReplyNotStranded(u.(idleTimers := u.idleTimers - {s.pending[m].wait.value.serial}), m,
              s.pending[m].wait.value.reply);
        }
      case ErrorReport =>
        var u := AbortIf(Push(t, m, msg), s.pending[m].item.request.stopOnError);
        ProcessNextNotStranded(Land(u, m,
            Resolved(Result(false, Some(Failed), false, u.pending[m].output), ByError(msg))));
      case ExecuteReply(status) =>
        if s.pending[m].idle || status == Aborted {
          FinishByReplyNotStranded(t, m, msg);
        }
      case _ =>
    }
  }

  /** In every run, clear() at the worst moment included, nothing stays queued with nobody working on it. */
  lemma {:induction false} NeverStranded(c: Config, events: seq<Event>)
    ensures NotStranded(After(c, events))
    decreases |events|
  {
    if events != [] {
      NeverStranded(c, events[..|events| - 1]);
      StepNotStranded(c, After(c, events[..|events| - 1]), events[|events| - 1]);
    }
  }

  // ----- what a resolved execution got -----

  /**
   A resolved execution that reached the kernel as message id m has exactly the output heard for m,
   in order, from its sending to its settlement; what ended it was heard for it too.
   */
  lemma ResolvedOutputIsWhatWasHeard(c: Config, events: seq<Event>, id: nat)
    requires id in After(c, events).h.settled
    ensures var h := After(c, events).h;
            && h.settled[id] != []
            && (h.settled[id][0].outcome.Resolved? && !h.settled[id][0].outcome.cause.ByAbort? ==>
                 var x := h.settled[id][0];
                 && x.msgId.Some? && SentAs(h, id, x.msgId.value)
                 && x.msgId.value in h.sentAt && h.sentAt[x.msgId.value] <= x.upTo <= |h.arrived|
                 && var heard := HeardBy(h, x.msgId.value, x.upTo);
                    && x.outcome.result.output == OutputOf(heard)
                    && WasSaid(heard, if x.outcome.cause.ByReply? then x.outcome.cause.reply
                                      else x.outcome.cause.report))
  {
    AfterInv(c, events);
    var h := After(c, events).h;
    assert SettlementTells(c, h, h.settled[id][0]);
  }

  /**
   One resolved from a reply that does not say aborted was resolved after its idle status arrived, or
   idleWaitMs after everything heard for it; or, if the kernel replied again, after everything heard up
   to the later reply.
   */
  lemma ResolvedAfterIdleOrWait(c: Config, events: seq<Event>, id: nat)
    requires id in After(c, events).h.settled
    ensures var h := After(c, events).h;
            && h.settled[id] != []
            && (h.settled[id][0].outcome.Resolved? && h.settled[id][0].outcome.cause.ByReply? ==>
                 var x, cause := h.settled[id][0], h.settled[id][0].outcome.cause;
                 && cause.reply.kind.ExecuteReply?
                 && x.outcome.result.success == (cause.reply.kind.status == Ok)
                 && x.outcome.result.aborted == (cause.reply.kind.status == Aborted)
                 && x.msgId.Some?
                 && x.msgId.value in h.sentAt && h.sentAt[x.msgId.value] <= x.upTo <= |h.arrived|
                 && var heard := HeardBy(h, x.msgId.value, x.upTo);
                    || cause.reply.kind.status == Aborted
                    || Said(heard, Status(true))
                    || Waited(heard, c.idleWaitMs, x.at)
                    || CutShort(heard, cause.reply, c.idleWaitMs, x.at))
  {
    AfterInv(c, events);
    var h := After(c, events).h;
    assert SettlementTells(c, h, h.settled[id][0]);
  }
}
