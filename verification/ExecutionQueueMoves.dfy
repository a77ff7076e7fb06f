/**
 Every event of the execution queue is a short sequence of moves, each of which changes one thing:
 an item is handed over, an execution lands, a record notes a message. What every move keeps, every
 event keeps, and so every run does (RunKeeps); the invariants of ExecutionQueueInvariants.dfy need
 only look at single moves.
 */
module ExecutionQueueMoves {
  import opened Wrappers
  import opened ExecutionQueueSpec
  import F = Folds

  datatype Move =
    | Accept(request: Request)
    | Refuse(request: Request)
    | HandOver
    | Rest
    | Hear(msg: Message)
    | LandByError(report: Message)
    | LandByReply(msgId: MsgId, reply: ReplyMessage, timers: set<nat>)
    | LandByTimeout(msgId: MsgId)
    | Abort
    | DropTimer(serial: nat)
    | Continue(msgId: MsgId)
    | Empty
    | Pass(ms: nat)

  function Count(s: State, r: Request): State {
    s.(h := s.h.(submitted := s.h.submitted + 1,
                 used := if r.answer.Id? then s.h.used + {r.answer.msgId} else s.h.used))
  }

  /** What a message does to the record it belongs to, before anything finishes. */
  function Note(c: Config, s: State, msg: Message): State {
    var m := msg.parent;
    var heard := Arrive(s, msg);
    if m !in s.pending then heard
    else
      var t := RestartIdleWait(c, heard, m);
      match msg.kind
      case InputRequest => Update(t, m, t.pending[m].(timer := false))
      case Status(idle) => if idle then Update(t, m, t.pending[m].(idle := true)) else t
      case ExecuteReply(status) =>
        if t.pending[m].idle || status == Aborted then t
        else
          var w := Wait(t.h.replies, msg);
          ArmIdleTimer(c, Update(t.(h := t.h.(replies := t.h.replies + 1)), m, t.pending[m].(wait := Some(w))), m, w)
      case OtherKind => t
      case _ => Push(t, m, msg)
  }

  function Land(s: State, m: MsgId, o: Outcome): State
    requires m in s.pending
  {
    s.(pending := s.pending - {m}, h := Settle(s.h, s.pending[m].item.id, o, Some(m)))
  }

  function HandOverFirst(s: State): State
    requires s.queue != []
  {
    var item, t := s.queue[0], Hand(s);
    match item.request.answer
    case Throws => t.(h := Settle(t.h, item.id, Rejected(AddonThrew), None))
    case NoId => t.(h := Settle(t.h, item.id, Rejected(NoMessageId), None))
    case Id(m) => Send(t, item, m)
  }

  function ReplyOutcome(s: State, m: MsgId, reply: ReplyMessage): Outcome
    requires m in s.pending
  {
    Resolved(ReplyResult(reply.kind.status, s.pending[m].output), ByReply(reply))
  }

  function ErrorOutcome(s: State, m: MsgId, report: Message): Outcome
    requires m in s.pending
  {
    Resolved(Result(false, Some(Failed), false, s.pending[m].output), ByError(report))
  }

  /** The message is the latest one, and came after the execution it belongs to was sent. */
  predicate JustHeard(s: State, msg: Message) {
    && msg.parent in s.h.sentAt && s.h.sentAt[msg.parent] < |s.h.arrived|
    && s.h.arrived[|s.h.arrived| - 1].msg == msg
  }

  /**
   When a reply may finish its execution, and which idle timers that disarms: it has just come, and
   the idle was in before it or it says aborted; or the idle has come that it waited for; or a wait
   for the idle is over.
   */
  predicate MayFinish(s: State, m: MsgId, reply: ReplyMessage, timers: set<nat>) {
    && m in s.pending
    && (|| (timers == {} && reply.parent == m && JustHeard(s, reply)
            && (s.pending[m].idle || reply.kind.status == Aborted))
        || (s.pending[m].idle && s.pending[m].wait.Some? && s.pending[m].wait.value.reply == reply
            && timers == {s.pending[m].wait.value.serial})
        || Elapsed(s, m, reply, timers))
  }

  predicate Elapsed(s: State, m: MsgId, reply: ReplyMessage, timers: set<nat>) {
    exists k :: k in s.idleTimers && timers == {k} && s.idleTimers[k].deadline <= s.h.now
                && s.idleTimers[k].msgId == m && s.idleTimers[k].reply == reply
  }

  predicate Can(c: Config, s: State, v: Move) {
    match v
    case Accept(r) => Enabled(s, Submits(r)) && |s.queue| < c.maxSize
    case Refuse(r) => Enabled(s, Submits(r))
    case HandOver => s.queue != []
    case Rest => s.queue == []
    case LandByError(report) => report.parent in s.pending && report.kind == ErrorReport && JustHeard(s, report)
    case LandByReply(m, reply, timers) => MayFinish(s, m, reply, timers)
    case LandByTimeout(m) => TimerArmed(s, m)
    case DropTimer(k) => k in s.idleTimers && s.idleTimers[k].msgId !in s.pending
    case _ => true
  }

  function Apply(c: Config, s: State, v: Move): State
    requires Can(c, s, v)
  {
    match v
    case Accept(r) => Count(s, r).(queue := s.queue + [Item(s.h.submitted, r)])
    case Refuse(r) => var t := Count(s, r); t.(h := Settle(t.h, s.h.submitted, Rejected(QueueFull), None))
    case HandOver => HandOverFirst(s)
    case Rest => s.(executing := false)
    case Hear(msg) => Note(c, s, msg)
    case LandByError(report) => Land(s, report.parent, ErrorOutcome(s, report.parent, report))
    case LandByReply(m, reply, timers) => Land(s, m, ReplyOutcome(s, m, reply)).(idleTimers := s.idleTimers - timers)
    case LandByTimeout(m) => TimeOut(c, s, m)
    case Abort => AbortQueued(s)
    case DropTimer(k) => s.(idleTimers := s.idleTimers - {k})
    case Continue(m) => s.(resuming := s.resuming - {m})
    case Empty => Clear(s)
    case Pass(ms) => Tick(s, ms)
  }

  ghost predicate SentBefore(s: State) {
    && s.pending.Keys <= s.h.sentAt.Keys
    && (forall m :: m in s.h.sentAt ==> s.h.sentAt[m] <= |s.h.arrived|)
  }

  ghost predicate KeptByMoves(c: Config, inv: State -> bool) {
    && (forall s :: inv(s) ==> SentBefore(s))
    && (forall s, v :: inv(s) && Can(c, s, v) ==> inv(Apply(c, s, v)))
  }

  lemma {:induction false} ProcessNextKeeps(c: Config, inv: State -> bool, s: State)
    requires KeptByMoves(c, inv) && inv(s)
    ensures inv(ProcessNext(s))
    decreases |s.queue|
  {
    if s.queue == [] {
      assert inv(Apply(c, s, Rest));
    } else {
      var t := Apply(c, s, HandOver);
      assert inv(t);
      if !s.queue[0].request.answer.Id? {
        ProcessNextKeeps(c, inv, t);
      }
    }
  }

  /** An execution ended by a reply, behind the moves that led there. */
  lemma FinishByReplyKeeps(c: Config, inv: State -> bool, s: State, m: MsgId, reply: ReplyMessage, timers: set<nat>)
    requires KeptByMoves(c, inv) && inv(s) && MayFinish(s, m, reply, timers)
    ensures inv(FinishByReply(s.(idleTimers := s.idleTimers - timers), m, reply))
  {
    var status := reply.kind.status;
    var aborts := status != Ok && s.pending[m].item.request.stopOnError;
    assert inv(Apply(c, s, Abort));
    var t := AbortIf(s, aborts);
    var u := Apply(c, t, LandByReply(m, reply, timers));
    assert inv(u);
    ProcessNextKeeps(c, inv, u);
  }

  lemma ErrorKeeps(c: Config, inv: State -> bool, t: State, msg: Message, abort: bool)
    requires KeptByMoves(c, inv) && inv(t) && msg.kind == ErrorReport
    requires msg.parent in t.pending && JustHeard(t, msg)
    ensures inv(Finish(AbortIf(t, abort), msg.parent, ErrorOutcome(AbortIf(t, abort), msg.parent, msg)))
  {
    assert inv(Apply(c, t, Abort));
    var u := AbortIf(t, abort);
    var l := Apply(c, u, LandByError(msg));
    assert inv(l);
    ProcessNextKeeps(c, inv, l);
  }

  lemma HearsKeeps(c: Config, inv: State -> bool, s: State, msg: Message)
    requires KeptByMoves(c, inv) && inv(s)
    ensures inv(HandleMessage(c, s, msg))
  {
    var m := msg.parent;
    var t := Apply(c, s, Hear(msg));
    assert inv(t);
    if m in s.pending {
      match msg.kind
      case Status(idle) =>
        if idle && s.pending[m].wait.Some? {
          FinishByReplyKeeps(c, inv, t, m, s.pending[m].wait.value.reply, {s.pending[m].wait.value.serial});
        }
      case ErrorReport => ErrorKeeps(c, inv, t, msg, s.pending[m].item.request.stopOnError);
      case ExecuteReply(status) =>
        if s.pending[m].idle || status == Aborted {
          FinishByReplyKeeps(c, inv, t, m, msg, {});
          assert t.(idleTimers := t.idleTimers - {}) == t;
        }
      case _ =>
    }
  }

  lemma StepKeeps(c: Config, inv: State -> bool, s: State, e: Event)
    requires KeptByMoves(c, inv) && inv(s)
    ensures inv(Step(c, s, e))
  {
    if Enabled(s, e) {
      match e
      case Submits(r) =>
        if |s.queue| >= c.maxSize {
          assert inv(Apply(c, s, Refuse(r)));
        } else {
          var t := Apply(c, s, Accept(r));
          assert inv(t);
          ProcessNextKeeps(c, inv, t);
        }
      case Hears(msg) => HearsKeeps(c, inv, s, msg);
      case TimesOut(m) => assert inv(Apply(c, s, LandByTimeout(m)));
      case Resumes(m) =>
        var t := Apply(c, s, Continue(m));
        assert inv(t);
        ProcessNextKeeps(c, inv, t);
      case IdleTimerElapses(k) =>
        var m := s.idleTimers[k].msgId;
        if m in s.pending {
          assert Elapsed(s, m, s.idleTimers[k].reply, {k});
          FinishByReplyKeeps(c, inv, s, m, s.idleTimers[k].reply, {k});
        } else {
          assert inv(Apply(c, s, DropTimer(k)));
        }
      case Clears => assert inv(Apply(c, s, Empty));
      case Passes(ms) => assert inv(Apply(c, s, Pass(ms)));
    }
  }

  // ----- runs -----

  function Stepper(c: Config): (State, Event) -> State {
    (s: State, e: Event) => Step(c, s, e)
  }

  function Run(c: Config, s: State, events: seq<Event>): State {
    F.Fold(Stepper(c), s, events)
  }

  /** The state after `events`, from the start. */
  function After(c: Config, events: seq<Event>): State {
    Run(c, Initial, events)
  }

  lemma {:induction false} RunKeeps(c: Config, inv: State -> bool, s: State, events: seq<Event>)
    requires KeptByMoves(c, inv) && inv(s)
    ensures inv(Run(c, s, events))
    decreases |events|
  {
    if events != [] {
      var before := events[..|events| - 1];
      RunKeeps(c, inv, s, before);
      StepKeeps(c, inv, Run(c, s, before), events[|events| - 1]);
    }
  }

  lemma RunAppend(c: Config, s: State, first: seq<Event>, rest: seq<Event>)
    ensures Run(c, s, first + rest) == Run(c, Run(c, s, first), rest)
  {
    F.FoldAppend(Stepper(c), s, first, rest);
  }
}
