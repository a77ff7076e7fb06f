/**
 The client's execution queue (lib/execution/execution-queue.ts) as a state machine: what each of
 its entry points -- a submission, a message, a timer, a continuation, clear() -- does to the
 queue's fields, to the timers and promises of the JavaScript runtime, and to the history of what
 was submitted, handed over, heard and settled.

 The class in ExecutionQueue.dfy is proved to make exactly these steps; the theorems about all runs
 are in ExecutionQueueTheorems.dfy.
 */
module ExecutionQueueSpec {
  import opened Wrappers

  type MsgId = nat

  /** `content.status` of an execute_reply; Unstated when it is missing. */
  datatype ReplyStatus = Ok | Failed | Aborted | Unstated

  datatype Kind =
    | Stream | ExecuteResult | DisplayData | UpdateDisplayData | ClearOutput
    | Status(idle: bool)
    | InputRequest
    | ErrorReport
    | ExecuteReply(status: ReplyStatus)
    | OtherKind

  /** A kernel message; `body` stands for everything the queue passes on without looking at it. */
  datatype Message = Message(parent: MsgId, kind: Kind, body: nat)

  type ReplyMessage = m: Message | m.kind.ExecuteReply? witness Message(0, ExecuteReply(Ok), 0)

  datatype Arrival = Arrival(msg: Message, at: nat)

  predicate IsOutput(kind: Kind) {
    kind.Stream? || kind.ExecuteResult? || kind.DisplayData? || kind.UpdateDisplayData? || kind.ClearOutput?
        || kind.ErrorReport?
  }

  /** What addon.execute() does when it is handed an item (it is handed each item at most once). */
  datatype Answer = Throws | NoId | Id(msgId: MsgId)

  datatype Request = Request(
    code: string, timeout: Option<int>, interruptOnTimeout: bool, stopOnError: bool, answer: Answer)

  /** A queued execution; `id` is its submission number, which names its promise. */
  datatype Item = Item(id: nat, request: Request)

  const DEFAULT_TIMEOUT_MS: int := 30000

  function TimeoutMs(r: Request): int {
    if r.timeout.Some? then r.timeout.value else DEFAULT_TIMEOUT_MS
  }

  datatype Result = Result(success: bool, status: Option<ReplyStatus>, aborted: bool, output: seq<Message>)

  datatype Cause = ByReply(reply: Message) | ByError(report: Message) | ByAbort

  datatype Reason = QueueFull | AddonThrew | NoMessageId | TimedOut(interrupted: bool) | Cleared

  datatype Outcome = Resolved(result: Result, cause: Cause) | Rejected(reason: Reason)

  /** One call of a promise's resolve or reject: when, and how many messages had arrived by then. */
  datatype Settlement = Settlement(outcome: Outcome, msgId: Option<MsgId>, upTo: nat, at: nat)

  /** The wait for `status: idle` that a reply started; `serial` tells the waits apart. */
  datatype Wait = Wait(serial: nat, reply: ReplyMessage)

  datatype Pending = Pending(item: Item, output: seq<Message>, timer: bool, idle: bool, wait: Option<Wait>)

  datatype IdleTimer = IdleTimer(msgId: MsgId, reply: ReplyMessage, deadline: nat)

  /** What happened so far. `used` holds every message id an addon answer has named. */
  datatype History = History(
    submitted: nat, used: set<MsgId>, handed: seq<Item>, sentAt: map<MsgId, nat>,
    arrived: seq<Arrival>, settled: map<nat, seq<Settlement>>, now: nat, replies: nat)

  /**
   `queue`, `executing` and `pending` are the object's fields. `idleTimers` are the armed idle
   fallbacks, `resuming` the timed-out executions whose continuation (it calls processNext() once
   the interrupt has been answered) has not run yet.
   */
  datatype State = State(
    queue: seq<Item>, executing: bool, pending: map<MsgId, Pending>,
    idleTimers: map<nat, IdleTimer>, resuming: set<MsgId>, h: History)

  /** What the constructor is given: `interrupts` is whether there is an onTimeout callback. */
  datatype Config = Config(maxSize: int, idleWaitMs: nat, interrupts: bool)

  const Initial: State :=
    State([], false, map[], map[], {}, History(0, {}, [], map[], [], map[], 0, 0))

  // ----- settling -----

  function SettledOf(h: History, id: nat): seq<Settlement> {
    if id in h.settled then h.settled[id] else []
  }

  function Settle(h: History, id: nat, outcome: Outcome, msgId: Option<MsgId>): History {
    h.(settled := h.settled[id := SettledOf(h, id) + [Settlement(outcome, msgId, |h.arrived|, h.now)]])
  }

  function SettleAll(h: History, ids: set<nat>, outcome: Outcome): History {
    h.(settled := map id | id in h.settled.Keys + ids ::
          SettledOf(h, id) + if id in ids then [Settlement(outcome, None, |h.arrived|, h.now)] else [])
  }

  function IdsOf(queue: seq<Item>): set<nat> {
    set item | item in queue :: item.id
  }

  function IdsInFlight(pending: map<MsgId, Pending>): set<nat> {
    set m | m in pending :: pending[m].item.id
  }

  // ----- the private methods -----

  function Hand(s: State): State
    requires s.queue != []
  {
    s.(executing := true, queue := s.queue[1..], h := s.h.(handed := s.h.handed + [s.queue[0]]))
  }

  function Send(s: State, item: Item, m: MsgId): State {
    s.(pending := s.pending[m := Pending(item, [], TimeoutMs(item.request) > 0, false, None)],
       h := s.h.(sentAt := s.h.sentAt[m := |s.h.arrived|]))
  }

  function ProcessNext(s: State): State
    decreases |s.queue|
  {
    if s.queue == [] then s.(executing := false)
    else
      var item := s.queue[0];
      var t := Hand(s);
      match item.request.answer
      case Throws => ProcessNext(t.(h := Settle(t.h, item.id, Rejected(AddonThrew), None)))
      case NoId => ProcessNext(t.(h := Settle(t.h, item.id, Rejected(NoMessageId), None)))
      case Id(m) => Send(t, item, m)
  }

  const AbortedResult := Result(false, Some(Aborted), true, [])

  function AbortQueued(s: State): State {
    s.(queue := [], h := SettleAll(s.h, IdsOf(s.queue), Resolved(AbortedResult, ByAbort)))
  }

  /** The record's `finish`. */
  function Finish(s: State, m: MsgId, outcome: Outcome): State
    requires m in s.pending
  {
    ProcessNext(s.(pending := s.pending - {m}, h := Settle(s.h, s.pending[m].item.id, outcome, Some(m))))
  }

  function AbortIf(s: State, condition: bool): State {
    if condition then AbortQueued(s) else s
  }

  function ReplyResult(status: ReplyStatus, output: seq<Message>): Result {
    Result(status == Ok, if status == Unstated then None else Some(status), status == Aborted, output)
  }

  /** `finishNow` of the reply. */
  function FinishByReply(s: State, m: MsgId, reply: ReplyMessage): State
    requires m in s.pending
  {
    var status := reply.kind.status;
    Finish(AbortIf(s, status != Ok && s.pending[m].item.request.stopOnError), m,
           Resolved(ReplyResult(status, s.pending[m].output), ByReply(reply)))
  }

  function ArmIdleTimer(c: Config, s: State, m: MsgId, w: Wait): State {
    s.(idleTimers := s.idleTimers[w.serial := IdleTimer(m, w.reply, s.h.now + c.idleWaitMs)])
  }

  function Arrive(s: State, msg: Message): State {
    s.(h := s.h.(arrived := s.h.arrived + [Arrival(msg, s.h.now)]))
  }

  function RestartIdleWait(c: Config, s: State, m: MsgId): State
    requires m in s.pending
  {
    if s.pending[m].wait.Some? then ArmIdleTimer(c, s, m, s.pending[m].wait.value) else s
  }

  function Update(s: State, m: MsgId, p: Pending): State {
    s.(pending := s.pending[m := p])
  }

  function Push(s: State, m: MsgId, msg: Message): State
    requires m in s.pending
  {
    Update(s, m, s.pending[m].(output := s.pending[m].output + [msg]))
  }

  function BeIdle(s: State, m: MsgId): State
    requires m in s.pending
  {
    var t := Update(s, m, s.pending[m].(idle := true));
    match s.pending[m].wait
    case None => t
    case Some(w) => FinishByReply(t.(idleTimers := t.idleTimers - {w.serial}), m, w.reply)
  }

  function Fail(s: State, m: MsgId, msg: Message): State
    requires m in s.pending
  {
    var t := AbortIf(Push(s, m, msg), s.pending[m].item.request.stopOnError);
    Finish(t, m, Resolved(Result(false, Some(Failed), false, t.pending[m].output), ByError(msg)))
  }

  function Reply(c: Config, s: State, m: MsgId, msg: ReplyMessage): State
    requires m in s.pending
  {
    if s.pending[m].idle || msg.kind.status == Aborted then FinishByReply(s, m, msg)
    else
      var w := Wait(s.h.replies, msg);
      ArmIdleTimer(c, Update(s.(h := s.h.(replies := s.h.replies + 1)), m, s.pending[m].(wait := Some(w))), m, w)
  }

  // ----- the events -----

  function Submit(c: Config, s: State, r: Request): State {
    var item := Item(s.h.submitted, r);
    var t := s.(h := s.h.(submitted := s.h.submitted + 1,
                          used := if r.answer.Id? then s.h.used + {r.answer.msgId} else s.h.used));
    if |s.queue| >= c.maxSize then t.(h := Settle(t.h, item.id, Rejected(QueueFull), None))
    else
      var u := t.(queue := t.queue + [item]);
      if u.executing then u else ProcessNext(u)
  }

  function HandleMessage(c: Config, s: State, msg: Message): State
  {
    var m := msg.parent;
    var heard := Arrive(s, msg);
    if m !in s.pending then heard
    else
      var t := RestartIdleWait(c, heard, m);
      match msg.kind
      case InputRequest => Update(t, m, t.pending[m].(timer := false))
      case Status(idle) => if idle then BeIdle(t, m) else t
      case ErrorReport => Fail(t, m, msg)
      case ExecuteReply(_) => Reply(c, t, m, msg)
      case OtherKind => t
      case _ => Push(t, m, msg)
  }

  predicate TimerArmed(s: State, m: MsgId) {
    m in s.pending && s.pending[m].timer
  }

  function TimeOut(c: Config, s: State, m: MsgId): State
    requires m in s.pending
  {
    var item := s.pending[m].item;
    var interrupting := item.request.interruptOnTimeout && c.interrupts;
    s.(pending := s.pending - {m}, resuming := s.resuming + {m},
       h := Settle(s.h, item.id, Rejected(TimedOut(interrupting)), Some(m)))
  }

  /** The continuation of a timed-out execution: its interrupt was answered, failed, or was not asked for. */
  function Resume(s: State, m: MsgId): State {
    ProcessNext(s.(resuming := s.resuming - {m}))
  }

  predicate IdleTimerDue(s: State, k: nat) {
    k in s.idleTimers && s.idleTimers[k].deadline <= s.h.now
  }

  function IdleTimerFires(s: State, k: nat): State
    requires k in s.idleTimers
  {
    var t := s.(idleTimers := s.idleTimers - {k});
    var m := s.idleTimers[k].msgId;
    if m in s.pending then FinishByReply(t, m, s.idleTimers[k].reply) else t
  }

  function Clear(s: State): State {
    State([], false, map[], s.idleTimers, s.resuming,
          SettleAll(SettleAll(s.h, IdsOf(s.queue), Rejected(Cleared)),
                    IdsInFlight(s.pending), Rejected(Cleared)))
  }

  function Tick(s: State, ms: nat): State {
    s.(h := s.h.(now := s.h.now + ms))
  }

  datatype Event =
    | Submits(request: Request)
    | Hears(msg: Message)
    | TimesOut(msgId: MsgId)
    | Resumes(msgId: MsgId)
    | IdleTimerElapses(serial: nat)
    | Clears
    | Passes(ms: nat)

  /** Whether the event can happen: addon ids are fresh (randomUUID()), and only an armed timer fires. */
  predicate Enabled(s: State, e: Event) {
    match e
    case Submits(r) => r.answer.Id? ==> r.answer.msgId !in s.h.used
    case TimesOut(m) => TimerArmed(s, m)
    case Resumes(m) => m in s.resuming
    case IdleTimerElapses(k) => IdleTimerDue(s, k)
    case _ => true
  }

  /** An event that cannot happen leaves the state alone, so every event sequence is a run. */
  function Step(c: Config, s: State, e: Event): State
  {
    if !Enabled(s, e) then s
    else
      match e
      case Submits(r) => Submit(c, s, r)
      case Hears(msg) => HandleMessage(c, s, msg)
      case TimesOut(m) => TimeOut(c, s, m)
      case Resumes(m) => Resume(s, m)
      case IdleTimerElapses(k) => IdleTimerFires(s, k)
      case Clears => Clear(s)
      case Passes(ms) => Tick(s, ms)
  }
}
