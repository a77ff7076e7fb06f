/**
 That the records of in-flight executions and the settlements agree with the log of what arrived:
 collected output, idle flags, armed timers, and why a resolved execution was resolved when it was.
 */
module ExecutionQueueTruth {
  import opened Wrappers
  import opened ExecutionQueueSpec
  import opened ExecutionQueueMoves
  import opened ExecutionQueueInvariants

  // ----- reading the log -----

  /** The arrivals of one execution, in order. */
  function Heard(log: seq<Arrival>, m: MsgId): seq<Arrival> {
    if log == [] then []
    else
      var last := log[|log| - 1];
      Heard(log[..|log| - 1], m) + if last.msg.parent == m then [last] else []
  }

  function OutputOf(heard: seq<Arrival>): seq<Message> {
    if heard == [] then []
    else
      var last := heard[|heard| - 1];
      OutputOf(heard[..|heard| - 1]) + if IsOutput(last.msg.kind) then [last.msg] else []
  }

  function Replies(heard: seq<Arrival>): nat {
    if heard == [] then 0
    else Replies(heard[..|heard| - 1]) + if heard[|heard| - 1].msg.kind.ExecuteReply? then 1 else 0
  }

  ghost predicate Said(heard: seq<Arrival>, kind: Kind) {
    exists i :: 0 <= i < |heard| && heard[i].msg.kind == kind
  }

  ghost predicate WasSaid(heard: seq<Arrival>, msg: Message) {
    exists i :: 0 <= i < |heard| && heard[i].msg == msg
  }

  /** `wait` milliseconds have passed since everything heard. */
  ghost predicate Waited(heard: seq<Arrival>, wait: nat, now: nat) {
    forall i :: 0 <= i < |heard| ==> heard[i].at + wait <= now
  }

  /** The first `i` things heard end with a reply that came after this one. */
  ghost predicate NextReplyAt(heard: seq<Arrival>, i: nat, reply: Message) {
    0 < i <= |heard| && heard[i - 1].msg.kind.ExecuteReply? && WasSaid(heard[..i - 1], reply)
  }

  /** `wait` milliseconds have passed since everything heard up to a later reply, if not since. */
  ghost predicate CutShort(heard: seq<Arrival>, reply: Message, wait: nat, now: nat) {
    exists i: nat :: NextReplyAt(heard, i, reply) && Waited(heard[..i], wait, now)
  }

  /** What execution `m` heard between its sending and the arrival of message number `upTo`. */
  function HeardBy(h: History, m: MsgId, upTo: nat): seq<Arrival>
    requires m in h.sentAt && h.sentAt[m] <= upTo <= |h.arrived|
  {
    Heard(h.arrived[h.sentAt[m]..upTo], m)
  }

  lemma HeardAppend(log: seq<Arrival>, x: Arrival, m: MsgId)
    ensures Heard(log + [x], m) == Heard(log, m) + if x.msg.parent == m then [x] else []
  {
    assert (log + [x])[..|log|] == log;
  }

  lemma ReadAppend(heard: seq<Arrival>, x: Arrival)
    ensures OutputOf(heard + [x]) == OutputOf(heard) + if IsOutput(x.msg.kind) then [x.msg] else []
    ensures Replies(heard + [x]) == Replies(heard) + if x.msg.kind.ExecuteReply? then 1 else 0
  {
    assert (heard + [x])[..|heard|] == heard;
  }

  lemma SaidAppend(heard: seq<Arrival>, x: Arrival, kind: Kind)
    ensures Said(heard + [x], kind) <==> Said(heard, kind) || x.msg.kind == kind
  {
    assert (heard + [x])[|heard|] == x;
    assert forall i :: 0 <= i < |heard| ==> (heard + [x])[i] == heard[i];
  }

  lemma WasSaidAppend(heard: seq<Arrival>, x: Arrival, msg: Message)
    ensures WasSaid(heard + [x], msg) <==> WasSaid(heard, msg) || x.msg == msg
  {
    assert (heard + [x])[|heard|] == x;
    assert forall i :: 0 <= i < |heard| ==> (heard + [x])[i] == heard[i];
  }

  lemma CutShortAppend(heard: seq<Arrival>, x: Arrival, reply: Message, wait: nat, now: nat)
    requires CutShort(heard, reply, wait, now)
    ensures CutShort(heard + [x], reply, wait, now)
  {
    var i: nat :| NextReplyAt(heard, i, reply) && Waited(heard[..i], wait, now);
    assert (heard + [x])[..i] == heard[..i] && (heard + [x])[..i - 1] == heard[..i - 1];
    assert NextReplyAt(heard + [x], i, reply);
  }

  /** A later reply cuts the wait for this one short. */
  lemma ReplyCutsShort(heard: seq<Arrival>, x: Arrival, reply: Message, wait: nat, now: nat)
    requires WasSaid(heard, reply) && x.msg.kind.ExecuteReply? && Waited(heard + [x], wait, now)
    ensures CutShort(heard + [x], reply, wait, now)
  {
    var i := |heard| + 1;
    assert (heard + [x])[..i] == heard + [x] && (heard + [x])[..i - 1] == heard;
    assert NextReplyAt(heard + [x], i, reply);
  }

  lemma {:induction false} RepliesOfPart(heard: seq<Arrival>, i: nat)
    requires i <= |heard|
    ensures Replies(heard[..i]) <= Replies(heard)
  {
    if i == |heard| {
      assert heard[..i] == heard;
    } else {
      var init := heard[..|heard| - 1];
      assert init[..i] == heard[..i];
      RepliesOfPart(init, i);
    }
  }

  lemma SaidReplyCounts(heard: seq<Arrival>, reply: Message)
    requires WasSaid(heard, reply) && reply.kind.ExecuteReply?
    ensures Replies(heard) >= 1
  {
    var i :| 0 <= i < |heard| && heard[i].msg == reply;
    assert heard[..i + 1][..i] == heard[..i];
    RepliesOfPart(heard, i + 1);
  }

  lemma CutShortByTwo(heard: seq<Arrival>, reply: Message, wait: nat, now: nat)
    requires CutShort(heard, reply, wait, now) && reply.kind.ExecuteReply?
    ensures Replies(heard) >= 2
  {
    var i: nat :| NextReplyAt(heard, i, reply) && Waited(heard[..i], wait, now);
    SaidReplyCounts(heard[..i - 1], reply);
    assert heard[..i][..i - 1] == heard[..i - 1];
    RepliesOfPart(heard, i);
  }

  lemma {:induction false} HeardTimely(log: seq<Arrival>, m: MsgId, now: nat)
    requires forall i :: 0 <= i < |log| ==> log[i].at <= now
    ensures forall i :: 0 <= i < |Heard(log, m)| ==> Heard(log, m)[i].at <= now
  {
    if log != [] {
      HeardTimely(log[..|log| - 1], m, now);
    }
  }

  // ----- records -----

  /**
   The record knows what was heard; its timer is armed exactly if there is a timeout and the kernel
   has not asked for input.
   */
  ghost predicate RecordTells(p: Pending, heard: seq<Arrival>) {
    && p.output == OutputOf(heard)
    && (p.idle <==> Said(heard, Status(true)))
    && (p.timer <==> TimeoutMs(p.item.request) > 0 && !Said(heard, InputRequest))
  }

  /**
   A reply being waited on was heard, and its idle timer is armed for `wait` after the latest
   message. Any other timer is of a reply whose wait a later one cut short.
   */
  ghost predicate WaitTells(c: Config, m: MsgId, p: Pending, timers: map<nat, IdleTimer>, heard: seq<Arrival>) {
    && (p.wait.Some? ==>
          && p.wait.value.serial in timers
          && timers[p.wait.value.serial].msgId == m
          && timers[p.wait.value.serial].reply == p.wait.value.reply
          && Replies(heard) >= 1
          && Waited(heard, c.idleWaitMs, timers[p.wait.value.serial].deadline))
    && (forall k :: k in timers && timers[k].msgId == m ==>
          && p.wait.Some?
          && WasSaid(heard, timers[k].reply)
          && (k == p.wait.value.serial || CutShort(heard, timers[k].reply, c.idleWaitMs, timers[k].deadline)))
  }

  ghost predicate RecordsTell(c: Config, s: State)
    requires SentBefore(s)
  {
    forall m :: m in s.pending ==>
      && RecordTells(s.pending[m], HeardBy(s.h, m, |s.h.arrived|))
      && WaitTells(c, m, s.pending[m], s.idleTimers, HeardBy(s.h, m, |s.h.arrived|))
  }

  ghost predicate Timely(s: State) {
    && (forall i :: 0 <= i < |s.h.arrived| ==> s.h.arrived[i].at <= s.h.now)
    && (forall k :: k in s.idleTimers ==> k < s.h.replies)
    && (forall m :: m in s.pending && s.pending[m].wait.Some? ==> s.pending[m].wait.value.serial < s.h.replies)
  }

  // ----- settlements -----

  /** Why a reply may end an execution: an abort, its idle, a full wait, or one that a later reply cut short. */
  ghost predicate ReplyMayEnd(c: Config, reply: ReplyMessage, heard: seq<Arrival>, at: nat) {
    || reply.kind.status == Aborted
    || Said(heard, Status(true))
    || Waited(heard, c.idleWaitMs, at)
    || CutShort(heard, reply, c.idleWaitMs, at)
  }

  ghost predicate SettlementTells(c: Config, h: History, x: Settlement) {
    match x.outcome
    case Resolved(r, ByAbort) => r == AbortedResult
    case Resolved(r, cause) =>
      && x.msgId.Some? && x.msgId.value in h.sentAt
      && h.sentAt[x.msgId.value] <= x.upTo <= |h.arrived|
      && ResultTells(c, r, cause, HeardBy(h, x.msgId.value, x.upTo), x.at)
    case Rejected(_) => true
  }

  ghost predicate ResultTells(c: Config, r: Result, cause: Cause, heard: seq<Arrival>, at: nat) {
    match cause
    case ByAbort => false
    case ByError(report) =>
      && r == Result(false, Some(Failed), false, OutputOf(heard))
      && report.kind == ErrorReport && WasSaid(heard, report)
    case ByReply(reply) =>
      && reply.kind.ExecuteReply?
      && r == ReplyResult(reply.kind.status, OutputOf(heard))
      && WasSaid(heard, reply)
      && ReplyMayEnd(c, reply, heard, at)
  }

  ghost predicate SettlementsTell(c: Config, h: History) {
    forall id :: id in h.settled ==> forall i :: 0 <= i < |h.settled[id]| ==> SettlementTells(c, h, h.settled[id][i])
  }

  ghost predicate Truthful(c: Config, s: State) {
    SentBefore(s) && Timely(s) && RecordsTell(c, s) && SettlementsTell(c, s.h)
  }

  // ----- settlements stay true -----

  ghost predicate LogGrows(h: History, t: History) {
    && |h.arrived| <= |t.arrived|
    && h.arrived == t.arrived[..|h.arrived|]
    && (forall m :: m in h.sentAt ==> m in t.sentAt && t.sentAt[m] == h.sentAt[m])
  }

  lemma SliceOfPrefix<T>(a: seq<T>, b: seq<T>, i: nat, j: nat)
    requires |a| <= |b| && a == b[..|a|] && i <= j <= |a|
    ensures b[i..j] == a[i..j]
  {
  }

  lemma SettlementStays(c: Config, h: History, t: History, x: Settlement)
    requires SettlementTells(c, h, x) && LogGrows(h, t)
    ensures SettlementTells(c, t, x)
  {
    if x.outcome.Resolved? && !x.outcome.cause.ByAbort? {
      var m := x.msgId.value;
      SliceOfPrefix(h.arrived, t.arrived, h.sentAt[m], x.upTo);
    }
  }

  /** The log grew, and what was settled meanwhile is settled truly. */
  lemma SettlementsStay(c: Config, h: History, t: History)
    requires SettlementsTell(c, h) && LogGrows(h, t)
    requires forall id :: id in t.settled ==> SettledOf(h, id) <= t.settled[id]
    requires forall id, i :: id in t.settled && |SettledOf(h, id)| <= i < |t.settled[id]| ==>
               SettlementTells(c, t, t.settled[id][i])
    ensures SettlementsTell(c, t)
  {
    forall id, i | id in t.settled && 0 <= i < |t.settled[id]|
      ensures SettlementTells(c, t, t.settled[id][i])
    {
      if i < |SettledOf(h, id)| {
        SettlementStays(c, h, t, h.settled[id][i]);
      }
    }
  }

  lemma SettleTells(c: Config, h: History, id: nat, o: Outcome, m: Option<MsgId>)
    requires SettlementsTell(c, h) && SettlementTells(c, h, Settlement(o, m, |h.arrived|, h.now))
    ensures SettlementsTell(c, Settle(h, id, o, m))
  {
    var t := Settle(h, id, o, m);
    SettlementStays(c, h, t, Settlement(o, m, |h.arrived|, h.now));
    SettlementsStay(c, h, t);
  }

  lemma SettleAllTells(c: Config, h: History, ids: set<nat>, o: Outcome)
    requires SettlementsTell(c, h) && SettlementTells(c, h, Settlement(o, None, |h.arrived|, h.now))
    ensures SettlementsTell(c, SettleAll(h, ids, o))
  {
    var t := SettleAll(h, ids, o);
    SettlementStays(c, h, t, Settlement(o, None, |h.arrived|, h.now));
    SettlementsStay(c, h, t);
  }

  // ----- moves -----

  /** Nothing about the records changes when only the queue, the counters or other settlements do. */
  lemma RecordsStay(c: Config, s: State, t: State)
    requires SentBefore(s) && Timely(s) && RecordsTell(c, s)
    requires t.pending.Keys <= s.pending.Keys
    requires forall m :: m in t.pending ==> t.pending[m] == s.pending[m]
    requires t.idleTimers.Keys <= s.idleTimers.Keys
    requires forall k :: k in t.idleTimers ==> t.idleTimers[k] == s.idleTimers[k]
    requires forall m, k :: m in t.pending && k in s.idleTimers && s.idleTimers[k].msgId == m ==> k in t.idleTimers
    requires t.h.arrived == s.h.arrived && t.h.sentAt == s.h.sentAt && t.h.replies == s.h.replies && t.h.now >= s.h.now
    ensures SentBefore(t) && Timely(t) && RecordsTell(c, t)
  {
  }

  lemma HandOverTruthful(c: Config, s: State)
    requires Fresh(s) && Truthful(c, s) && s.queue != []
    ensures Truthful(c, HandOverFirst(s))
  {
    var item, t := s.queue[0], HandOverFirst(s);
    assert item in s.queue;
    match item.request.answer
    case Throws =>
      SettleTells(c, Hand(s).h, item.id, Rejected(AddonThrew), None);
      RecordsStay(c, s, t);
    case NoId =>
      SettleTells(c, Hand(s).h, item.id, Rejected(NoMessageId), None);
      RecordsStay(c, s, t);
    case Id(m) =>
      SettlementsStay(c, s.h, t.h);
      SendTruthful(c, s, t, m);
  }

  lemma SendTruthful(c: Config, s: State, t: State, m: MsgId)
    requires Fresh(s) && SentBefore(s) && Timely(s) && RecordsTell(c, s) && m !in s.h.sentAt
    requires m in t.pending && t.pending == s.pending[m := t.pending[m]] && t.idleTimers == s.idleTimers
    requires t.pending[m] == Pending(t.pending[m].item, [], TimeoutMs(t.pending[m].item.request) > 0, false, None)
    requires t.h == s.h.(handed := t.h.handed, sentAt := s.h.sentAt[m := |s.h.arrived|])
    ensures SentBefore(t) && Timely(t) && RecordsTell(c, t)
  {
    assert HeardBy(t.h, m, |t.h.arrived|) == [];
  }

  lemma LandTruthful(c: Config, s: State, m: MsgId, o: Outcome)
    requires Truthful(c, s) && m in s.pending
    requires SettlementTells(c, s.h, Settlement(o, Some(m), |s.h.arrived|, s.h.now))
    ensures Truthful(c, Land(s, m, o))
  {
    SettleTells(c, s.h, s.pending[m].item.id, o, Some(m));
    RecordsStay(c, s, Land(s, m, o));
  }

  /** The reply that ends an execution was heard for it, and had reason to end it. */
  lemma ReplyOutcomeTells(c: Config, s: State, m: MsgId, reply: ReplyMessage, timers: set<nat>)
    requires Truthful(c, s) && MayFinish(s, m, reply, timers)
    ensures SettlementTells(c, s.h, Settlement(ReplyOutcome(s, m, reply), Some(m), |s.h.arrived|, s.h.now))
  {
    var heard := HeardBy(s.h, m, |s.h.arrived|);
    assert RecordTells(s.pending[m], heard) && WaitTells(c, m, s.pending[m], s.idleTimers, heard);
    if timers == {} && reply.parent == m && JustHeard(s, reply) && (s.pending[m].idle || reply.kind.status == Aborted) {
      JustHeardIsHeard(s, m, reply);
    }
  }

  lemma JustHeardIsHeard(s: State, m: MsgId, msg: Message)
    requires SentBefore(s) && m in s.pending && msg.parent == m && JustHeard(s, msg)
    ensures WasSaid(HeardBy(s.h, m, |s.h.arrived|), msg)
  {
    var log := s.h.arrived[s.h.sentAt[m]..];
    assert s.h.arrived[s.h.sentAt[m]..|s.h.arrived|] == log;
    HeardAppend(log[..|log| - 1], log[|log| - 1], m);
    assert log == log[..|log| - 1] + [log[|log| - 1]];
    WasSaidAppend(Heard(log[..|log| - 1], m), log[|log| - 1], msg);
  }

  /** A timer that is disarmed when its execution lands, or after, is missed by no record. */
  lemma LandByReplyTruthful(c: Config, s: State, m: MsgId, reply: ReplyMessage, timers: set<nat>)
    requires Truthful(c, s) && MayFinish(s, m, reply, timers)
    ensures Truthful(c, Land(s, m, ReplyOutcome(s, m, reply)).(idleTimers := s.idleTimers - timers))
  {
    ReplyOutcomeTells(c, s, m, reply, timers);
    var t := Land(s, m, ReplyOutcome(s, m, reply));
    LandTruthful(c, s, m, ReplyOutcome(s, m, reply));
    assert WaitTells(c, m, s.pending[m], s.idleTimers, HeardBy(s.h, m, |s.h.arrived|));
    RecordsStay(c, t, t.(idleTimers := s.idleTimers - timers));
  }

  lemma LandByErrorTruthful(c: Config, s: State, report: Message)
    requires Truthful(c, s) && Can(c, s, LandByError(report))
    ensures Truthful(c, Land(s, report.parent, ErrorOutcome(s, report.parent, report)))
  {
    JustHeardIsHeard(s, report.parent, report);
    LandTruthful(c, s, report.parent, ErrorOutcome(s, report.parent, report));
  }

  // ----- a message -----

  /** One more arrival adds to what its own execution heard, and to nobody else's. */
  lemma HeardByGrows(s: State, msg: Message, n: MsgId)
    requires SentBefore(s) && n in s.h.sentAt
    ensures HeardBy(Arrive(s, msg).h, n, |s.h.arrived| + 1)
            == HeardBy(s.h, n, |s.h.arrived|) + if msg.parent == n then [Arrival(msg, s.h.now)] else []
  {
    var x, log, t := Arrival(msg, s.h.now), s.h.arrived[s.h.sentAt[n]..|s.h.arrived|], Arrive(s, msg);
    assert t.h.arrived[s.h.sentAt[n]..|s.h.arrived| + 1] == log + [x];
    HeardAppend(log, x, n);
  }

  predicate StartsWait(p: Pending, msg: Message) {
    msg.kind.ExecuteReply? && !p.idle && msg.kind.status != Aborted
  }

  /** The record after `msg`. */
  function NotedRecord(p: Pending, msg: Message, serial: nat): Pending {
    match msg.kind
    case InputRequest => p.(timer := false)
    case Status(idle) => if idle then p.(idle := true) else p
    case ExecuteReply(_) => if StartsWait(p, msg) then p.(wait := Some(Wait(serial, msg))) else p
    case OtherKind => p
    case _ => p.(output := p.output + [msg])
  }

  lemma NotedFields(p: Pending, msg: Message, serial: nat)
    ensures var q := NotedRecord(p, msg, serial);
            && q.item == p.item
            && q.output == p.output + (if IsOutput(msg.kind) then [msg] else [])
            && q.idle == (p.idle || msg.kind == Status(true))
            && q.timer == (p.timer && msg.kind != InputRequest)
  {
    assert p.output + [] == p.output;
  }

  lemma NotedRecordTells(p: Pending, msg: Message, serial: nat, heard: seq<Arrival>, x: Arrival)
    requires RecordTells(p, heard) && x.msg == msg
    ensures RecordTells(NotedRecord(p, msg, serial), heard + [x])
  {
    NotedFields(p, msg, serial);
    assert OutputOf(heard + [x]) == OutputOf(heard) + if IsOutput(msg.kind) then [msg] else [] by {
      ReadAppend(heard, x);
    }
    SaidAppend(heard, x, Status(true));
    SaidAppend(heard, x, InputRequest);
  }

  /** The timers after `msg`: the current wait starts over, and a reply that has to wait starts one. */
  function NotedTimers(c: Config, m: MsgId, p: Pending, msg: Message, timers: map<nat, IdleTimer>,
                       serial: nat, now: nat): map<nat, IdleTimer>
  {
    var restarted :=
      if p.wait.Some? then timers[p.wait.value.serial := IdleTimer(m, p.wait.value.reply, now + c.idleWaitMs)]
      else timers;
    if StartsWait(p, msg)
    then restarted[serial := IdleTimer(m, msg, now + c.idleWaitMs)]
    else restarted
  }

  lemma NotedTimersTell(c: Config, m: MsgId, p: Pending, msg: Message, timers: map<nat, IdleTimer>,
                        serial: nat, heard: seq<Arrival>, x: Arrival)
    requires WaitTells(c, m, p, timers, heard) && x.msg == msg
    requires forall i :: 0 <= i < |heard| ==> heard[i].at <= x.at
    requires serial !in timers
    ensures WaitTells(c, m, NotedRecord(p, msg, serial), NotedTimers(c, m, p, msg, timers, serial, x.at), heard + [x])
  {
    ReadAppend(heard, x);
    assert Waited(heard + [x], c.idleWaitMs, x.at + c.idleWaitMs);
    var t := NotedTimers(c, m, p, msg, timers, serial, x.at);
    forall k | k in t && t[k].msgId == m
      ensures WasSaid(heard + [x], t[k].reply)
      ensures p.wait.Some? && k != p.wait.value.serial && k in timers && k != serial ==>
                CutShort(heard + [x], t[k].reply, c.idleWaitMs, t[k].deadline)
      ensures p.wait.Some? && k == p.wait.value.serial && StartsWait(p, msg) ==>
                CutShort(heard + [x], t[k].reply, c.idleWaitMs, t[k].deadline)
    {
      WasSaidAppend(heard, x, t[k].reply);
      if p.wait.Some? && k != serial {
        if k != p.wait.value.serial {
          CutShortAppend(heard, x, t[k].reply, c.idleWaitMs, t[k].deadline);
        } else if StartsWait(p, msg) {
          ReplyCutsShort(heard, x, t[k].reply, c.idleWaitMs, t[k].deadline);
        }
      }
    }
  }

  /** Another execution's timers are not touched. */
  lemma NotedTimersOfOthers(c: Config, m: MsgId, p: Pending, msg: Message, timers: map<nat, IdleTimer>,
                            serial: nat, now: nat, n: MsgId, q: Pending, heard: seq<Arrival>)
    requires m != n && serial !in timers && WaitTells(c, n, q, timers, heard)
    requires p.wait.Some? ==> p.wait.value.serial in timers && timers[p.wait.value.serial].msgId == m
    ensures WaitTells(c, n, q, NotedTimers(c, m, p, msg, timers, serial, now), heard)
  {
  }

  /** `t` is `s` with the message noted for the execution in flight it belongs to. */
  predicate NotedAs(c: Config, s: State, t: State, msg: Message)
    requires msg.parent in s.pending
  {
    var m, p := msg.parent, s.pending[msg.parent];
    && t.pending == s.pending[m := NotedRecord(p, msg, s.h.replies)]
    && t.idleTimers == NotedTimers(c, m, p, msg, s.idleTimers, s.h.replies, s.h.now)
    && t.h == Arrive(s, msg).h.(replies := t.h.replies)
    && t.h.replies == s.h.replies + if StartsWait(p, msg) then 1 else 0
  }

  lemma NoteReplyIs(c: Config, s: State, msg: Message)
    requires msg.parent in s.pending && msg.kind.ExecuteReply?
    ensures NotedAs(c, s, Note(c, s, msg), msg)
  {
    assert s.pending[msg.parent := s.pending[msg.parent]] == s.pending;
  }

  lemma NoteOtherIs(c: Config, s: State, msg: Message)
    requires msg.parent in s.pending && !msg.kind.ExecuteReply?
    ensures NotedAs(c, s, Note(c, s, msg), msg)
  {
    assert s.pending[msg.parent := s.pending[msg.parent]] == s.pending;
  }

  lemma NoteIs(c: Config, s: State, msg: Message)
    requires msg.parent in s.pending
    ensures NotedAs(c, s, Note(c, s, msg), msg)
  {
    if msg.kind.ExecuteReply? {
      NoteReplyIs(c, s, msg);
    } else {
      NoteOtherIs(c, s, msg);
    }
  }

  lemma NoteTimely(c: Config, s: State, msg: Message)
    requires SentBefore(s) && Timely(s) && msg.parent in s.pending
    ensures SentBefore(Note(c, s, msg)) && Timely(Note(c, s, msg))
  {
    NoteIs(c, s, msg);
  }

  lemma NoteTruthful(c: Config, s: State, msg: Message)
    requires Truthful(c, s)
    ensures Truthful(c, Note(c, s, msg))
  {
    var m, t := msg.parent, Note(c, s, msg);
    NoteChanges(c, s, msg);
    SettlementsStay(c, s.h, t.h);
    if m in s.pending {
      NoteIs(c, s, msg);
      NoteTimely(c, s, msg);
      forall n | n in t.pending
        ensures RecordTells(t.pending[n], HeardBy(t.h, n, |t.h.arrived|))
        ensures WaitTells(c, n, t.pending[n], t.idleTimers, HeardBy(t.h, n, |t.h.arrived|))
      {
        NoteTells(c, s, t, msg, n);
      }
    } else {
      forall n | n in s.pending ensures HeardBy(t.h, n, |t.h.arrived|) == HeardBy(s.h, n, |s.h.arrived|) {
        HeardByGrows(s, msg, n);
      }
    }
  }

  lemma NoteTells(c: Config, s: State, t: State, msg: Message, n: MsgId)
    requires Truthful(c, s) && SentBefore(t) && msg.parent in s.pending && n in s.pending
    requires t.pending == s.pending[msg.parent := NotedRecord(s.pending[msg.parent], msg, s.h.replies)]
    requires t.idleTimers == NotedTimers(c, msg.parent, s.pending[msg.parent], msg, s.idleTimers, s.h.replies, s.h.now)
    requires t.h == Arrive(s, msg).h.(replies := t.h.replies)
    ensures RecordTells(t.pending[n], HeardBy(t.h, n, |t.h.arrived|))
    ensures WaitTells(c, n, t.pending[n], t.idleTimers, HeardBy(t.h, n, |t.h.arrived|))
  {
    HeardByGrows(s, msg, n);
    assert HeardBy(t.h, n, |t.h.arrived|) == HeardBy(Arrive(s, msg).h, n, |s.h.arrived| + 1);
    if n == msg.parent {
      assert t.pending[n] == NotedRecord(s.pending[n], msg, s.h.replies);
      NoteOwn(c, s, msg);
      assert HeardBy(t.h, n, |t.h.arrived|) == HeardBy(s.h, n, |s.h.arrived|) + [Arrival(msg, s.h.now)];
      assert RecordTells(t.pending[n], HeardBy(t.h, n, |t.h.arrived|));
    } else {
      assert t.pending[n] == s.pending[n];
      NoteOthers(c, s, msg, n);
      assert HeardBy(t.h, n, |t.h.arrived|) == HeardBy(s.h, n, |s.h.arrived|);
    }
  }

  lemma NoteOthers(c: Config, s: State, msg: Message, n: MsgId)
    requires Truthful(c, s) && msg.parent in s.pending && n in s.pending && n != msg.parent
    ensures WaitTells(c, n, s.pending[n],
                      NotedTimers(c, msg.parent, s.pending[msg.parent], msg, s.idleTimers, s.h.replies, s.h.now),
                      HeardBy(s.h, n, |s.h.arrived|))
  {
    var m := msg.parent;
    assert WaitTells(c, m, s.pending[m], s.idleTimers, HeardBy(s.h, m, |s.h.arrived|));
    NotedTimersOfOthers(c, m, s.pending[m], msg, s.idleTimers, s.h.replies, s.h.now,
                        n, s.pending[n], HeardBy(s.h, n, |s.h.arrived|));
  }

  lemma NoteOwn(c: Config, s: State, msg: Message)
    requires Truthful(c, s) && msg.parent in s.pending
    ensures var m, p, x := msg.parent, s.pending[msg.parent], Arrival(msg, s.h.now);
            && RecordTells(NotedRecord(p, msg, s.h.replies), HeardBy(s.h, m, |s.h.arrived|) + [x])
            && WaitTells(c, m, NotedRecord(p, msg, s.h.replies),
                         NotedTimers(c, m, p, msg, s.idleTimers, s.h.replies, s.h.now),
                         HeardBy(s.h, m, |s.h.arrived|) + [x])
  {
    var m, p, x := msg.parent, s.pending[msg.parent], Arrival(msg, s.h.now);
    var heard := HeardBy(s.h, m, |s.h.arrived|);
    NotedRecordTells(p, msg, s.h.replies, heard, x);
    HeardTimely(s.h.arrived[s.h.sentAt[m]..|s.h.arrived|], m, s.h.now);
    NotedTimersTell(c, m, p, msg, s.idleTimers, s.h.replies, heard, x);
  }

  lemma TruthfulMove(c: Config, s: State, v: Move)
    requires Fresh(s) && Truthful(c, s) && Can(c, s, v)
    ensures Truthful(c, Apply(c, s, v))
  {
    var t := Apply(c, s, v);
    match v
    case Accept(r) =>
      SettlementsStay(c, s.h, t.h);
      RecordsStay(c, s, t);
    case Refuse(r) =>
      SettlementsStay(c, s.h, Count(s, r).h);
      SettleTells(c, Count(s, r).h, s.h.submitted, Rejected(QueueFull), None);
      RecordsStay(c, s, t);
    case HandOver => HandOverTruthful(c, s);
    case Rest => RecordsStay(c, s, t);
    case Hear(msg) => NoteTruthful(c, s, msg);
    case LandByError(report) => LandByErrorTruthful(c, s, report);
    case LandByReply(m, reply, timers) => LandByReplyTruthful(c, s, m, reply, timers);
    case LandByTimeout(m) =>
      var o := Rejected(TimedOut(s.pending[m].item.request.interruptOnTimeout && c.interrupts));
      LandTruthful(c, s, m, o);
      RecordsStay(c, Land(s, m, o), t);
    case Abort =>
      SettleAllTells(c, s.h, IdsOf(s.queue), Resolved(AbortedResult, ByAbort));
      RecordsStay(c, s, t);
    case DropTimer(k) => RecordsStay(c, s, t);
    case Continue(m) => RecordsStay(c, s, t);
    case Empty =>
      SettleAllTells(c, s.h, IdsOf(s.queue), Rejected(Cleared));
      SettleAllTells(c, SettleAll(s.h, IdsOf(s.queue), Rejected(Cleared)), IdsInFlight(s.pending), Rejected(Cleared));
      RecordsStay(c, s, t);
    case Pass(ms) =>
      SettlementsStay(c, s.h, t.h);
      RecordsStay(c, s, t);
  }
}
