/**
 The execution queue as the object it is: a FIFO, a flag and a map of records that messages and
 timers update in place. Every entry point is proved to make exactly the step that
 ExecutionQueueSpec gives it, so the theorems about all runs are theorems about this object.
 */
module ExecutionQueues {
  import opened Wrappers
  import opened ExecutionQueueSpec
  import opened ExecutionQueueMoves
  import opened ExecutionQueueInvariants
  import opened ExecutionQueueTheorems

  /** One in-flight execution; `wait` is set while finishWhenIdle and restartIdleWait are. */
  class PendingExecution {
    const item: Item
    var output: seq<Message>
    var timer: bool
    var idle: bool
    var wait: Option<Wait>

    constructor (item: Item)
      ensures this.item == item && Value() == Pending(item, [], TimeoutMs(item.request) > 0, false, None)
    {
      this.item := item;
      output, timer, idle, wait := [], TimeoutMs(item.request) > 0, false, None;
    }

    ghost function Value(): Pending
      reads this
    {
      Pending(item, output, timer, idle, wait)
    }
  }

  ghost function RecordsOf(pending: map<MsgId, PendingExecution>): map<MsgId, Pending>
    reads pending.Values
  {
    map m | m in pending :: pending[m].Value()
  }

  class ExecutionQueue {
    const config: Config
    var queue: seq<Item>
    var executing: bool
    var pending: map<MsgId, PendingExecution>
    // The JavaScript runtime's side: armed idle fallbacks, continuations, and what promises got.
    var idleTimers: map<nat, IdleTimer>
    var resuming: set<MsgId>
    var h: History
    /** Every event so far, and every record ever made. */
    ghost var events: seq<Event>
    ghost var made: set<PendingExecution>

    ghost function Abs(): State
      reads this, pending.Values
    {
      State(queue, executing, RecordsOf(pending), idleTimers, resuming, h)
    }

    /** No two message ids share a record. */
    ghost predicate Separate()
      reads this
    {
      && pending.Values <= made
      && forall m, n :: m in pending && n in pending && m != n ==> pending[m] != pending[n]
    }

    /** The object is where its events lead. */
    ghost predicate Valid()
      reads this, pending.Values
    {
      Separate() && Abs() == After(config, events)
    }

    constructor (config: Config)
      ensures Valid() && events == [] && this.config == config && made == {}
    {
      this.config := config;
      queue, executing, pending := [], false, map[];
      idleTimers, resuming, h := map[], {}, Initial.h;
      events, made := [], {};
      new;
      assert RecordsOf(pending) == map[];
    }

    // ----- private -----

    method ProcessNext()
      requires Separate()
      modifies this`queue, this`executing, this`pending, this`made, this`h
      ensures Separate() && Abs() == ExecutionQueueSpec.ProcessNext(old(Abs()))
      ensures fresh(made - old(made))
      decreases |queue|
    {
      if |queue| == 0 {
        executing := false;
        return;
      }
      var sent := HandOver();
      if !sent {
        ProcessNext();
      }
    }

    /** The first item goes to the addon, which takes it or refuses it. */
    method HandOver() returns (sent: bool)
      requires Separate() && queue != []
      modifies this`queue, this`executing, this`pending, this`made, this`h
      ensures Separate() && Abs() == HandOverFirst(old(Abs()))
      ensures sent == old(queue[0].request.answer.Id?) && fresh(made - old(made))
    {
      executing := true;
      var item := queue[0];
      queue := queue[1..];
      h := h.(handed := h.handed + [item]);
      assert RecordsOf(pending) == old(RecordsOf(pending));
      match item.request.answer
      case Id(m) => Send(item, m); return true;
      case Throws => h := Settle(h, item.id, Rejected(AddonThrew), None); return false;
      case NoId => h := Settle(h, item.id, Rejected(NoMessageId), None); return false;
    }

    /** The item reached the kernel as message `m`: its record. */
    method Send(item: Item, m: MsgId)
      requires Separate()
      modifies this`pending, this`made, this`h
      ensures Separate() && Abs() == ExecutionQueueSpec.Send(old(Abs()), item, m)
      ensures fresh(made - old(made))
    {
      var record := new PendingExecution(item);
      pending := pending[m := record];
      made := made + {record};
      h := h.(sentAt := h.sentAt[m := |h.arrived|]);
      assert RecordsOf(pending) == old(RecordsOf(pending))[m := record.Value()];
    }

    /** Settles the promises of `items`, one after the other. */
    method SettleEach(items: seq<Item>, outcome: Outcome)
      requires Increasing(items)
      modifies this`h
      ensures h == SettleAll(old(h), IdsOf(items), outcome)
    {
      SettleNone(h, outcome);
      for i := 0 to |items|
        invariant h == SettleAll(old(h), IdsOf(items[..i]), outcome)
      {
        SettleNext(old(h), items, i, outcome);
        h := Settle(h, items[i].id, outcome, None);
      }
      assert items[..|items|] == items;
    }

    method AbortQueued()
      requires Increasing(queue)
      modifies this`queue, this`h
      ensures Abs() == ExecutionQueueSpec.AbortQueued(old(Abs()))
    {
      var aborted := queue;
      queue := [];
      SettleEach(aborted, Resolved(AbortedResult, ByAbort));
    }

    /** The record's `finish`. */
    method Finish(m: MsgId, outcome: Outcome)
      requires Separate() && m in pending
      modifies this`queue, this`executing, this`pending, this`made, this`h
      ensures Separate() && Abs() == ExecutionQueueSpec.Finish(old(Abs()), m, outcome)
      ensures fresh(made - old(made))
    {
      var item := pending[m].item;
      pending := pending - {m};
      h := Settle(h, item.id, outcome, Some(m));
      assert RecordsOf(pending) == old(RecordsOf(pending)) - {m};
      ProcessNext();
    }

    /** `finishNow` of a reply; `timer` is the idle fallback it disarms, if it has one. */
    method FinishNow(m: MsgId, reply: ReplyMessage, timers: set<nat>)
      requires Separate() && m in pending && Increasing(queue)
      modifies this`queue, this`executing, this`pending, this`made, this`h, this`idleTimers
      ensures Separate()
      ensures Abs() == FinishByReply(old(Abs()).(idleTimers := old(idleTimers) - timers), m, reply)
      ensures fresh(made - old(made))
    {
      idleTimers := idleTimers - timers;
      ghost var s := Abs();
      assert s == old(Abs()).(idleTimers := old(idleTimers) - timers);
      var status := reply.kind.status;
      if status != Ok && pending[m].item.request.stopOnError {
        AbortQueued();
        assert Abs() == ExecutionQueueSpec.AbortQueued(s);
      }
      Finish(m, Resolved(ReplyResult(status, pending[m].output), ByReply(reply)));
    }

    // ----- the entry points -----

    method Execute(r: Request)
      requires Valid() && (r.answer.Id? ==> r.answer.msgId !in h.used)
      modifies this, made
      ensures Valid() && events == old(events) + [Submits(r)]
      ensures fresh(made - old(made))
    {
      OneMore(config, events, Submits(r));
      events := events + [Submits(r)];
      Submit(r);
    }

    method Submit(r: Request)
      requires Separate()
      modifies this`queue, this`executing, this`pending, this`made, this`h
      ensures Separate() && fresh(made - old(made))
      ensures Abs() == ExecutionQueueSpec.Submit(config, old(Abs()), r)
    {
      var item := Item(h.submitted, r);
      h := h.(submitted := h.submitted + 1, used := if r.answer.Id? then h.used + {r.answer.msgId} else h.used);
      assert RecordsOf(pending) == old(RecordsOf(pending));
      if |queue| >= config.maxSize {
        h := Settle(h, item.id, Rejected(QueueFull), None);
      } else {
        Accept(item);
      }
    }

    /** Behind the others; first in line when nothing runs. */
    method Accept(item: Item)
      requires Separate()
      modifies this`queue, this`executing, this`pending, this`made, this`h
      ensures Separate() && fresh(made - old(made))
      ensures Abs() == var s := old(Abs()).(queue := old(queue) + [item]);
                       if s.executing then s else ExecutionQueueSpec.ProcessNext(s)
    {
      queue := queue + [item];
      assert Abs() == old(Abs()).(queue := old(queue) + [item]);
      if !executing {
        ProcessNext();
      }
    }

    method HandleMessage(msg: Message)
      requires Valid()
      modifies this, made
      ensures Valid() && events == old(events) + [Hears(msg)]
      ensures fresh(made - old(made))
    {
      Orderly();
      OneMore(config, events, Hears(msg));
      events := events + [Hears(msg)];
      var m := msg.parent;
      h := h.(arrived := h.arrived + [Arrival(msg, h.now)]);
      assert Abs() == Arrive(old(Abs()), msg);
      if m !in pending {
        return;
      }
      RestartIdleWait(m);
      assert Abs() == ExecutionQueueSpec.RestartIdleWait(config, Arrive(old(Abs()), msg), m);
      match msg.kind
      case InputRequest => Record(m, pending[m].output, false, pending[m].idle, pending[m].wait);
      case Status(idle) =>
        if idle {
          BeIdle(m);
        }
      case ErrorReport => Fail(m, msg);
      case ExecuteReply(_) => Reply(m, msg);
      case OtherKind =>
      case _ => Record(m, pending[m].output + [msg], pending[m].timer, pending[m].idle, pending[m].wait);
    }

    method RestartIdleWait(m: MsgId)
      requires m in pending
      modifies this`idleTimers
      ensures Abs() == ExecutionQueueSpec.RestartIdleWait(config, old(Abs()), m)
    {
      if pending[m].wait.Some? {
        var w := pending[m].wait.value;
        idleTimers := idleTimers[w.serial := IdleTimer(m, w.reply, h.now + config.idleWaitMs)];
      }
    }

    /** Updates the record of `m` in place. */
    method Record(m: MsgId, output: seq<Message>, timer: bool, idle: bool, wait: Option<Wait>)
      requires Separate() && m in pending
      modifies pending[m]
      ensures Abs() == Update(old(Abs()), m, Pending(pending[m].item, output, timer, idle, wait))
    {
      var record := pending[m];
      record.output, record.timer, record.idle, record.wait := output, timer, idle, wait;
      assert RecordsOf(pending) == old(RecordsOf(pending))[m := record.Value()];
    }

    method BeIdle(m: MsgId)
      requires Separate() && m in pending && Increasing(queue)
      modifies this`queue, this`executing, this`pending, this`made, this`h, this`idleTimers, pending[m]
      ensures Separate() && fresh(made - old(made))
      ensures Abs() == ExecutionQueueSpec.BeIdle(old(Abs()), m)
    {
      Record(m, pending[m].output, pending[m].timer, true, pending[m].wait);
      if pending[m].wait.Some? {
        FinishNow(m, pending[m].wait.value.reply, {pending[m].wait.value.serial});
      }
    }

    method Fail(m: MsgId, msg: Message)
      requires Separate() && m in pending && Increasing(queue)
      modifies this`queue, this`executing, this`pending, this`made, this`h, pending[m]
      ensures Separate() && fresh(made - old(made))
      ensures Abs() == ExecutionQueueSpec.Fail(old(Abs()), m, msg)
    {
      Record(m, pending[m].output + [msg], pending[m].timer, pending[m].idle, pending[m].wait);
      if pending[m].item.request.stopOnError {
        AbortQueued();
      }
      Finish(m, Resolved(Result(false, Some(Failed), false, pending[m].output), ByError(msg)));
    }

    method Reply(m: MsgId, msg: ReplyMessage)
      requires Separate() && m in pending && Increasing(queue)
      modifies this`queue, this`executing, this`pending, this`made, this`h, this`idleTimers, pending[m]
      ensures Separate() && fresh(made - old(made))
      ensures Abs() == ExecutionQueueSpec.Reply(config, old(Abs()), m, msg)
    {
      if pending[m].idle || msg.kind.status == Aborted {
        assert idleTimers - {} == idleTimers;
        FinishNow(m, msg, {});
      } else {
        StartIdleWait(m, msg);
      }
    }

    method StartIdleWait(m: MsgId, msg: ReplyMessage)
      requires Separate() && m in pending && !pending[m].idle && msg.kind.status != Aborted
      modifies this`h, this`idleTimers, pending[m]
      ensures Abs() == ExecutionQueueSpec.Reply(config, old(Abs()), m, msg)
    {
      var w := Wait(h.replies, msg);
      Record(m, pending[m].output, pending[m].timer, pending[m].idle, Some(w));
      ghost var s := Abs();
      h := h.(replies := h.replies + 1);
      idleTimers := idleTimers[w.serial := IdleTimer(m, msg, h.now + config.idleWaitMs)];
      assert RecordsOf(pending) == s.pending;
    }

    /** The timer of an execution goes off. */
    method OnTimeout(m: MsgId)
      requires Valid() && m in pending && pending[m].timer
      modifies this
      ensures Valid() && events == old(events) + [TimesOut(m)]
      ensures fresh(made - old(made))
    {
      OneMore(config, events, TimesOut(m));
      events := events + [TimesOut(m)];
      TimeOut(m);
    }

    method TimeOut(m: MsgId)
      requires Separate() && m in pending
      modifies this`pending, this`resuming, this`h
      ensures Separate() && made == old(made) && Abs() == ExecutionQueueSpec.TimeOut(config, old(Abs()), m)
    {
      var item := pending[m].item;
      pending := pending - {m};
      var interrupting := item.request.interruptOnTimeout && config.interrupts;
      resuming := resuming + {m};
      h := Settle(h, item.id, Rejected(TimedOut(interrupting)), Some(m));
      assert RecordsOf(pending) == old(RecordsOf(pending)) - {m};
    }

    /** What follows a timeout, once its interrupt is answered (or has failed). */
    method OnInterruptAnswered(m: MsgId)
      requires Valid() && m in resuming
      modifies this
      ensures Valid() && events == old(events) + [Resumes(m)]
      ensures fresh(made - old(made))
    {
      OneMore(config, events, Resumes(m));
      events := events + [Resumes(m)];
      resuming := resuming - {m};
      ProcessNext();
    }

    /** An idle fallback goes off; only an execution still in flight is finished. */
    method OnIdleFallback(k: nat)
      requires Valid() && k in idleTimers && idleTimers[k].deadline <= h.now
      modifies this
      ensures Valid() && events == old(events) + [IdleTimerElapses(k)]
      ensures fresh(made - old(made))
    {
      Orderly();
      OneMore(config, events, IdleTimerElapses(k));
      events := events + [IdleTimerElapses(k)];
      var t := idleTimers[k];
      if t.msgId in pending {
        FinishNow(t.msgId, t.reply, {k});
      } else {
        idleTimers := idleTimers - {k};
      }
    }

    method Clear()
      requires Valid()
      modifies this
      ensures Valid() && events == old(events) + [Clears]
      ensures fresh(made - old(made))
    {
      Orderly();
      OneMore(config, events, Clears);
      ghost var s := Abs();
      events := events + [Clears];
      assert After(config, events) == ExecutionQueueSpec.Clear(s);
      RejectAll();
    }

    method RejectAll()
      requires Increasing(queue)
      requires forall m, n :: m in pending && n in pending && m != n ==> pending[m].item.id != pending[n].item.id
      modifies this`queue, this`executing, this`pending, this`h
      ensures pending == map[] && Abs() == ExecutionQueueSpec.Clear(old(Abs()))
    {
      SettleEach(queue, Rejected(Cleared));
      queue := [];
      executing := false;
      assert RecordsOf(pending) == old(RecordsOf(pending));
      RejectInFlight();
      assert RecordsOf(pending) == map[];
    }

    /** Rejects every execution in flight, in whatever order the map is walked. */
    method RejectInFlight()
      requires forall m, n :: m in pending && n in pending && m != n ==> pending[m].item.id != pending[n].item.id
      modifies this`pending, this`h
      ensures pending == map[]
      ensures h == SettleAll(old(h), IdsInFlight(old(RecordsOf(pending))), Rejected(Cleared))
    {
      ghost var all := RecordsOf(pending);
      var todo := pending.Keys;
      assert all - todo == map[];
      SettleNone(h, Rejected(Cleared));
      while todo != {}
        invariant todo == pending.Keys <= all.Keys
        invariant forall m :: m in pending ==> pending[m].item == all[m].item
        invariant h == SettleAll(old(h), IdsInFlight(all - todo), Rejected(Cleared))
        decreases todo
      {
        var m :| m in todo;
        RejectOneMore(old(h), all, todo, m);
        h := Settle(h, pending[m].item.id, Rejected(Cleared), None);
        pending := pending - {m};
        todo := todo - {m};
      }
      assert all - {} == all;
    }

    lemma Orderly()
      requires Valid()
      ensures Increasing(queue)
      ensures forall m, n :: m in pending && n in pending && m != n ==> pending[m].item.id != pending[n].item.id
    {
      AfterInv(config, events);
      assert forall m :: m in pending ==> Abs().pending[m].item == pending[m].item;
    }
  }

  lemma NextInFlight(all: map<MsgId, Pending>, todo: set<MsgId>, m: MsgId)
    requires m in todo && todo <= all.Keys
    requires forall m, n :: m in all && n in all && m != n ==> all[m].item.id != all[n].item.id
    ensures all[m].item.id !in IdsInFlight(all - todo)
    ensures IdsInFlight(all - (todo - {m})) == IdsInFlight(all - todo) + {all[m].item.id}
  {
    var before, after := all - todo, all - (todo - {m});
    assert forall n :: n in after <==> n == m || n in before;
    assert forall n :: n in before ==> n in all && n != m && before[n] == all[n] && after[n] == all[n];
    assert m in after && after[m] == all[m];
  }

  lemma RejectOneMore(h: History, all: map<MsgId, Pending>, todo: set<MsgId>, m: MsgId)
    requires m in todo && todo <= all.Keys
    requires forall m, n :: m in all && n in all && m != n ==> all[m].item.id != all[n].item.id
    ensures Settle(SettleAll(h, IdsInFlight(all - todo), Rejected(Cleared)), all[m].item.id, Rejected(Cleared), None)
         == SettleAll(h, IdsInFlight(all - (todo - {m})), Rejected(Cleared))
  {
    NextInFlight(all, todo, m);
    SettleOneMore(h, IdsInFlight(all - todo), all[m].item.id, Rejected(Cleared));
  }

  lemma SettleNone(h: History, o: Outcome)
    ensures SettleAll(h, {}, o) == h
  {
    forall id | id in h.settled ensures SettleAll(h, {}, o).settled[id] == h.settled[id] {
      assert h.settled[id] + [] == h.settled[id];
    }
    assert SettleAll(h, {}, o).settled == h.settled;
  }

  lemma SettleOneMore(h: History, ids: set<nat>, id: nat, o: Outcome)
    requires id !in ids
    ensures Settle(SettleAll(h, ids, o), id, o, None) == SettleAll(h, ids + {id}, o)
  {
    var all, more := SettleAll(h, ids, o), SettleAll(h, ids + {id}, o);
    assert SettledOf(h, id) + [] == SettledOf(h, id);
    assert SettledOf(all, id) == SettledOf(h, id);
    assert Settle(all, id, o, None).settled == more.settled;
  }

  lemma SettleNext(h: History, items: seq<Item>, i: nat, o: Outcome)
    requires i < |items| && Increasing(items)
    ensures Settle(SettleAll(h, IdsOf(items[..i]), o), items[i].id, o, None) == SettleAll(h, IdsOf(items[..i + 1]), o)
  {
    assert items[..i + 1] == items[..i] + [items[i]];
    IdsOfAppend(items[..i], items[i]);
    SettleOneMore(h, IdsOf(items[..i]), items[i].id, o);
  }
}
