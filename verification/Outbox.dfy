/**
 The outbox as the object it is (native/src/themisto/outbox.hpp): the queue and two flags that
 producers change under the mutex, and the sender thread's loops. Between two of its lock operations
 the sender lets the other threads act; what they do is given by `others`. Whatever that is, the
 loops are proved to make exactly the sender's steps of OutboxSpec.
 */
module Outboxes {
  import opened Framing
  import opened OutboxSpec

  /** What the other threads do: anything but the sender's own step. */
  predicate Foreign(events: seq<Event>) {
    forall i :: 0 <= i < |events| ==> !events[i].Send?
  }

  class Outbox {
    var queue: seq<string>
    var stopping: bool
    var abandoned: bool
    // The connection: what was handed to it, and how much of that it still holds.
    var sent: seq<string>
    var unsent: nat
    // What the other threads still do, one list for each time the sender lets them.
    var others: seq<seq<Event>>
    /** Every event so far, and the state they lead to (with the sender's local variables). */
    ghost var events: seq<Event>
    ghost var now: State

    ghost predicate Valid()
      reads this
    {
      && now == After(events)
      && now.queue == queue && now.stopping == stopping && now.abandoned == abandoned
      && now.sent == sent && now.unsent == unsent
      && forall i :: 0 <= i < |others| ==> Foreign(others[i])
    }

    constructor (others: seq<seq<Event>>)
      requires forall i :: 0 <= i < |others| ==> Foreign(others[i])
      ensures Valid() && events == [] && this.others == others
    {
      queue, stopping, abandoned, sent, unsent := [], false, false, [], 0;
      this.others, events, now := others, [], Start();
    }

    method Push(text: string)
      requires Valid()
      modifies this`queue, this`events, this`now
      ensures Valid() && events == old(events) + [Event.Push(text)] && now == Step(old(now), Event.Push(text))
      ensures queue == if stopping then old(queue) else old(queue) + [text]
    {
      if !stopping {
        queue := queue + [text];
      }
      Record(Event.Push(text));
    }

    method Stop()
      requires Valid()
      modifies this`stopping, this`events, this`now
      ensures Valid() && events == old(events) + [Event.Stop] && now == Step(old(now), Event.Stop) && stopping
    {
      stopping := true;
      Record(Event.Stop);
    }

    method Abandon()
      requires Valid()
      modifies this`queue, this`stopping, this`abandoned, this`events, this`now
      ensures Valid() && events == old(events) + [Event.Abandon] && now == Step(old(now), Event.Abandon)
      ensures stopping && abandoned && queue == []
    {
      stopping, abandoned, queue := true, true, [];
      Record(Event.Abandon);
    }

    /** The connection writes some of what it holds to the network. */
    method Drain(bytes: nat)
      requires Valid()
      modifies this`unsent, this`events, this`now
      ensures Valid() && events == old(events) + [Event.Drain(bytes)] && now == Step(old(now), Event.Drain(bytes))
    {
      unsent := if bytes < unsent then unsent - bytes else 0;
      Record(Event.Drain(bytes));
    }

    ghost method Record(e: Event)
      requires now == After(events)
      modifies this`events, this`now
      ensures events == old(events) + [e] && now == Step(old(now), e) == After(events)
    {
      assert (events + [e])[..|events + [e]| - 1] == events;
      events, now := events + [e], Step(now, e);
    }

    /** The sender's frame: what the other threads cannot touch. */
    twostate predicate SenderKept()
      reads this
    {
      && now.sender == old(now.sender) && now.batch == old(now.batch) && now.frame == old(now.frame)
      && sent == old(sent) && Later()
    }

    /** Later in the same run; nothing comes into the queue while the other threads rest. */
    twostate predicate Later()
      reads this
    {
      && old(events) <= events && |others| <= old(|others|)
      && (|others| == old(|others|) ==> queue == old(queue))
    }

    /** Lets the other threads act once; false when nobody is ever going to do anything again. */
    method LetOthersAct() returns (acted: bool)
      requires Valid()
      modifies this
      ensures Valid() && SenderKept()
      ensures acted ==> |others| < old(|others|)
      ensures !acted ==> others == [] && now == old(now)
    {
      if others == [] {
        return false;
      }
      var acts := others[0];
      assert Foreign(others[0]);
      others := others[1..];
      for i := 0 to |acts|
        invariant Valid() && |others| < old(|others|) && SenderKept()
      {
        match acts[i] {
          case Push(text) => Push(text);
          case Stop => Stop();
          case Abandon => Abandon();
          case Drain(bytes) => Drain(bytes);
        }
      }
      return true;
    }

    /** A place where the sender may stay for good: nothing to send, or a connection that drains no more. */
    ghost predicate Waiting()
      reads this
    {
      others == [] && !abandoned &&
      ((now.sender.Idle? && queue == [] && !stopping) || (now.sender.Draining? && unsent > K_MAX_BUFFERED))
    }

    /** Waits while the connection holds too much, unless the outbox is abandoned. */
    method AwaitDrain() returns (left: bool)
      requires Valid() && now.sender.Draining? && now.frame == ""
      modifies this
      ensures Valid() && Later()
      ensures now.frame == "" && now.batch == old(now.batch) && sent == old(sent)
      ensures if left then now.sender == Resume(now).sender else Waiting()
    {
      while true
        invariant Valid() && now.sender.Draining? && now.frame == "" && now.batch == old(now.batch)
        invariant sent == old(sent) && Later()
        decreases |others|
      {
        var acted := LetOthersAct();
        var enough := unsent <= K_MAX_BUFFERED;
        Record(Send);
        if enough {
          return true;
        }
        var actedToo := LetOthersAct();
        var gone := abandoned;
        Record(Send);
        if gone {
          return true;
        }
        if !acted && !actedToo {
          return false;
        }
      }
    }

    /** Sends the open frame and waits for the connection, or for abandon(). */
    method Flush(frame: string) returns (left: bool)
      requires Valid() && now.frame == frame
      requires now.sender.Placing? || now.sender.Checking?
      requires now.sender.Placing? ==> now.batch != [] && TooLong(frame, now.batch[0])
      requires now.sender.Checking? ==> now.batch == []
      modifies this
      ensures Valid() && Later()
      ensures sent == old(sent) + if frame == "" then [] else [frame]
      ensures left ==> now.frame == "" && now.batch == old(now.batch) && now.sender == Resume(now).sender
      ensures !left ==> Waiting()
    {
      if frame == "" {
        Record(Send);
        return true;
      }
      sent := sent + [frame];
      unsent := unsent + |frame|;
      Record(Send);
      left := AwaitDrain();
    }

    /** Puts one text into the frame, sending the open one first when it would grow too long. */
    method Place(open: string, text: string) returns (frame: string, left: bool)
      requires Valid() && now.sender.Placing? && now.frame == open && now.batch != [] && now.batch[0] == text
      modifies this
      ensures Valid() && Later()
      ensures left ==> now.sender.Checking? && now.frame == frame && now.batch == old(now.batch)[1..]
      ensures left ==> sent + Frames(frame, now.batch) == old(sent) + Frames(open, old(now.batch))
      ensures !left ==> Waiting()
    {
      frame := open;
      if TooLong(frame, text) {
        left := Flush(frame);
        if !left {
          return;
        }
        frame := "";
        assert old(sent) + [open] + Frames(text, now.batch[1..]) == old(sent) + Frames(open, now.batch);
      }
      frame, left := Join(frame, text), true;
      Record(Send);
    }

    /** Packs one batch; `done` is false when the thread stops or stays inside it. */
    method SendBatch(batch: seq<string>) returns (done: bool)
      requires Valid() && now.sender.Checking? && now.batch == batch && now.frame == ""
      modifies this
      ensures Valid() && Later()
      ensures done ==> now.sender.Idle? && sent == old(sent) + Frames("", batch)
      ensures !done ==> if abandoned then now.sender.Ended? else Waiting()
    {
      var frame := "";
      for i := 0 to |batch|
        invariant Valid() && now.sender.Checking? && now.batch == batch[i..] && now.frame == frame
        invariant sent + Frames(frame, batch[i..]) == old(sent) + Frames("", batch)
        invariant Later()
      {
        var _ := LetOthersAct();
        var gone := abandoned;
        Record(Send);
        if gone {
          return false;
        }
        var _ := LetOthersAct();
        var left;
        frame, left := Place(frame, batch[i]);
        if !left {
          return false;
        }
        assert batch[i..][1..] == batch[i + 1..];
      }
      done := Flush(frame);
    }

    /** Waits until there is something to send or the outbox is stopping. */
    method AwaitTexts() returns (woken: bool)
      requires Valid() && now.sender.Idle?
      modifies this
      ensures Valid() && Later() && now.sender.Idle?
      ensures if woken then stopping || queue != [] else Waiting()
    {
      while !stopping && queue == []
        invariant Valid() && Later() && now.sender.Idle?
        decreases |others|
      {
        var acted := LetOthersAct();
        if !acted {
          RunInv(events);
          return false;
        }
      }
      return true;
    }

    /** The sender thread. It ends, or nobody is left to wake it and it has nothing it may send. */
    method Run() returns (ended: bool)
      requires Valid() && now.sender.Idle?
      modifies this
      ensures Valid() && old(events) <= events
      ensures if ended then now.sender.Ended? else Waiting()
    {
      while true
        invariant Valid() && now.sender.Idle? && old(events) <= events
        decreases |others|, |queue|
      {
        var woken := AwaitTexts();
        if !woken {
          return false;
        }
        if queue == [] {
          Record(Send);
          return true;
        }
        var batch := queue;
        queue := [];
        Record(Send);
        var done := SendBatch(batch);
        if !done {
          return abandoned;
        }
      }
    }
  }
}
