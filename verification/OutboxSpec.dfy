/**
 One client's outbox as a step machine (native/src/themisto/outbox.hpp): producers push under the
 mutex, a sender thread swaps the queue for an empty one, packs it into frames, and waits while the
 connection holds too much. Every event is one stretch between two lock operations, so a run is any
 sequence of events; an event that is not possible in a state leaves it as it is.
 */
module OutboxSpec {
  import opened Framing
  import F = Folds

  const K_MAX_BUFFERED: nat := 0x10_0000

  /**
   Where the sender thread is: waiting for something to send, about to ask whether it was abandoned
   before the next text, about to place that text, about to read how much is unsent, about to ask
   whether it was abandoned while too much is, or gone.
   */
  datatype Sender = Idle | Checking | Placing | Draining | Asking | Ended

  datatype Event = Push(text: string) | Stop | Abandon | Drain(bytes: nat) | Send

  /** `accepted` and `taken` are history: the texts pushed in time, and the batches swapped out. */
  datatype State = State(
    queue: seq<string>,
    stopping: bool,
    abandoned: bool,
    sender: Sender,
    batch: seq<string>,
    frame: string,
    sent: seq<string>,
    unsent: nat,
    accepted: seq<string>,
    taken: seq<seq<string>>)

  function Start(): State {
    State([], false, false, Idle, [], "", [], 0, [], [])
  }

  /** The end of the wait: leave when stopping with nothing queued, else take everything queued. */
  function Take(s: State): State {
    if s.queue != [] then
      s.(batch := s.queue, queue := [], frame := "", sender := Checking, taken := s.taken + [s.queue])
    else if s.stopping then s.(sender := Ended)
    else s
  }

  /** flush(): an empty frame is not sent; after sending one, wait for the connection. */
  function Flush(s: State): State {
    if s.frame == "" then s
    else s.(sent := s.sent + [s.frame], unsent := s.unsent + |s.frame|, frame := "", sender := Draining)
  }

  /** Top of the loop over the batch; past its end the last frame goes out unasked. */
  function Check(s: State): State {
    if s.batch == [] then Flush(s.(sender := Idle))
    else s.(sender := if s.abandoned then Ended else Placing)
  }

  function Place(s: State): State
    requires s.batch != []
  {
    if TooLong(s.frame, s.batch[0]) then Flush(s)
    else s.(frame := Join(s.frame, s.batch[0]), batch := s.batch[1..], sender := Checking)
  }

  /** Where the sender goes on after a flush: back to the text that did not fit, or to the queue. */
  function Resume(s: State): State {
    s.(sender := if s.batch == [] then Idle else Placing)
  }

  function SenderStep(s: State): State {
    match s.sender
    case Idle => Take(s)
    case Checking => Check(s)
    case Placing => if s.batch == [] then s else Place(s)
    case Draining => if s.unsent > K_MAX_BUFFERED then s.(sender := Asking) else Resume(s)
    case Asking => if s.abandoned then Resume(s) else s.(sender := Draining)
    case Ended => s
  }

  function Step(s: State, e: Event): State {
    match e
    case Push(text) => if s.stopping then s else s.(queue := s.queue + [text], accepted := s.accepted + [text])
    case Stop => s.(stopping := true)
    case Abandon => s.(stopping := true, abandoned := true, queue := [])
    case Drain(bytes) => s.(unsent := if bytes < s.unsent then s.unsent - bytes else 0)
    case Send => SenderStep(s)
  }

  function Run(s: State, events: seq<Event>): State {
    F.Fold(Step, s, events)
  }

  function After(events: seq<Event>): State {
    Run(Start(), events)
  }

  // ----- what every step keeps -----

  function Flatten(batches: seq<seq<string>>): seq<string> {
    if batches == [] then [] else Flatten(batches[..|batches| - 1]) + batches[|batches| - 1]
  }

  /** The frames of a list of batches, each batch packed by itself. */
  function Packed(batches: seq<seq<string>>): seq<string> {
    if batches == [] then []
    else Packed(batches[..|batches| - 1]) + Frames("", batches[|batches| - 1])
  }

  lemma FlattenOneMore(batches: seq<seq<string>>, batch: seq<string>)
    ensures Flatten(batches + [batch]) == Flatten(batches) + batch
    ensures Packed(batches + [batch]) == Packed(batches) + Frames("", batch)
  {
    var more := batches + [batch];
    assert more[..|more| - 1] == batches;
  }

  lemma {:induction false} PackedLines(batches: seq<seq<string>>)
    ensures LinesOf(Packed(batches)) == LinesOf(Flatten(batches))
  {
    if batches != [] {
      var init, last := batches[..|batches| - 1], batches[|batches| - 1];
      PackedLines(init);
      FramesLines("", last);
      assert LinesOf(Frames("", last)) == LinesOf(last);
      LinesOfAppend(Packed(init), Frames("", last));
      LinesOfAppend(Flatten(init), last);
    }
  }

  /** Between batches nothing is left over; a flush leaves no open frame. */
  predicate Placed(s: State) {
    match s.sender
    case Idle => s.frame == "" && s.batch == []
    case Checking => true
    case Placing => s.batch != []
    case Draining => s.frame == "" && s.sent != []
    case Asking => s.frame == "" && s.sent != []
    case Ended => s.stopping && (s.abandoned || (s.frame == "" && s.batch == [] && s.queue == []))
  }

  predicate Conserves(s: State) {
    && Flatten(s.taken) <= s.accepted
    && (!s.abandoned ==> Flatten(s.taken) + s.queue == s.accepted)
  }

  /** The batch is what is left of the one taken last. */
  predicate HoldsRest(s: State) {
    s.batch != [] ==>
      && s.taken != [] && |s.batch| <= |s.taken[|s.taken| - 1]|
      && s.batch == s.taken[|s.taken| - 1][|s.taken[|s.taken| - 1]| - |s.batch|..]
  }

  /** Abandoning empties the queue and keeps it empty. */
  predicate Stops(s: State) {
    s.abandoned ==> s.stopping && s.queue == []
  }

  /** What is sent and what the rest of the batch will be packed into are the packed batches. */
  predicate PacksGreedily(s: State) {
    s.sent + Frames(s.frame, s.batch) == Packed(s.taken)
  }

  /** At most kMaxBuffered bytes wait when a frame is sent; until then the last one is on top. */
  predicate Bounded(s: State) {
    !s.abandoned ==>
      if s.sender.Draining? || s.sender.Asking?
      then s.sent != [] && s.unsent <= K_MAX_BUFFERED + |s.sent[|s.sent| - 1]|
      else s.unsent <= K_MAX_BUFFERED
  }

  predicate Inv(s: State) {
    Placed(s) && Conserves(s) && HoldsRest(s) && Stops(s) && PacksGreedily(s) && Bounded(s)
  }

  lemma TakeInv(s: State)
    requires Inv(s) && s.sender.Idle?
    ensures Inv(Take(s))
  {
    if s.queue != [] {
      FlattenOneMore(s.taken, s.queue);
      assert Frames(s.frame, s.batch) == [];
      assert s.sent + Frames("", s.queue) == Packed(s.taken) + Frames("", s.queue);
      assert Flatten(s.taken) + s.queue + [] == Flatten(s.taken) + s.queue;
    }
  }

  lemma CheckInv(s: State)
    requires Inv(s) && s.sender.Checking?
    ensures Inv(Check(s))
  {
    if s.batch == [] && s.frame != "" {
      assert Frames(s.frame, s.batch) == [s.frame] && Frames("", s.batch) == [];
      assert s.sent + [s.frame] + [] == s.sent + [s.frame];
    }
  }

  lemma PlaceInv(s: State)
    requires Inv(s) && s.sender.Placing?
    ensures Inv(Place(s))
  {
    var text, rest := s.batch[0], s.batch[1..];
    if TooLong(s.frame, text) {
      assert Frames("", s.batch) == Frames(Join("", text), rest);
      assert s.sent + [s.frame] + Frames(text, rest) == s.sent + ([s.frame] + Frames(text, rest));
    }
  }

  lemma SenderStepInv(s: State)
    requires Inv(s)
    ensures Inv(SenderStep(s))
  {
    match s.sender {
      case Idle => TakeInv(s);
      case Checking => CheckInv(s);
      case Placing => PlaceInv(s);
      case _ =>
    }
  }

  lemma PushInv(s: State, text: string)
    requires Inv(s)
    ensures Inv(Step(s, Push(text)))
  {
    assert Flatten(s.taken) + (s.queue + [text]) == Flatten(s.taken) + s.queue + [text];
  }

  lemma StepInv(s: State, e: Event)
    requires Inv(s)
    ensures Inv(Step(s, e))
  {
    match e {
      case Send => SenderStepInv(s);
      case Push(text) => PushInv(s, text);
      case _ =>
    }
  }

  lemma {:induction false} RunInv(events: seq<Event>)
    ensures Inv(After(events))
  {
    if events != [] {
      RunInv(events[..|events| - 1]);
      StepInv(After(events[..|events| - 1]), events[|events| - 1]);
    }
  }

  // ----- what it promises -----

  lemma AccountedFor(s: State)
    requires Inv(s) && !s.abandoned
    ensures LinesOf(s.sent) + Lines(s.frame) + LinesOf(s.batch) + LinesOf(s.queue) == LinesOf(s.accepted)
  {
    var frames := Frames(s.frame, s.batch);
    PackedLines(s.taken);
    FramesLines(s.frame, s.batch);
    LinesOfAppend(s.sent, frames);
    LinesOfAppend(Flatten(s.taken), s.queue);
    assert LinesOf(s.sent) + (Lines(s.frame) + LinesOf(s.batch)) == LinesOf(s.sent) + Lines(s.frame) + LinesOf(s.batch);
  }

  /** Nothing is lost, doubled or reordered until the outbox is abandoned. */
  lemma EverythingIsAccountedFor(events: seq<Event>)
    ensures var s := After(events);
            !s.abandoned ==>
              LinesOf(s.sent) + Lines(s.frame) + LinesOf(s.batch) + LinesOf(s.queue) == LinesOf(s.accepted)
  {
    RunInv(events);
    if !After(events).abandoned {
      AccountedFor(After(events));
    }
  }

  /** The rest of the batch and the queue are texts that were accepted. */
  lemma WaitingWereAccepted(s: State)
    requires Inv(s) && !s.abandoned
    ensures forall text :: text in s.batch ==> text in s.accepted
    ensures forall text :: text in s.queue ==> text in s.accepted
  {
    assert s.accepted == Flatten(s.taken) + s.queue;
    if s.batch != [] {
      var last := s.taken[|s.taken| - 1];
      FlattenOneMore(s.taken[..|s.taken| - 1], last);
      assert s.taken[..|s.taken| - 1] + [last] == s.taken;
      assert forall text :: text in s.batch ==> text in last;
    }
  }

  /** The same for texts that are lines, as JSON is: the client gets the accepted texts themselves. */
  lemma AcceptedTextsArrive(events: seq<Event>)
    requires forall text :: text in After(events).accepted ==> IsLine(text)
    ensures var s := After(events);
            !s.abandoned ==> LinesOf(s.sent) + Lines(s.frame) + s.batch + s.queue == s.accepted
    ensures LinesOf(After(events).sent) <= After(events).accepted
  {
    var s := After(events);
    RunInv(events);
    EverythingIsAccountedFor(events);
    SentIsAPrefix(events);
    LinesOfLines(s.accepted);
    if !s.abandoned {
      WaitingWereAccepted(s);
      LinesOfLines(s.batch);
      LinesOfLines(s.queue);
    }
  }

  /** What has been sent is always a prefix of what was accepted, abandoned or not. */
  lemma SentIsAPrefix(events: seq<Event>)
    ensures LinesOf(After(events).sent) <= LinesOf(After(events).accepted)
  {
    RunInv(events);
    var s := After(events);
    PackedLines(s.taken);
    LinesOfAppend(s.sent, Frames(s.frame, s.batch));
    var rest := s.accepted[|Flatten(s.taken)|..];
    assert s.accepted == Flatten(s.taken) + rest;
    LinesOfAppend(Flatten(s.taken), rest);
  }

  /** Unless it was abandoned, the thread ends only when asked to and with everything sent. */
  lemma EndsWithEverythingSent(events: seq<Event>)
    ensures var s := After(events);
            s.sender.Ended? ==>
              && s.stopping
              && (!s.abandoned ==> s.sent == Packed(s.taken) && LinesOf(s.sent) == LinesOf(s.accepted))
  {
    RunInv(events);
    EverythingIsAccountedFor(events);
    var s := After(events);
    if s.sender.Ended? && !s.abandoned {
      assert s.sent + [] == s.sent;
      assert LinesOf(s.sent) + [] + [] + [] == LinesOf(s.sent);
    }
  }

  /** Until the outbox is abandoned, the connection holds at most kMaxBuffered bytes and one frame. */
  lemma BackpressureBound(events: seq<Event>)
    ensures var s := After(events);
            !s.abandoned ==>
              s.unsent <= K_MAX_BUFFERED + if s.sent == [] then 0 else |s.sent[|s.sent| - 1]|
  {
    RunInv(events);
  }

  lemma {:induction false} PackedAllowed(batches: seq<seq<string>>)
    ensures forall f :: f in Packed(batches) ==> Allowed(f, Flatten(batches)) && f != ""
  {
    if batches != [] {
      var init, last := batches[..|batches| - 1], batches[|batches| - 1];
      PackedAllowed(init);
      FramesAllowed("", last, Flatten(batches));
    }
  }

  /** Every frame sent is non-empty and within the limit, unless it is one accepted text by itself. */
  lemma SentFramesAreAllowed(events: seq<Event>)
    ensures var s := After(events);
            forall f :: f in s.sent ==> f != "" && (|f| <= K_FRAME_BYTES || f in s.accepted)
  {
    RunInv(events);
    var s := After(events);
    PackedAllowed(s.taken);
    assert forall f :: f in s.sent ==> f in Packed(s.taken);
  }

  ghost predicate AreSplits(splits: seq<seq<seq<string>>>, batches: seq<seq<string>>) {
    |splits| == |batches| && forall i :: 0 <= i < |splits| ==> IsSplit(splits[i], batches[i])
  }

  function Groups(splits: seq<seq<seq<string>>>): nat {
    if splits == [] then 0 else Groups(splits[..|splits| - 1]) + |splits[|splits| - 1]|
  }

  lemma {:induction false} PackedIsOptimal(batches: seq<seq<string>>, splits: seq<seq<seq<string>>>)
    requires AreSplits(splits, batches)
    ensures |Packed(batches)| <= Groups(splits)
  {
    if batches != [] {
      var n := |batches| - 1;
      PackedIsOptimal(batches[..n], splits[..n]);
      assert IsSplit(splits[n], batches[n]);
      GreedyIsOptimal(batches[n], splits[n]);
    }
  }

  /** However the batches taken are split into allowed frames, no fewer frames than were sent will do. */
  lemma FewestFramesAreSent(events: seq<Event>, splits: seq<seq<seq<string>>>)
    requires AreSplits(splits, After(events).taken)
    ensures |After(events).sent| <= Groups(splits)
  {
    RunInv(events);
    PackedIsOptimal(After(events).taken, splits);
  }

  // ----- after abandon() -----

  /** How many more steps of its own an abandoned sender makes at most. */
  function StepsLeft(s: State): nat {
    match s.sender
    case Ended => 0
    case Idle => 1
    case Checking => if s.batch == [] then 4 else 1
    case Placing => if s.frame == "" then 5 else 8
    case Draining => if s.batch == [] then 3 else 7
    case Asking => if s.batch == [] then 2 else 6
  }

  /** And how many more frames it sends at most. */
  function FramesLeft(s: State): nat {
    match s.sender
    case Checking => if s.batch == [] then 1 else 0
    case Placing => if s.frame == "" then 1 else 2
    case Draining => if s.batch == [] then 0 else 1
    case Asking => if s.batch == [] then 0 else 1
    case _ => 0
  }

  lemma AbandonedSend(s: State)
    requires Placed(s) && s.abandoned && s.stopping && s.queue == []
    ensures var s' := SenderStep(s);
            && s'.abandoned
            && |s'.sent| + FramesLeft(s') <= |s.sent| + FramesLeft(s)
            && StepsLeft(s') <= if s.sender.Ended? then StepsLeft(s) else StepsLeft(s) - 1
  {
  }

  lemma AbandonedStep(s: State, e: Event)
    requires Placed(s) && s.abandoned && s.stopping && s.queue == []
    ensures var s' := Step(s, e);
            && s'.abandoned
            && |s'.sent| + FramesLeft(s') <= |s.sent| + FramesLeft(s)
            && StepsLeft(s') <= if e.Send? && !s.sender.Ended? then StepsLeft(s) - 1 else StepsLeft(s)
  {
    if e.Send? {
      AbandonedSend(s);
    }
  }

  function Sends(events: seq<Event>): nat {
    if events == [] then 0
    else Sends(events[..|events| - 1]) + if events[|events| - 1].Send? then 1 else 0
  }

  lemma {:induction false} AbandonedRun(s: State, events: seq<Event>)
    requires Inv(s) && s.abandoned
    ensures var s' := Run(s, events);
            && Inv(s') && s'.abandoned
            && |s'.sent| + FramesLeft(s') <= |s.sent| + FramesLeft(s)
            && (s'.sender.Ended? || StepsLeft(s') + Sends(events) <= StepsLeft(s))
  {
    if events != [] {
      var init, e := events[..|events| - 1], events[|events| - 1];
      AbandonedRun(s, init);
      AbandonedStep(Run(s, init), e);
      StepInv(Run(s, init), e);
    }
  }

  /**
   Whatever happens after abandon(), eight more steps of the sender end it, and at most two more
   frames go out: the one being packed and, after it, the last text of the batch.
   */
  lemma AbandonEndsTheThread(before: seq<Event>, after: seq<Event>)
    ensures var s, s' := After(before + [Abandon]), After(before + [Abandon] + after);
            && |s'.sent| <= |s.sent| + 2
            && (Sends(after) >= 8 ==> s'.sender.Ended?)
  {
    RunInv(before + [Abandon]);
    assert (before + [Abandon])[..|before|] == before;
    var s := After(before + [Abandon]);
    F.FoldAppend(Step, Start(), before + [Abandon], after);
    AbandonedRun(s, after);
  }

  // ----- after stop() -----

  /** What is left of its own steps to a sender that is not held up by its connection. */
  function Work(s: State): nat {
    11 * |s.queue| + 6 * |s.batch| +
    match s.sender
    case Ended => 0
    case Idle => 1
    case Checking => if s.batch == [] then 4 else 5
    case Placing => if s.frame == "" then 1 else 4
    case Draining => 2
    case Asking => 3
  }

  lemma WorksOff(s: State)
    requires Placed(s) && s.stopping && !s.abandoned && s.unsent <= K_MAX_BUFFERED
    ensures var s' := SenderStep(s);
            s'.stopping && !s'.abandoned && (s.sender.Ended? || Work(s') < Work(s))
  {
  }

  lemma WorkStep(s: State, e: Event)
    requires Placed(s) && s.stopping && !s.abandoned && e != Abandon && (e.Send? ==> s.unsent <= K_MAX_BUFFERED)
    ensures var s' := Step(s, e);
            && s'.stopping && !s'.abandoned && (s.sender.Ended? ==> s'.sender.Ended?)
            && (s.sender.Ended? || Work(s') <= Work(s) - if e.Send? then 1 else 0)
  {
    if e.Send? {
      WorksOff(s);
    }
  }

  /** The connection takes what it is given: it never holds too much when the sender goes on. */
  predicate NeverHeldUp(s: State, events: seq<Event>) {
    forall i :: 0 <= i < |events| && events[i].Send? ==> Run(s, events[..i]).unsent <= K_MAX_BUFFERED
  }

  lemma {:induction false} WorkRun(s: State, events: seq<Event>)
    requires Inv(s) && s.stopping && !s.abandoned && Abandon !in events && NeverHeldUp(s, events)
    ensures var s' := Run(s, events);
            && Inv(s') && s'.stopping && !s'.abandoned
            && (s'.sender.Ended? || Work(s') + Sends(events) <= Work(s))
  {
    if events != [] {
      var init, e := events[..|events| - 1], events[|events| - 1];
      forall i | 0 <= i < |init| && init[i].Send? ensures Run(s, init[..i]).unsent <= K_MAX_BUFFERED {
        assert init[..i] == events[..i] && init[i] == events[i];
      }
      WorkRun(s, init);
      WorkStep(Run(s, init), e);
      StepInv(Run(s, init), e);
    }
  }

  /**
   After stop(), a sender whose connection keeps taking what it is given ends with everything sent that
   was accepted: within eleven of its own steps for each queued text, six for each of its batch, and six more.
   */
  lemma StopSendsTheRest(before: seq<Event>, after: seq<Event>)
    requires var s := After(before + [Stop]);
             !s.abandoned && NeverHeldUp(s, after) && Sends(after) >= 11 * |s.queue| + 6 * |s.batch| + 6
    requires Abandon !in after
    ensures var s' := After(before + [Stop] + after);
            s'.sender.Ended? && LinesOf(s'.sent) == LinesOf(After(before + [Stop]).accepted)
  {
    RunInv(before + [Stop]);
    assert (before + [Stop])[..|before|] == before;
    var s := After(before + [Stop]);
    F.FoldAppend(Step, Start(), before + [Stop], after);
    WorkRun(s, after);
    EndsWithEverythingSent(before + [Stop] + after);
    AcceptsNoMore(s, after);
  }

  lemma {:induction false} AcceptsNoMore(s: State, events: seq<Event>)
    requires s.stopping
    ensures Run(s, events).stopping && Run(s, events).accepted == s.accepted
  {
    if events != [] {
      AcceptsNoMore(s, events[..|events| - 1]);
    }
  }
}
