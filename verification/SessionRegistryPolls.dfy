/**
 When the registry's destructor stops channels that are being polled
 (native/src/themisto/session_registry.cpp): a kernel's poll thread starts once, when a restart has
 put the kernel into the map, and ends when a stop joins it or when it sees that its kernel is gone.
 */
module SessionRegistryPolls {
  import opened Wrappers
  import opened SessionRegistry

  /** At this event the poll thread of kernel `k` ended by itself, its kernel having exited. */
  ghost predicate EndsPoll(s: State, e: Event, k: nat) {
    e == PollEnds(k) && k < |s.kernels| && !s.kernels[k].alive && s.kernels[k].polling
  }

  ghost predicate PollEnded(events: seq<Event>, k: nat) {
    exists i :: 0 <= i < |events| && EndsPoll(Run(events[..i]), events[i], k)
  }

  lemma PollEndedOneMore(events: seq<Event>, e: Event, k: nat)
    ensures PollEnded(events + [e], k) <==> PollEnded(events, k) || EndsPoll(Run(events), e, k)
    ensures Run(events + [e]) == Step(Run(events), e)
  {
    var more := events + [e];
    assert more[..|events|] == events && more[|events|] == e;
    assert forall i :: 0 <= i < |events| ==> more[..i] == events[..i] && more[i] == events[i];
  }

  /** A thread is still making kernel `k`: its poll thread has not started. */
  predicate Makes(at: At, k: nat) {
    (at.Spawned? && at.k == k) || (at.Connected? && at.k == k) || (at.Installed? && at.k == k)
  }

  /** A thread is about to start its poll thread, or has joined it. */
  predicate Starts(at: At, k: nat) {
    (at.Installed? && at.k == k)
    || (at.Stopping? && at.k == k && (at.stage.StoppingChannels? || at.stage.Killing? || at.stage.Erasing?))
  }

  ghost predicate Made(s: State, k: nat) {
    exists t :: t in s.threads && Makes(s.threads[t].at, k)
  }

  ghost predicate Started(s: State, k: nat) {
    exists t :: t in s.threads && Starts(s.threads[t].at, k)
  }

  /** What one step does to the polling of a kernel, and to the threads that see to it. */
  ghost predicate PollsStep(s: State, s': State, e: Event, k: nat)
    requires k < |s.kernels|
  {
    && |s'.kernels| >= |s.kernels|
    && (s'.kernels[k].polling && !s.kernels[k].polling ==> Made(s, k) && !Made(s', k))
    && (EndsPoll(s, e, k) ==> !s'.kernels[k].polling)
    && (Made(s', k) ==> Made(s, k))
    && (s.kernels[k].polling && !s'.kernels[k].polling ==> EndsPoll(s, e, k) || Started(s', k))
    && (s'.session == Some(k) && s.session != Some(k) ==> Started(s', k))
    && (s'.session == Some(k) && !s'.kernels[k].polling && Started(s, k) ==> Started(s', k))
  }

  /** The same for the one thread that makes the step. */
  predicate OwnStep(s: State, s': State, t: ThreadId, k: nat)
    requires k < |s.kernels| && t in s.threads
  {
    && |s'.kernels| >= |s.kernels| && t in s'.threads && s'.threads == s.threads[t := s'.threads[t]]
    && (s'.kernels[k].polling && !s.kernels[k].polling ==> Makes(s.threads[t].at, k) && !Makes(s'.threads[t].at, k))
    && (Makes(s'.threads[t].at, k) ==> Makes(s.threads[t].at, k))
    && (s.kernels[k].polling && !s'.kernels[k].polling ==> Starts(s'.threads[t].at, k))
    && (s'.session == Some(k) && s.session != Some(k) ==> Starts(s'.threads[t].at, k))
    && (s'.session == Some(k) && !s'.kernels[k].polling && Starts(s.threads[t].at, k) ==> Starts(s'.threads[t].at, k))
  }

  lemma StoppingStep(s: State, t: ThreadId, lock: LockId, k: nat, stage: Stage, outcome: bool, i: nat)
    requires t in s.threads && s.threads[t].at == Stopping(lock, k, stage) && i < |s.kernels|
    ensures OwnStep(s, GoStopping(s, t, lock, k, stage, outcome), t, i)
  {
    assert s.threads[t := s.threads[t]] == s.threads;
  }

  lemma MakingStep(s: State, t: ThreadId, outcome: bool, i: nat)
    requires t in s.threads && i < |s.kernels|
    requires var at := s.threads[t].at; at.Creating? || at.Spawned? || at.Connected? || at.Installed?
    ensures OwnStep(s, Go(s, t, outcome), t, i)
  {
    assert s.threads[t := s.threads[t]] == s.threads;
  }

  lemma LockingStep(s: State, t: ThreadId, outcome: bool, i: nat)
    requires t in s.threads && i < |s.kernels|
    requires var at := s.threads[t].at;
             at.Entering? || at.Locking? || at.Reentering? || at.Relocking? || at.UnlockingInner? || at.Unlocking?
                 || at.Done?
    ensures OwnStep(s, Go(s, t, outcome), t, i)
  {
    assert s.threads[t := s.threads[t]] == s.threads;
  }

  lemma LookingStep(s: State, t: ThreadId, outcome: bool, i: nat)
    requires t in s.threads && i < |s.kernels|
    requires var at := s.threads[t].at; at.Looking? || at.Sending? || at.LookingAgain? || at.ErasingAgain?
    ensures OwnStep(s, Go(s, t, outcome), t, i)
  {
  }

  lemma GoStep(s: State, t: ThreadId, outcome: bool, i: nat)
    requires t in s.threads && i < |s.kernels|
    ensures OwnStep(s, Go(s, t, outcome), t, i)
  {
    var at := s.threads[t].at;
    if at.Stopping? {
      StoppingStep(s, t, at.lock, at.k, at.stage, outcome, i);
    } else if at.Creating? || at.Spawned? || at.Connected? || at.Installed? {
      MakingStep(s, t, outcome, i);
    } else if at.Looking? || at.Sending? || at.LookingAgain? || at.ErasingAgain? {
      LookingStep(s, t, outcome, i);
    } else {
      LockingStep(s, t, outcome, i);
    }
  }

  lemma GoPolls(s: State, t: ThreadId, outcome: bool, k: nat)
    requires Inv(s) && t in s.threads && k < |s.kernels|
    ensures PollsStep(s, Go(s, t, outcome), Goes(t, outcome), k)
  {
    var s' := Go(s, t, outcome);
    GoStep(s, t, outcome, k);
    assert forall o :: o in s.threads && o != t ==> s'.threads[o] == s.threads[o];
    if Makes(s.threads[t].at, k) {
      OnlyOwnerInside(s, t);
    }
  }

  lemma StepPolls(s: State, e: Event, k: nat)
    requires Inv(s) && k < |s.kernels|
    ensures PollsStep(s, Step(s, e), e, k)
  {
    match e
    case Goes(t, outcome) =>
      if t in s.threads {
        GoPolls(s, t, outcome, k);
      }
    case Calls(t, op) =>
      var s' := Step(s, e);
      assert forall o :: o in s.threads ==> o in s'.threads && s'.threads[o] == s.threads[o];
    case _ =>
  }

  // ----- over a run -----

  /**
   Polls from its start to its end; a listed kernel that is not polled is about to be, or to go, or its
   poll has ended.
   */
  ghost predicate Accounted(s: State, ended: bool, k: nat) {
    && (Made(s, k) ==> k < |s.kernels| && !s.kernels[k].polling)
    && (ended ==> k < |s.kernels| && !s.kernels[k].polling && !Made(s, k))
    && (k < |s.kernels| && s.session == Some(k) && !s.kernels[k].polling && !s.closed ==> ended || Started(s, k))
  }

  lemma StaysAccounted(s: State, s': State, e: Event, ended: bool, k: nat)
    requires k < |s.kernels| && PollsStep(s, s', e, k) && Accounted(s, ended, k)
    requires s.closed ==> s'.closed
    ensures Accounted(s', ended || EndsPoll(s, e, k), k)
  {
  }

  lemma InRange(s: State, k: nat)
    requires Inv(s)
    ensures Made(s, k) ==> k < |s.kernels|
    ensures !s.closed && s.session == Some(k) ==> k < |s.kernels|
  {
    if t :| t in s.threads && DepthOf(s.threads[t]) > 0 {
      assert Phase(s, s.threads[t].at);
    }
    if t :| t in s.threads && Makes(s.threads[t].at, k) {
      assert Phase(s, s.threads[t].at);
    }
  }

  lemma NoNewWhileStopping(s: State, t: ThreadId, lock: LockId, k: nat, stage: Stage, outcome: bool)
    requires t in s.threads
    ensures |GoStopping(s, t, lock, k, stage, outcome).kernels| == |s.kernels|
  {
  }

  /** A step adds one kernel at most, not polled yet and not listed. */
  predicate Grows(s: State, s': State) {
    && (s.closed ==> s'.closed)
    && (|s'.kernels| > |s.kernels| ==>
          |s'.kernels| == |s.kernels| + 1 && !s'.kernels[|s.kernels|].polling && s'.session == s.session)
  }

  lemma StepGrows(s: State, e: Event)
    ensures Grows(s, Step(s, e))
  {
    if e.Goes? && e.thread in s.threads && s.threads[e.thread].at.Stopping? {
      var at := s.threads[e.thread].at;
      NoNewWhileStopping(s, e.thread, at.lock, at.k, at.stage, e.outcome);
    }
  }

  /** A kernel that is not there yet, and may appear with this step. */
  lemma NewAccounted(s: State, s': State, k: nat)
    requires Inv(s) && Inv(s') && Grows(s, s') && k >= |s.kernels|
    ensures Accounted(s', false, k)
  {
    InRange(s, k);
    InRange(s', k);
  }

  lemma StepAccounted(s: State, e: Event, ended: bool, k: nat)
    requires Inv(s) && Inv(Step(s, e)) && Accounted(s, ended, k)
    ensures Accounted(Step(s, e), ended || EndsPoll(s, e, k), k)
  {
    StepGrows(s, e);
    if k < |s.kernels| {
      StepPolls(s, e, k);
      StaysAccounted(s, Step(s, e), e, ended, k);
    } else {
      NewAccounted(s, Step(s, e), k);
    }
  }

  lemma {:induction false} RunAccounted(events: seq<Event>, k: nat)
    ensures Accounted(Run(events), PollEnded(events, k), k)
    decreases |events|
  {
    if events != [] {
      var init, e := events[..|events| - 1], events[|events| - 1];
      RunAccounted(init, k);
      RunInv(init);
      RunInv(events);
      assert events == init + [e];
      PollEndedOneMore(init, e, k);
      StepAccounted(Run(init), e, PollEnded(init, k), k);
    }
  }

  /** With no operation in progress a listed kernel is polled exactly until its poll thread ends by itself. */
  lemma PolledUntilItEnds(events: seq<Event>, k: nat)
    requires var s := Run(events); Quiet(s) && !s.closed && s.session == Some(k)
    ensures k < |Run(events).kernels| && (Run(events).kernels[k].polling <==> !PollEnded(events, k))
  {
    RunAccounted(events, k);
    RunInv(events);
    InRange(Run(events), k);
  }

  /**
   The registry's destructor, unlike a stop, does not join the poll thread first: it stops channels
   that are being polled exactly when a kernel is listed whose poll thread has not ended by itself.
   */
  lemma DestructorStopsUnderPollIff(events: seq<Event>)
    requires var s := Run(events); Quiet(s) && !s.closed
    ensures var s, d := Run(events), Step(Run(events), Destroys);
            (exists i :: 0 <= i < |d.kernels| && d.kernels[i].polling && d.kernels[i].client == Closed)
            <==> (s.session.Some? && !PollEnded(events, s.session.value))
  {
    var s, d := Run(events), Step(Run(events), Destroys);
    RunInv(events);
    if s.session.Some? {
      var k := s.session.value;
      PolledUntilItEnds(events, k);
      if s.kernels[k].polling {
        assert d.kernels[k].polling && d.kernels[k].client == Closed;
      }
    }
  }
}
