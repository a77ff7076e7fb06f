/**
 What a stop, a restart and a send come to (native/src/themisto/session_registry.cpp), in every interleaving
 with others: stated from what the call was, what it found when it looked for the session, and what happened
 to the kernels since.
 */
module SessionRegistryOutcomes {
  import opened Wrappers
  import opened SessionRegistry
  import opened SessionRegistryPolls

  // ----- what happened -----

  /** What a thread found when it looked for the session, and how many kernels there had been by then. */
  datatype Look = Look(session: Option<nat>, kernels: nat)

  function Found(events: seq<Event>, t: ThreadId): Option<Look> {
    if events == [] then None
    else
      var init, e := events[..|events| - 1], events[|events| - 1];
      var s := Run(init);
      if e.Goes? && e.thread == t && t in s.threads && s.threads[t].at.Looking?
      then Some(Look(s.session, |s.kernels|))
      else Found(init, t)
  }

  function Sends(s: State, k: nat): nat {
    if k < |s.kernels| then s.kernels[k].sends else 0
  }

  /** How often thread `t` sent to kernel `k`. */
  function SentBy(events: seq<Event>, t: ThreadId, k: nat): int {
    if events == [] then 0
    else
      var init, e := events[..|events| - 1], events[|events| - 1];
      SentBy(init, t, k)
      + if e.Goes? && e.thread == t then Sends(Run(events), k) - Sends(Run(init), k) else 0
  }

  predicate Exited(events: seq<Event>, k: nat) {
    Exits(k) in events
  }

  /** Nothing the thread waits for or asks of others fails. */
  predicate AlwaysSucceeds(events: seq<Event>, t: ThreadId) {
    Goes(t, false) !in events
  }

  /** The spawn or the handshake of the thread's new kernel failed. */
  predicate Failed(events: seq<Event>, t: ThreadId) {
    if events == [] then false
    else
      var init := events[..|events| - 1];
      var s := Run(init);
      || Failed(init, t)
      || (events[|events| - 1] == Goes(t, false) && t in s.threads
          && (s.threads[t].at.Creating? || s.threads[t].at.Spawned?))
  }

  /** Stopped for good: dead, its channels stopped, not listed. */
  predicate Gone(s: State, k: nat) {
    k < |s.kernels| && !s.kernels[k].alive && s.kernels[k].client == Closed && s.session != Some(k)
  }

  predicate Early(at: At) {
    at.Entering? || at.Locking? || at.Looking?
  }

  // ----- one step -----

  lemma WhileStopping(s: State, t: ThreadId, k: nat, outcome: bool)
    requires Inv(s) && t in s.threads && s.threads[t].at.Stopping? && Gone(s, k)
    ensures Gone(Go(s, t, outcome), k)
  {
    assert Phase(s, s.threads[t].at);
  }

  lemma WhileMaking(s: State, t: ThreadId, k: nat, outcome: bool)
    requires Inv(s) && t in s.threads && Gone(s, k)
    requires s.threads[t].at.Spawned? || s.threads[t].at.Connected? || s.threads[t].at.Installed?
    ensures Gone(Go(s, t, outcome), k)
  {
    assert Phase(s, s.threads[t].at);
  }

  lemma WhileElsewhere(s: State, t: ThreadId, k: nat, outcome: bool)
    requires Inv(s) && t in s.threads && Gone(s, k) && !s.threads[t].at.Stopping?
    requires !s.threads[t].at.Spawned? && !s.threads[t].at.Connected? && !s.threads[t].at.Installed?
    ensures Gone(Go(s, t, outcome), k)
  {
    if DepthOf(s.threads[t]) > 0 {
      assert Phase(s, s.threads[t].at);
    }
  }

  /** What is gone stays gone. */
  lemma StaysGone(s: State, e: Event, k: nat)
    requires Inv(s) && Gone(s, k)
    ensures Gone(Step(s, e), k)
  {
    match e
    case Goes(t, outcome) =>
      if t in s.threads {
        var at := s.threads[t].at;
        if at.Stopping? {
          WhileStopping(s, t, k, outcome);
        } else if at.Spawned? || at.Connected? || at.Installed? {
          WhileMaking(s, t, k, outcome);
        } else {
          WhileElsewhere(s, t, k, outcome);
        }
      }
    case _ =>
  }

  /** While a thread has the lock, nobody else lists or unlists a kernel or moves the thread. */
  lemma OthersLeave(s: State, e: Event, t: ThreadId)
    requires Inv(s) && t in s.threads && DepthOf(s.threads[t]) > 0 && !(e.Goes? && e.thread == t)
    ensures var u := Step(s, e);
            t in u.threads && u.threads[t] == s.threads[t] && u.session == s.session && |u.kernels| == |s.kernels|
  {
    if e.Goes? && e.thread in s.threads {
      OnlyOwnerInside(s, t);
      assert DepthOf(s.threads[e.thread]) == 0;
    }
  }

  // ----- where a thread is, and what that means for the kernel it found -----

  /** The thread found kernel `k`, there being `n` kernels by then. */
  ghost predicate PlacedWith(s: State, thread: Thread, k: nat, n: nat, failed: bool) {
    match thread.at
    case Sending(_, j) => j == k
    case Reentering(_, j) => j == k
    case Relocking(_, _, j) => j == k
    case LookingAgain(_, _) => s.session == Some(k)
    case Stopping(_, j, _) => j == k
    case Spawned(_, j) => Gone(s, k) && n <= j
    case Connected(_, j) => Gone(s, k) && n <= j
    case Installed(_, j) => Gone(s, k) && n <= j
    case Unlocking(_) =>
      && (thread.op != Send ==> Gone(s, k))
      && (thread.op == Restart ==> failed || (s.session.Some? && n <= s.session.value))
    case _ => thread.op != Send ==> Gone(s, k)
  }

  ghost predicate Placed(s: State, thread: Thread, look: Option<Look>, failed: bool) {
    if Early(thread.at) then look.None?
    else
      && look.Some? && look.value.kernels <= |s.kernels|
      && match look.value.session
         case None => thread.at.Unlocking? || thread.at.Done?
         case Some(k) => k < look.value.kernels && PlacedWith(s, thread, k, look.value.kernels, failed)
  }

  /** What the step's own thread has found after it, and whether its kernel failed. */
  function LookAfter(s: State, t: ThreadId, look: Option<Look>): Option<Look>
    requires t in s.threads
  {
    if s.threads[t].at.Looking? then Some(Look(s.session, |s.kernels|)) else look
  }

  predicate FailedAfter(s: State, t: ThreadId, outcome: bool, failed: bool)
    requires t in s.threads
  {
    failed || (!outcome && (s.threads[t].at.Creating? || s.threads[t].at.Spawned?))
  }

  /** The step of a thread leaves it where it should be. */
  ghost predicate StaysPlaced(s: State, t: ThreadId, outcome: bool, look: Option<Look>, failed: bool)
    requires t in s.threads
  {
    var u := Go(s, t, outcome);
    && t in u.threads && u.threads[t].op == s.threads[t].op
    && Placed(u, u.threads[t], LookAfter(s, t, look), FailedAfter(s, t, outcome, failed))
  }

  lemma EarlyPlaced(s: State, t: ThreadId, outcome: bool, look: Option<Look>, failed: bool)
    requires Inv(s) && t in s.threads && Early(s.threads[t].at) && Placed(s, s.threads[t], look, failed)
    ensures StaysPlaced(s, t, outcome, look, failed)
  {
    if s.threads[t].at.Looking? {
      assert Phase(s, s.threads[t].at);
    }
  }

  lemma FirstPlaced(s: State, t: ThreadId, outcome: bool, look: Option<Look>, failed: bool)
    requires Inv(s) && t in s.threads && Placed(s, s.threads[t], look, failed)
    requires var at := s.threads[t].at; at.Sending? || at.Reentering? || at.Relocking? || at.LookingAgain?
    ensures StaysPlaced(s, t, outcome, look, failed)
  {
    assert Phase(s, s.threads[t].at);
  }

  lemma ErasingPlaced(s: State, t: ThreadId, outcome: bool, look: Option<Look>, failed: bool)
    requires Inv(s) && t in s.threads && s.threads[t].at.Stopping? && Placed(s, s.threads[t], look, failed)
    requires s.threads[t].at.stage == Erasing
    ensures StaysPlaced(s, t, outcome, look, failed)
  {
    assert Phase(s, s.threads[t].at);
    assert OpFits(s.threads[t]);
  }

  lemma StoppingPlaced(s: State, t: ThreadId, outcome: bool, look: Option<Look>, failed: bool)
    requires Inv(s) && t in s.threads && s.threads[t].at.Stopping? && Placed(s, s.threads[t], look, failed)
    ensures StaysPlaced(s, t, outcome, look, failed)
  {
    var at := s.threads[t].at;
    if at.stage == Erasing {
      ErasingPlaced(s, t, outcome, look, failed);
    } else {
      StoppingStays(s, t, at.lock, at.k, at.stage, outcome);
    }
  }

  /** Before the kernel is taken out of the map, the stop goes on with the same kernel. */
  lemma StoppingStays(s: State, t: ThreadId, lock: LockId, k: nat, stage: Stage, outcome: bool)
    requires t in s.threads && s.threads[t].at == Stopping(lock, k, stage) && stage != Erasing
    ensures var u := GoStopping(s, t, lock, k, stage, outcome);
            && t in u.threads && u.threads[t].op == s.threads[t].op && |u.kernels| == |s.kernels|
            && u.threads[t].at.Stopping? && u.threads[t].at.k == k
  {
  }

  lemma EmptyPlaced(s: State, t: ThreadId, outcome: bool, look: Option<Look>, failed: bool)
    requires Inv(s) && t in s.threads && Placed(s, s.threads[t], look, failed)
    requires var at := s.threads[t].at; at.UnlockingInner? || at.ErasingAgain? || at.Creating?
    ensures StaysPlaced(s, t, outcome, look, failed)
  {
    if look.value.session.Some? && s.threads[t].op != Send {
      StaysGone(s, Goes(t, outcome), look.value.session.value);
    }
  }

  lemma LaterPlaced(s: State, t: ThreadId, outcome: bool, look: Option<Look>, failed: bool)
    requires Inv(s) && t in s.threads && Placed(s, s.threads[t], look, failed)
    requires var at := s.threads[t].at; at.Unlocking? || at.Done?
    ensures StaysPlaced(s, t, outcome, look, failed)
  {
    if look.value.session.Some? && s.threads[t].op != Send {
      StaysGone(s, Goes(t, outcome), look.value.session.value);
    }
  }

  lemma SpawnedPlaced(s: State, t: ThreadId, outcome: bool, look: Option<Look>, failed: bool)
    requires Inv(s) && t in s.threads && s.threads[t].at.Spawned? && Placed(s, s.threads[t], look, failed)
    ensures StaysPlaced(s, t, outcome, look, failed)
  {
    assert Phase(s, s.threads[t].at);
    StaysGone(s, Goes(t, outcome), look.value.session.value);
  }

  lemma MakingPlaced(s: State, t: ThreadId, outcome: bool, look: Option<Look>, failed: bool)
    requires Inv(s) && t in s.threads && Placed(s, s.threads[t], look, failed)
    requires s.threads[t].at.Connected? || s.threads[t].at.Installed?
    ensures StaysPlaced(s, t, outcome, look, failed)
  {
    assert Phase(s, s.threads[t].at);
    StaysGone(s, Goes(t, outcome), look.value.session.value);
  }

  lemma OwnPlaced(s: State, t: ThreadId, outcome: bool, look: Option<Look>, failed: bool)
    requires Inv(s) && t in s.threads && Placed(s, s.threads[t], look, failed)
    ensures StaysPlaced(s, t, outcome, look, failed)
  {
    var at := s.threads[t].at;
    if Early(at) {
      EarlyPlaced(s, t, outcome, look, failed);
    } else if at.Sending? || at.Reentering? || at.Relocking? || at.LookingAgain? {
      FirstPlaced(s, t, outcome, look, failed);
    } else if at.Stopping? {
      StoppingPlaced(s, t, outcome, look, failed);
    } else if at.Spawned? {
      SpawnedPlaced(s, t, outcome, look, failed);
    } else if at.Connected? || at.Installed? {
      MakingPlaced(s, t, outcome, look, failed);
    } else if at.UnlockingInner? || at.ErasingAgain? || at.Creating? {
      EmptyPlaced(s, t, outcome, look, failed);
    } else {
      LaterPlaced(s, t, outcome, look, failed);
    }
  }

  lemma NeverFewer(s: State, e: Event)
    ensures |Step(s, e).kernels| >= |s.kernels|
  {
    StepGrows(s, e);
    if e.Goes? && e.thread in s.threads && s.threads[e.thread].at.Stopping? {
      var at := s.threads[e.thread].at;
      NoNewWhileStopping(s, e.thread, at.lock, at.k, at.stage, e.outcome);
    }
  }

  lemma StoppingMovesOne(s: State, t: ThreadId, outcome: bool)
    requires t in s.threads && s.threads[t].at.Stopping?
    ensures var u := Go(s, t, outcome); t in u.threads && u.threads == s.threads[t := u.threads[t]]
  {
    assert s.threads[t := s.threads[t]] == s.threads;
  }

  lemma MakingMovesOne(s: State, t: ThreadId, outcome: bool)
    requires t in s.threads
    requires var at := s.threads[t].at; at.Creating? || at.Spawned? || at.Connected? || at.Installed?
    ensures var u := Go(s, t, outcome); t in u.threads && u.threads == s.threads[t := u.threads[t]]
  {
    assert s.threads[t := s.threads[t]] == s.threads;
  }

  lemma GoMovesOne(s: State, t: ThreadId, outcome: bool)
    requires t in s.threads
    ensures var u := Go(s, t, outcome); t in u.threads && u.threads == s.threads[t := u.threads[t]]
  {
    var at := s.threads[t].at;
    if at.Stopping? {
      StoppingMovesOne(s, t, outcome);
    } else if at.Creating? || at.Spawned? || at.Connected? || at.Installed? {
      MakingMovesOne(s, t, outcome);
    } else {
      assert s.threads[t := s.threads[t]] == s.threads;
    }
  }

  /** Only its own steps move a thread. */
  lemma OthersMoveNothing(s: State, e: Event, t: ThreadId)
    requires !(e.Goes? && e.thread == t) && t in s.threads
    ensures var u := Step(s, e); t in u.threads && u.threads[t] == s.threads[t]
  {
    if e.Goes? && e.thread in s.threads {
      GoMovesOne(s, e.thread, e.outcome);
    }
  }

  /** Nothing the thread relies on changed. */
  lemma SamePlaced(s: State, u: State, thread: Thread, look: Option<Look>, failed: bool)
    requires Placed(s, thread, look, failed) && |u.kernels| >= |s.kernels|
    requires DepthOf(thread) > 0 ==> u.session == s.session
    requires look.Some? && look.value.session.Some? && Gone(s, look.value.session.value) ==>
               Gone(u, look.value.session.value)
    ensures Placed(u, thread, look, failed)
  {
  }

  /** Another's event. */
  lemma OthersPlaced(s: State, e: Event, t: ThreadId, look: Option<Look>, failed: bool)
    requires Inv(s) && !(e.Goes? && e.thread == t) && t in s.threads && Placed(s, s.threads[t], look, failed)
    ensures var u := Step(s, e); t in u.threads && Placed(u, u.threads[t], look, failed)
  {
    var u := Step(s, e);
    OthersMoveNothing(s, e, t);
    NeverFewer(s, e);
    if DepthOf(s.threads[t]) > 0 {
      OthersLeave(s, e, t);
    }
    if look.Some? && look.value.session.Some? && Gone(s, look.value.session.value) {
      StaysGone(s, e, look.value.session.value);
    }
    SamePlaced(s, u, s.threads[t], look, failed);
  }

  ghost predicate PlacedIn(events: seq<Event>, t: ThreadId) {
    var s := Run(events);
    if t in s.threads then Placed(s, s.threads[t], Found(events, t), Failed(events, t)) else Found(events, t).None?
  }

  lemma {:induction false} EveryonePlaced(events: seq<Event>, t: ThreadId)
    ensures PlacedIn(events, t)
    decreases |events|
  {
    if events != [] {
      var init, e := events[..|events| - 1], events[|events| - 1];
      EveryonePlaced(init, t);
      RunInv(init);
      if e.Goes? && e.thread == t {
        if t in Run(init).threads {
          OwnPlaced(Run(init), t, e.outcome, Found(init, t), Failed(init, t));
          LastIsOwn(events, t);
        }
      } else {
        LastIsOthers(events, t);
        if t in Run(init).threads {
          OthersPlaced(Run(init), e, t, Found(init, t), Failed(init, t));
        } else {
          Appears(Run(init), e, t);
        }
      }
    }
  }

  lemma LastIsOwn(events: seq<Event>, t: ThreadId)
    requires events != [] && events[|events| - 1].Goes? && events[|events| - 1].thread == t
    requires t in Run(events[..|events| - 1]).threads
    ensures var init, e := events[..|events| - 1], events[|events| - 1];
            && Found(events, t) == LookAfter(Run(init), t, Found(init, t))
            && Failed(events, t) == FailedAfter(Run(init), t, e.outcome, Failed(init, t))
            && Run(events) == Go(Run(init), t, e.outcome)
  {
  }

  lemma LastIsOthers(events: seq<Event>, t: ThreadId)
    requires events != [] && !(events[|events| - 1].Goes? && events[|events| - 1].thread == t)
    ensures Found(events, t) == Found(events[..|events| - 1], t)
    ensures Failed(events, t) == Failed(events[..|events| - 1], t)
  {
  }

  lemma Appears(s: State, e: Event, t: ThreadId)
    requires t !in s.threads
    ensures t in Step(s, e).threads ==> Step(s, e).threads[t].at == Entering
  {
    if e.Goes? && e.thread in s.threads {
      GoMovesOne(s, e.thread, e.outcome);
    }
  }

  // ----- what a thread sends -----

  /** Whether the step of the thread sends to kernel `k`. */
  predicate SendsNow(s: State, t: ThreadId, outcome: bool, k: nat)
    requires t in s.threads
  {
    var at := s.threads[t].at;
    && k < |s.kernels| && s.kernels[k].client != NoClient
    && ((at.Sending? && at.k == k && outcome)
        || (at.Stopping? && at.k == k && at.stage == Asking && s.kernels[k].alive))
  }

  lemma StoppingSends(s: State, t: ThreadId, outcome: bool, k: nat)
    requires t in s.threads && s.threads[t].at.Stopping?
    ensures Sends(Go(s, t, outcome), k) == Sends(s, k) + if SendsNow(s, t, outcome, k) then 1 else 0
  {
  }

  lemma MakingSends(s: State, t: ThreadId, outcome: bool, k: nat)
    requires t in s.threads
    requires var at := s.threads[t].at; at.Creating? || at.Spawned? || at.Connected? || at.Installed?
    ensures Sends(Go(s, t, outcome), k) == Sends(s, k)
  {
  }

  lemma StepSends(s: State, t: ThreadId, outcome: bool, k: nat)
    requires t in s.threads
    ensures Sends(Go(s, t, outcome), k) == Sends(s, k) + if SendsNow(s, t, outcome, k) then 1 else 0
  {
    var at := s.threads[t].at;
    if at.Stopping? {
      StoppingSends(s, t, outcome, k);
    } else if at.Creating? || at.Spawned? || at.Connected? || at.Installed? {
      MakingSends(s, t, outcome, k);
    } else if !at.Sending? {
      assert Go(s, t, outcome).kernels == s.kernels;
    }
  }

  /** The thread has not yet come to send. */
  predicate Unsent(at: At) {
    || Early(at) || at.Sending? || at.Reentering? || at.Relocking? || at.LookingAgain?
    || (at.Stopping? && at.stage == Asking)
  }

  /** `sent`: how often the thread sent to kernel `k`. */
  predicate SentSoFar(thread: Thread, look: Option<Look>, k: nat, sent: int, succeeds: bool, exited: bool) {
    if Unsent(thread.at) || look.None? || look.value.session != Some(k) then sent == 0
    else
      && 0 <= sent <= 1
      && (if thread.op == Send then succeeds ==> sent == 1 else sent == 1 || exited)
  }

  /** A thread is about to connect kernel `k`. */
  ghost predicate Connecting(s: State, k: nat) {
    exists t :: t in s.threads && s.threads[t].at.Spawned? && s.threads[t].at.k == k
  }

  /** A kernel that is connected, or about to be, is alive unless it exited. */
  ghost predicate AliveUnless(s: State, k: nat, exited: bool) {
    k < |s.kernels| && !s.closed && (s.kernels[k].client == Open || Connecting(s, k)) ==> s.kernels[k].alive || exited
  }

  /** What a thread's step may do to a kernel's life. */
  predicate LifeStep(s: State, u: State, t: ThreadId, k: nat)
    requires t in s.threads && t in u.threads
  {
    var before, after := s.threads[t].at, u.threads[t].at;
    && (k < |s.kernels| && k < |u.kernels| ==>
          && (u.kernels[k].client == Open && s.kernels[k].client != Open ==> before.Spawned? && before.k == k)
          && (s.kernels[k].alive && !u.kernels[k].alive ==> u.kernels[k].client != Open && !after.Spawned?))
    && (k >= |s.kernels| && k < |u.kernels| ==> u.kernels[k].alive)
    && (after.Spawned? && after.k == k ==> k >= |s.kernels| || before == after)
  }

  lemma StoppingLife(s: State, t: ThreadId, outcome: bool, k: nat)
    requires Inv(s) && t in s.threads && s.threads[t].at.Stopping?
    ensures var u := Go(s, t, outcome); t in u.threads && LifeStep(s, u, t, k)
  {
    assert Phase(s, s.threads[t].at);
  }

  lemma MakingLife(s: State, t: ThreadId, outcome: bool, k: nat)
    requires Inv(s) && t in s.threads
    requires var at := s.threads[t].at; at.Creating? || at.Spawned? || at.Connected? || at.Installed?
    ensures var u := Go(s, t, outcome); t in u.threads && LifeStep(s, u, t, k)
  {
    assert Phase(s, s.threads[t].at);
  }

  lemma OtherLife(s: State, t: ThreadId, outcome: bool, k: nat)
    requires t in s.threads && !s.threads[t].at.Stopping?
    requires var at := s.threads[t].at; !at.Creating? && !at.Spawned? && !at.Connected? && !at.Installed?
    ensures var u := Go(s, t, outcome); t in u.threads && LifeStep(s, u, t, k)
  {
    var u := Go(s, t, outcome);
    assert |u.kernels| == |s.kernels|;
    assert k < |s.kernels| ==> u.kernels[k].alive == s.kernels[k].alive && u.kernels[k].client == s.kernels[k].client;
  }

  lemma GoLife(s: State, t: ThreadId, outcome: bool, k: nat)
    requires Inv(s) && t in s.threads
    ensures var u := Go(s, t, outcome); t in u.threads && LifeStep(s, u, t, k)
  {
    var at := s.threads[t].at;
    if at.Stopping? {
      StoppingLife(s, t, outcome, k);
    } else if at.Creating? || at.Spawned? || at.Connected? || at.Installed? {
      MakingLife(s, t, outcome, k);
    } else {
      OtherLife(s, t, outcome, k);
    }
  }

  lemma GoAlive(s: State, t: ThreadId, outcome: bool, k: nat, exited: bool)
    requires Inv(s) && t in s.threads && AliveUnless(s, k, exited)
    ensures AliveUnless(Go(s, t, outcome), k, exited)
  {
    var u := Go(s, t, outcome);
    GoLife(s, t, outcome, k);
    NeverFewer(s, Goes(t, outcome));
    if k < |u.kernels| && !u.closed && Connecting(u, k) {
      var o :| o in u.threads && u.threads[o].at.Spawned? && u.threads[o].at.k == k;
      if o !in s.threads {
        Appears(s, Goes(t, outcome), o);
      } else if o != t {
        OthersMoveNothing(s, Goes(t, outcome), o);
        OnlyOwnerInside(s, o);
      }
    }
    StepGrows(s, Goes(t, outcome));
  }

  lemma {:induction false} EveryoneAlive(events: seq<Event>, k: nat)
    ensures AliveUnless(Run(events), k, Exited(events, k))
    decreases |events|
  {
    if events != [] {
      var init, e := events[..|events| - 1], events[|events| - 1];
      var s := Run(init);
      EveryoneAlive(init, k);
      RunInv(init);
      assert events == init + [e];
      match e
      case Goes(t, outcome) =>
        if t in s.threads {
          GoAlive(s, t, outcome, k, Exited(init, k));
        }
      case Calls(t, op) => assert Connecting(Run(events), k) ==> Connecting(s, k);
      case _ =>
    }
  }

  // ----- what a thread sent, over a run -----

  ghost predicate SentIn(events: seq<Event>, t: ThreadId, k: nat) {
    var s := Run(events);
    if t in s.threads
    then SentSoFar(s.threads[t], Found(events, t), k, SentBy(events, t, k), AlwaysSucceeds(events, t),
                   Exited(events, k))
    else SentBy(events, t, k) == 0
  }

  ghost predicate StaysSent(s: State, t: ThreadId, outcome: bool, look: Option<Look>, k: nat, sent: int,
                            succeeds: bool, exited: bool)
    requires t in s.threads
  {
    var u := Go(s, t, outcome);
    && t in u.threads
    && SentSoFar(u.threads[t], LookAfter(s, t, look), k, sent + Sends(u, k) - Sends(s, k), succeeds && outcome, exited)
  }

  /** The one step at which the thread sends. */
  lemma SendingSent(s: State, t: ThreadId, outcome: bool, look: Option<Look>, failed: bool, k: nat, sent: int,
                    succeeds: bool, exited: bool)
    requires Inv(s) && t in s.threads && Placed(s, s.threads[t], look, failed) && AliveUnless(s, k, exited)
    requires SentSoFar(s.threads[t], look, k, sent, succeeds, exited)
    requires var at := s.threads[t].at; at.Sending? || (at.Stopping? && at.stage == Asking)
    ensures StaysSent(s, t, outcome, look, k, sent, succeeds, exited)
  {
    StepSends(s, t, outcome, k);
    assert Phase(s, s.threads[t].at) && OpFits(s.threads[t]);
  }

  /** Before, it is not yet to send. */
  lemma NotYetSent(s: State, t: ThreadId, outcome: bool, look: Option<Look>, failed: bool, k: nat, sent: int,
                   succeeds: bool, exited: bool)
    requires Inv(s) && t in s.threads && Placed(s, s.threads[t], look, failed)
    requires SentSoFar(s.threads[t], look, k, sent, succeeds, exited) && Unsent(s.threads[t].at)
    requires var at := s.threads[t].at; !at.Sending? && !at.Stopping?
    ensures StaysSent(s, t, outcome, look, k, sent, succeeds, exited)
  {
    StepSends(s, t, outcome, k);
    OwnPlaced(s, t, outcome, look, failed);
  }

  /** After, it has sent. */
  lemma HasSent(s: State, t: ThreadId, outcome: bool, look: Option<Look>, failed: bool, k: nat, sent: int,
                succeeds: bool, exited: bool)
    requires Inv(s) && t in s.threads && Placed(s, s.threads[t], look, failed)
    requires SentSoFar(s.threads[t], look, k, sent, succeeds, exited) && !Unsent(s.threads[t].at)
    ensures StaysSent(s, t, outcome, look, k, sent, succeeds, exited)
  {
    StepSends(s, t, outcome, k);
    OwnPlaced(s, t, outcome, look, failed);
    StaysPast(s, t, outcome);
  }

  lemma StaysPast(s: State, t: ThreadId, outcome: bool)
    requires t in s.threads && !Unsent(s.threads[t].at)
    ensures var u := Go(s, t, outcome); t in u.threads && !Unsent(u.threads[t].at)
  {
    var at := s.threads[t].at;
    if at.Stopping? {
      assert Go(s, t, outcome) == GoStopping(s, t, at.lock, at.k, at.stage, outcome);
    }
  }

  lemma OwnSent(s: State, t: ThreadId, outcome: bool, look: Option<Look>, failed: bool, k: nat, sent: int,
                succeeds: bool, exited: bool)
    requires Inv(s) && t in s.threads && Placed(s, s.threads[t], look, failed) && AliveUnless(s, k, exited)
    requires SentSoFar(s.threads[t], look, k, sent, succeeds, exited)
    ensures StaysSent(s, t, outcome, look, k, sent, succeeds, exited)
  {
    var at := s.threads[t].at;
    if at.Sending? || (at.Stopping? && at.stage == Asking) {
      SendingSent(s, t, outcome, look, failed, k, sent, succeeds, exited);
    } else if Unsent(at) {
      NotYetSent(s, t, outcome, look, failed, k, sent, succeeds, exited);
    } else {
      HasSent(s, t, outcome, look, failed, k, sent, succeeds, exited);
    }
  }

  lemma {:induction false} EveryoneSent(events: seq<Event>, t: ThreadId, k: nat)
    ensures SentIn(events, t, k)
    decreases |events|
  {
    if events != [] {
      var init, e := events[..|events| - 1], events[|events| - 1];
      var s := Run(init);
      EveryoneSent(init, t, k);
      EveryonePlaced(init, t);
      EveryoneAlive(init, k);
      RunInv(init);
      assert events == init + [e];
      if e.Goes? && e.thread == t {
        if t in s.threads {
          OwnSent(s, t, e.outcome, Found(init, t), Failed(init, t), k, SentBy(init, t, k), AlwaysSucceeds(init, t),
                  Exited(init, k));
        }
      } else if t in s.threads {
        OthersMoveNothing(s, e, t);
      } else {
        Appears(s, e, t);
      }
    }
  }

  // ----- what is promised -----

  predicate SameKernel(a: Kernel, b: Kernel) {
    a.alive == b.alive && a.client == b.client && a.polling == b.polling && a.stops == b.stops
  }

  /** A send does nothing but send: it stops, starts and lists no kernel. */
  lemma SendsOnlySend(events: seq<Event>, t: ThreadId, outcome: bool)
    requires t in Run(events).threads && Run(events).threads[t].op == Send
    ensures var s, u := Run(events), Run(events + [Goes(t, outcome)]);
            && u.session == s.session && |u.kernels| == |s.kernels|
            && forall k :: 0 <= k < |s.kernels| ==> SameKernel(u.kernels[k], s.kernels[k])
  {
    RunInv(events);
    assert (events + [Goes(t, outcome)])[..|events|] == events;
    assert OpFits(Run(events).threads[t]);
  }

  /** What is over with kernel `k` at a step: its life, its connection, its place in the map. */
  predicate Ends(s: State, u: State, k: nat) {
    || (k < |s.kernels| && k < |u.kernels|
        && ((s.kernels[k].alive && !u.kernels[k].alive)
            || (s.kernels[k].client == Open && u.kernels[k].client != Open)))
    || (s.session == Some(k) && u.session != Some(k))
  }

  /** Only its own exit, a stop, a restart and the registry's end do that. */
  lemma OnlyStopsEndAKernel(events: seq<Event>, e: Event, k: nat)
    requires Ends(Run(events), Run(events + [e]), k)
    ensures || (e == Exits(k) && Run(events + [e]).session == Run(events).session)
            || e.Destroys?
            || (e.Goes? && e.thread in Run(events).threads && Run(events).threads[e.thread].op != Send)
  {
    assert (events + [e])[..|events|] == events;
    if e.Goes? && e.thread in Run(events).threads {
      if Run(events).threads[e.thread].op == Send {
        SendsOnlySend(events, e.thread, e.outcome);
      }
    } else if !e.Destroys? {
      OthersEndNothing(Run(events), e, k);
    }
  }

  lemma OthersEndNothing(s: State, e: Event, k: nat)
    requires !e.Destroys? && (e.Goes? ==> e.thread !in s.threads)
    ensures Step(s, e).session == s.session
    ensures e != Exits(k) ==> !Ends(s, Step(s, e), k)
  {
  }

  /** A thread that found no session changes nothing. */
  lemma NothingFoundNothingDone(events: seq<Event>, t: ThreadId, outcome: bool)
    requires Found(events, t).Some? && Found(events, t).value.session == None
    ensures var s, u := Run(events), Run(events + [Goes(t, outcome)]);
            u.session == s.session && u.kernels == s.kernels
  {
    EveryonePlaced(events, t);
    assert (events + [Goes(t, outcome)])[..|events|] == events;
  }

  /**
   A stop that found kernel k, once it has returned: the kernel is dead, its channels are stopped and it is
   not listed, now and from then on; and the stop asked it to shut down, once, unless it had exited.
   */
  lemma StopStops(events: seq<Event>, t: ThreadId, k: nat)
    requires var s := Run(events); t in s.threads && s.threads[t].op == Stop && s.threads[t].at == Done
    requires Found(events, t).Some? && Found(events, t).value.session == Some(k)
    ensures Gone(Run(events), k)
    ensures 0 <= SentBy(events, t, k) <= 1 && (SentBy(events, t, k) == 1 || Exited(events, k))
  {
    EveryonePlaced(events, t);
    EveryoneSent(events, t, k);
  }

  /** A send that found kernel k, once it has returned: it sent to that once, if nothing failed, and to no other. */
  lemma SendSends(events: seq<Event>, t: ThreadId, k: nat)
    requires var s := Run(events); t in s.threads && s.threads[t].op == Send && s.threads[t].at == Done
    requires Found(events, t).Some? && Found(events, t).value.session == Some(k)
    ensures 0 <= SentBy(events, t, k) <= 1 && (AlwaysSucceeds(events, t) ==> SentBy(events, t, k) == 1)
    ensures forall i: nat :: i != k ==> SentBy(events, t, i) == 0
  {
    EveryonePlaced(events, t);
    EveryoneSent(events, t, k);
    forall i: nat | i != k ensures SentBy(events, t, i) == 0 {
      EveryoneSent(events, t, i);
    }
  }

  /** The event is the return of the thread's call. */
  predicate Returns(events: seq<Event>, e: Event, t: ThreadId) {
    var s, u := Run(events), Run(events + [e]);
    t in s.threads && s.threads[t].at != Done && t in u.threads && u.threads[t].at == Done
  }

  /** The kernel is listed, connected and polled, and alive unless it exited. */
  ghost predicate Up(events: seq<Event>, k: nat) {
    var s := Run(events);
    && s.session == Some(k) && k < |s.kernels| && s.kernels[k].client == Open
    && (s.kernels[k].alive || Exited(events, k))
    && (s.kernels[k].polling || PollEnded(events, k))
  }

  /**
   A restart that found a session, when it returns: that kernel is gone, having been asked to shut down
   unless it had exited; and unless the new one's spawn or handshake failed, a kernel that did not exist
   when the restart looked is up.
   */
  lemma RestartReplaces(events: seq<Event>, e: Event, t: ThreadId, k: nat)
    requires Returns(events, e, t) && Run(events).threads[t].op == Restart
    requires Found(events, t).Some? && Found(events, t).value.session == Some(k)
    ensures Gone(Run(events + [e]), k)
    ensures SentBy(events, t, k) == 1 || Exited(events, k)
    ensures Failed(events, t) || exists n :: n >= Found(events, t).value.kernels && Up(events + [e], n)
  {
    var s, u := Run(events), Run(events + [e]);
    RunInv(events);
    RunInv(events + [e]);
    assert (events + [e])[..|events|] == events;
    EveryonePlaced(events, t);
    EveryoneSent(events, t, k);
    ReturnsByUnlocking(s, e, t);
    StaysGone(s, e, k);
    if !Failed(events, t) {
      var n := s.session.value;
      EveryoneAlive(events + [e], n);
      RunAccounted(events + [e], n);
      assert !Started(u, n);
      assert Up(events + [e], n);
    }
  }

  lemma ReturnsByUnlocking(s: State, e: Event, t: ThreadId)
    requires Inv(s) && t in s.threads && s.threads[t].at != Done
    requires var u := Step(s, e); t in u.threads && u.threads[t].at == Done
    ensures e.Goes? && e.thread == t && s.threads[t].at.Unlocking?
    ensures var u := Step(s, e);
            u.session == s.session && u.kernels == s.kernels && !u.closed
            && forall o :: o in u.threads ==> DepthOf(u.threads[o]) == 0
  {
    if !(e.Goes? && e.thread == t) {
      OthersMoveNothing(s, e, t);
    }
    OnlyOwnerInside(s, t);
  }

  // ----- every call that has the lock comes to its end -----

  /** At most so many steps of its own are left. */
  function Left(at: At): nat {
    match at
    case Entering => 19
    case Locking(_) => 18
    case Looking(_) => 17
    case Reentering(_, _) => 16
    case Relocking(_, _, _) => 15
    case LookingAgain(_, _) => 14
    case Stopping(_, _, stage) =>
      (match stage
       case Asking => 13
       case Grace => 12
       case Joining => 11
       case StoppingChannels => 10
       case Killing => 9
       case Erasing => 8)
    case UnlockingInner(_, _) => 7
    case ErasingAgain(_) => 6
    case Creating(_) => 5
    case Spawned(_, _) => 4
    case Connected(_, _) => 3
    case Installed(_, _) => 2
    case Sending(_, _) => 2
    case Unlocking(_) => 1
    case Done => 0
  }

  ghost predicate Forward(s: State, t: ThreadId, outcome: bool)
    requires t in s.threads
  {
    var u := Go(s, t, outcome);
    && t in u.threads && (u.threads[t].at == Done || DepthOf(u.threads[t]) > 0)
    && Left(u.threads[t].at) <= Left(s.threads[t].at) - if outcome then 1 else 0
  }

  lemma StoppingGoesForward(s: State, t: ThreadId, outcome: bool)
    requires Inv(s) && t in s.threads && s.threads[t].at.Stopping?
    ensures Forward(s, t, outcome)
  {
    assert Phase(s, s.threads[t].at);
    var at := s.threads[t].at;
    var u := GoStopping(s, t, at.lock, at.k, at.stage, outcome);
    assert Go(s, t, outcome) == u;
    StageGoesForward(s, t, at.lock, at.k, at.stage, outcome);
  }

  lemma StageGoesForward(s: State, t: ThreadId, lock: LockId, k: nat, stage: Stage, outcome: bool)
    requires t in s.threads && s.threads[t].at == Stopping(lock, k, stage) && k < |s.kernels|
    ensures var u := GoStopping(s, t, lock, k, stage, outcome);
            && t in u.threads && DepthOf(u.threads[t]) > 0
            && Left(u.threads[t].at) <= Left(s.threads[t].at) - if outcome then 1 else 0
  {
  }

  lemma LockingGoesForward(s: State, t: ThreadId, outcome: bool)
    requires Inv(s) && t in s.threads && (s.threads[t].at.Reentering? || s.threads[t].at.Relocking?)
    ensures Forward(s, t, outcome)
  {
    var at := s.threads[t].at;
    assert OpFits(s.threads[t]);
    if at.Relocking? {
      assert at.inner in LocksOf(at);
    }
  }

  lemma MakingGoesForward(s: State, t: ThreadId, outcome: bool)
    requires Inv(s) && t in s.threads && (s.threads[t].at.Spawned? || s.threads[t].at.Installed?)
    ensures Forward(s, t, outcome)
  {
    assert Phase(s, s.threads[t].at);
  }

  lemma ElsewhereGoesForward(s: State, t: ThreadId, outcome: bool)
    requires t in s.threads && DepthOf(s.threads[t]) > 0
    requires var at := s.threads[t].at;
             !at.Stopping? && !at.Reentering? && !at.Relocking? && !at.Spawned? && !at.Installed?
    ensures Forward(s, t, outcome)
  {
  }

  lemma GoesForward(s: State, t: ThreadId, outcome: bool)
    requires Inv(s) && t in s.threads && DepthOf(s.threads[t]) > 0
    ensures Forward(s, t, outcome)
  {
    var at := s.threads[t].at;
    if at.Stopping? {
      StoppingGoesForward(s, t, outcome);
    } else if at.Reentering? || at.Relocking? {
      LockingGoesForward(s, t, outcome);
    } else if at.Spawned? || at.Installed? {
      MakingGoesForward(s, t, outcome);
    } else {
      ElsewhereGoesForward(s, t, outcome);
    }
  }

  /** The thread has the lock, or has returned, `left` steps of its own being left at most. */
  predicate WithinSteps(s: State, t: ThreadId, left: int) {
    t in s.threads && (s.threads[t].at == Done || (DepthOf(s.threads[t]) > 0 && 0 < Left(s.threads[t].at) <= left))
  }

  lemma StepWithin(s: State, e: Event, t: ThreadId, left: int)
    requires Inv(s) && WithinSteps(s, t, left)
    ensures WithinSteps(Step(s, e), t, left - if e == Goes(t, true) then 1 else 0)
  {
    if e.Goes? && e.thread == t {
      if s.threads[t].at != Done {
        GoesForward(s, t, e.outcome);
      }
    } else {
      OthersMoveNothing(s, e, t);
    }
  }

  function StepsOf(more: seq<Event>, t: ThreadId): nat {
    if more == [] then 0 else StepsOf(more[..|more| - 1], t) + if more[|more| - 1] == Goes(t, true) then 1 else 0
  }

  /**
   Whatever the others do, a thread that has the lock returns after seventeen more steps of its own in which
   what it waits for is over and what it asks for works.
   */
  lemma {:induction false} OwnerReturns(events: seq<Event>, t: ThreadId, more: seq<Event>)
    requires var s := Run(events); t in s.threads && DepthOf(s.threads[t]) > 0
    ensures WithinSteps(Run(events + more), t, 17 - StepsOf(more, t))
    ensures StepsOf(more, t) >= 17 ==> Run(events + more).threads[t].at == Done
    decreases |more|
  {
    if more == [] {
      assert events + more == events;
    } else {
      var init, e := more[..|more| - 1], more[|more| - 1];
      assert (events + more)[..|events + more| - 1] == events + init;
      OwnerReturns(events, t, init);
      RunInv(events + init);
      StepWithin(Run(events + init), e, t, 17 - StepsOf(init, t));
    }
  }

  /** A thread that waits for the lock has it after two steps of its own, if nobody else does. */
  lemma FreeLockIsTaken(events: seq<Event>, t: ThreadId)
    requires var s := Run(events); t in s.threads && s.threads[t].at == Entering
    requires forall o :: o in Run(events).threads ==> DepthOf(Run(events).threads[o]) == 0
    ensures var u := Run(events + [Goes(t, true), Goes(t, true)]); t in u.threads && u.threads[t].at.Looking?
  {
    var s := Run(events);
    RunInv(events);
    var one, two := events + [Goes(t, true)], events + [Goes(t, true), Goes(t, true)];
    assert one[..|one| - 1] == events && two[..|two| - 1] == one;
    RunInv(one);
    assert OneLock(Run(one)) && Exclusive(Run(one));
  }
}
