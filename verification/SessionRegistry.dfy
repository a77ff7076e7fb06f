/**
 The life of one session id in the supervisor (native/src/themisto/session_registry.cpp): any number
 of threads stop it, restart it and send to it, interleaved step by step, while its kernel may exit
 at any moment. One recursive mutex per id is all that keeps them apart.

 A kernel stands for one Session object: its process, its client and its poll thread.
 */
module SessionRegistry {
  import opened Wrappers

  type ThreadId = nat
  type LockId = nat

  datatype Client = NoClient | Open | Closed

  /** `stops` counts stopChannels() calls, `sends` the sends to its client, `lateSends` those after a stop. */
  datatype Kernel = Kernel(alive: bool, client: Client, polling: bool, stops: nat, sends: nat, lateSends: nat)

  datatype Mutex = Free | Owned(owner: ThreadId, depth: nat)

  /** Send stands for sendExecute(), sendRequest() and sendInputReply(), which take the same path. */
  datatype Operation = Stop | Restart | Send

  /** Where stopSession() is, once it has found the session. */
  datatype Stage = Asking | Grace | Joining | StoppingChannels | Killing | Erasing

  /**
   Where a thread is. In the nested call of a restart, stopSession() takes the lock a second time.
   The kernel a thread holds a shared_ptr to is its `k`.
   */
  datatype At =
    | Entering
    | Locking(lock: LockId)
    | Looking(lock: LockId)
    | Sending(lock: LockId, k: nat)
    | Reentering(lock: LockId, k: nat)
    | Relocking(lock: LockId, inner: LockId, k: nat)
    | LookingAgain(lock: LockId, inner: LockId)
    | Stopping(lock: LockId, k: nat, stage: Stage)
    | UnlockingInner(lock: LockId, inner: LockId)
    | ErasingAgain(lock: LockId)
    | Creating(lock: LockId)
    | Spawned(lock: LockId, k: nat)
    | Connected(lock: LockId, k: nat)
    | Installed(lock: LockId, k: nat)
    | Unlocking(lock: LockId)
    | Done

  datatype Thread = Thread(op: Operation, at: At)

  /** `table` is m_sessionOperationLocks[id], `session` is m_sessions[id]. */
  datatype State = State(
    table: Option<LockId>, nextLock: LockId, locks: map<LockId, Mutex>,
    session: Option<nat>, kernels: seq<Kernel>, threads: map<ThreadId, Thread>, closed: bool)

  /** After createSession(): one kernel, connected, polled and in the map. */
  const Initial := State(None, 0, map[], Some(0), [Kernel(true, Open, true, 0, 0, 0)], map[], false)

  // ----- one kernel -----

  function StopChannels(k: Kernel): Kernel {
    k.(client := Closed, stops := k.stops + 1)
  }

  function SendTo(k: Kernel): Kernel {
    k.(sends := k.sends + 1, lateSends := if k.client == Closed then k.lateSends + 1 else k.lateSends)
  }

  function Set(s: State, k: nat, kernel: Kernel): State {
    if k < |s.kernels| then s.(kernels := s.kernels[k := kernel]) else s
  }

  function Moved(s: State, t: ThreadId, at: At): State
    requires t in s.threads
  {
    s.(threads := s.threads[t := s.threads[t].(at := at)])
  }

  // ----- the recursive mutex -----

  predicate CanLock(s: State, lock: LockId, t: ThreadId) {
    lock in s.locks && (s.locks[lock].Free? || s.locks[lock].owner == t)
  }

  function Lock(s: State, lock: LockId, t: ThreadId): State
    requires CanLock(s, lock, t)
  {
    s.(locks := s.locks[lock := Owned(t, if s.locks[lock].Free? then 1 else s.locks[lock].depth + 1)])
  }

  function Unlock(s: State, lock: LockId): State {
    if lock !in s.locks || s.locks[lock].Free? then s
    else
      var left := if s.locks[lock].depth <= 1 then Free else Owned(s.locks[lock].owner, s.locks[lock].depth - 1);
      s.(locks := s.locks[lock := left])
  }

  /** getSessionOperationLock(): the id's one lock, made on first use and never erased. */
  function WithLock(s: State): State {
    if s.table.Some? then s
    else s.(table := Some(s.nextLock), nextLock := s.nextLock + 1, locks := s.locks[s.nextLock := Free])
  }

  // ----- one step of one thread -----

  /** What follows stopSession(): the end of a stop, or the rest of a restart. */
  function AfterStop(thread: Thread, lock: LockId): At {
    if thread.op == Restart then UnlockingInner(lock, lock) else Unlocking(lock)
  }

  /** `outcome` decides what the thread cannot: whether a grace period is over, a spawn or a handshake worked. */
  function Go(s: State, t: ThreadId, outcome: bool): State
    requires t in s.threads
  {
    var thread := s.threads[t];
    match thread.at
    case Entering =>
      var u := WithLock(s);
      if u.table.Some? then Moved(u, t, Locking(u.table.value)) else u
    case Locking(lock) => if CanLock(s, lock, t) then Moved(Lock(s, lock, t), t, Looking(lock)) else s
    case Looking(lock) =>
      if s.session.None? then Moved(s, t, Unlocking(lock))
      else
        var k := s.session.value;
        Moved(s, t, match thread.op
                    case Stop => Stopping(lock, k, Asking)
                    case Restart => Reentering(lock, k)
                    case Send => Sending(lock, k))
    case Sending(lock, k) =>
      // a session without a client is "not found"; `outcome` false: interrupted by signal instead
      if k < |s.kernels| && s.kernels[k].client != NoClient && outcome
      then Moved(Set(s, k, SendTo(s.kernels[k])), t, Unlocking(lock))
      else Moved(s, t, Unlocking(lock))
    case Reentering(lock, k) =>
      var u := WithLock(s);
      if u.table.Some? then Moved(u, t, Relocking(lock, u.table.value, k)) else u
    case Relocking(lock, inner, k) =>
      if CanLock(s, inner, t) then Moved(Lock(s, inner, t), t, LookingAgain(lock, inner)) else s
    case LookingAgain(lock, inner) =>
      if s.session.None? then Moved(s, t, UnlockingInner(lock, inner))
      else Moved(s, t, Stopping(lock, s.session.value, Asking))
    case Stopping(lock, k, stage) => GoStopping(s, t, lock, k, stage, outcome)
    case UnlockingInner(lock, inner) => Moved(Unlock(s, inner), t, ErasingAgain(lock))
    case ErasingAgain(lock) => Moved(s.(session := None), t, Creating(lock))
    case Creating(lock) =>
      if outcome
      then Moved(s.(kernels := s.kernels + [Kernel(true, NoClient, false, 0, 0, 0)]), t, Spawned(lock, |s.kernels|))
      else Moved(s, t, Unlocking(lock))
    case Spawned(lock, k) =>
      // a failed handshake destroys the new Session, and with it its process
      if k >= |s.kernels| then s
      else if outcome then Moved(Set(s, k, s.kernels[k].(client := Open)), t, Connected(lock, k))
      else Moved(Set(s, k, s.kernels[k].(alive := false)), t, Unlocking(lock))
    case Connected(lock, k) => Moved(s.(session := Some(k)), t, Installed(lock, k))
    case Installed(lock, k) =>
      if k >= |s.kernels| then s
      else Moved(Set(s, k, s.kernels[k].(polling := true)), t, Unlocking(lock))
    case Unlocking(lock) => Moved(Unlock(s, lock), t, Done)
    case Done => s
  }

  function GoStopping(s: State, t: ThreadId, lock: LockId, k: nat, stage: Stage, outcome: bool): State
    requires t in s.threads
  {
    if k >= |s.kernels| then s
    else
      var kernel := s.kernels[k];
      match stage
      case Asking =>
        // shutdown_request, only to a kernel that is there
        var u := if kernel.alive && kernel.client != NoClient then Set(s, k, SendTo(kernel)) else s;
        Moved(u, t, Stopping(lock, k, Grace))
      case Grace => if kernel.alive && !outcome then s else Moved(s, t, Stopping(lock, k, Joining))
      case Joining => Moved(Set(s, k, kernel.(polling := false)), t, Stopping(lock, k, StoppingChannels))
      case StoppingChannels =>
        var u := if kernel.client != NoClient then Set(s, k, StopChannels(kernel)) else s;
        Moved(u, t, Stopping(lock, k, Killing))
      case Killing => Moved(Set(s, k, kernel.(alive := false)), t, Stopping(lock, k, Erasing))
      case Erasing => Moved(s.(session := None), t, AfterStop(s.threads[t], lock))
  }

  datatype Event =
    | Calls(thread: ThreadId, op: Operation)
    | Goes(thread: ThreadId, outcome: bool)
    | Exits(kernel: nat)
    | PollEnds(kernel: nat)
    | Destroys

  /** ~SessionRegistry(), with no operation in progress: what is still in the map is torn down. */
  function Destroy(s: State): State {
    if s.session.Some? && s.session.value < |s.kernels|
    then
      var kernel := s.kernels[s.session.value];
      var stopped := if kernel.client != NoClient then StopChannels(kernel) else kernel;
      Set(s, s.session.value, stopped.(alive := false)).(closed := true)
    else s.(closed := true)
  }

  predicate Quiet(s: State) {
    forall t :: t in s.threads ==> s.threads[t].at == Done
  }

  /** An event that cannot happen leaves the state alone, so every event sequence is a run. */
  function Step(s: State, e: Event): State {
    match e
    case Calls(t, op) => if t in s.threads || s.closed then s else s.(threads := s.threads[t := Thread(op, Entering)])
    case Goes(t, outcome) => if t in s.threads then Go(s, t, outcome) else s
    case Exits(k) => if k < |s.kernels| then Set(s, k, s.kernels[k].(alive := false)) else s
    case PollEnds(k) => if k < |s.kernels| && !s.kernels[k].alive then Set(s, k, s.kernels[k].(polling := false)) else s
    case Destroys => if Quiet(s) && !s.closed then Destroy(s) else s
  }

  function Run(events: seq<Event>): State {
    if events == [] then Initial else Step(Run(events[..|events| - 1]), events[|events| - 1])
  }

  // ----- what is promised -----

  ghost predicate OneAlive(s: State) {
    forall i, j :: 0 <= i < |s.kernels| && 0 <= j < |s.kernels| && s.kernels[i].alive && s.kernels[j].alive ==> i == j
  }

  /**
   Channels are stopped at most once and nothing is sent to them after; until the registry is
   destroyed, they are never stopped under a poll thread.
   */
  ghost predicate ClientsRespected(s: State) {
    forall i :: 0 <= i < |s.kernels| ==>
      && s.kernels[i].stops <= 1 && s.kernels[i].lateSends == 0
      && (s.kernels[i].polling && !s.closed ==> s.kernels[i].client == Open)
  }

  /** With no operation in progress, a live kernel is the one in the map, and that one is connected. */
  ghost predicate LiveIsListed(s: State) {
    Quiet(s) && !s.closed ==>
      && (forall i :: 0 <= i < |s.kernels| && s.kernels[i].alive ==> s.session == Some(i))
      && (s.session.Some? ==> s.session.value < |s.kernels| && s.kernels[s.session.value].client == Open)
  }

  // ----- the invariant -----

  /** How often a thread at `at` has the lock. */
  function Depth(at: At): nat {
    match at
    case Entering => 0
    case Locking(_) => 0
    case Done => 0
    case LookingAgain(_, _) => 2
    case UnlockingInner(_, _) => 2
    case _ => 1
  }

  function DepthOf(thread: Thread): nat {
    if thread.at.Stopping? && thread.op == Restart then 2 else Depth(thread.at)
  }

  function LocksOf(at: At): set<LockId> {
    if at.Entering? || at.Done? then {} else
    match at
    case Relocking(lock, inner, _) => {lock, inner}
    case LookingAgain(lock, inner) => {lock, inner}
    case UnlockingInner(lock, inner) => {lock, inner}
    case _ => {at.lock}
  }

  /** Only a send sends to the session, only a stop or a restart stops it, and only a restart creates. */
  predicate OpFits(thread: Thread) {
    match thread.at
    case Entering => true
    case Locking(_) => true
    case Looking(_) => true
    case Sending(_, _) => thread.op == Send
    case Stopping(_, _, _) => thread.op != Send
    case Unlocking(_) => true
    case Done => true
    case _ => thread.op == Restart
  }

  /** The id has one lock object, and whoever is past entering uses that. */
  ghost predicate OneLock(s: State) {
    && (forall t :: t in s.threads ==> OpFits(s.threads[t]))
    && (s.table.Some? ==> s.table.value in s.locks)
    && (forall t :: t in s.threads && s.threads[t].at != Entering && s.threads[t].at != Done ==>
          s.table.Some? && LocksOf(s.threads[t].at) == {s.table.value})
  }

  /** Whoever is inside owns the lock as deeply as its place says, and the owner is inside. */
  ghost predicate Exclusive(s: State) {
    && (forall t :: t in s.threads && DepthOf(s.threads[t]) > 0 ==>
          s.table.Some? && s.table.value in s.locks && s.locks[s.table.value] == Owned(t, DepthOf(s.threads[t])))
    && (s.table.Some? && s.table.value in s.locks && s.locks[s.table.value].Owned? ==>
          s.locks[s.table.value].owner in s.threads && DepthOf(s.threads[s.locks[s.table.value].owner]) > 0)
  }

  ghost predicate KernelSane(k: Kernel, closed: bool) {
    && k.stops == (if k.client == Closed then 1 else 0) && k.lateSends == 0
    && (k.polling && !closed ==> k.client == Open)
  }

  /** Every kernel but `k` is over: dead and not connected. */
  ghost predicate OthersOver(s: State, k: Option<nat>) {
    forall i :: 0 <= i < |s.kernels| && k != Some(i) ==> !s.kernels[i].alive && s.kernels[i].client != Open
  }

  ghost predicate Listed(s: State) {
    && OthersOver(s, s.session)
    && (s.session.Some? ==> s.session.value < |s.kernels| && s.kernels[s.session.value].client == Open)
  }

  /** What holds of the kernels while the owner of the lock is at `at`. */
  ghost predicate Phase(s: State, at: At) {
    match at
    case Sending(_, k) => Listed(s) && s.session == Some(k)
    case Reentering(_, k) => Listed(s) && s.session == Some(k)
    case Relocking(_, _, k) => Listed(s) && s.session == Some(k)
    case Stopping(_, k, stage) =>
      && s.session == Some(k) && k < |s.kernels| && OthersOver(s, Some(k))
      && (stage == Asking || stage == Grace || stage == Joining || stage == StoppingChannels ==>
           s.kernels[k].client == Open)
      && (stage == StoppingChannels ==> !s.kernels[k].polling)
      && (stage == Killing || stage == Erasing ==> s.kernels[k].client == Closed)
      && (stage == Erasing ==> !s.kernels[k].alive)
    case UnlockingInner(_, _) => s.session == None && OthersOver(s, None)
    case ErasingAgain(_) => s.session == None && OthersOver(s, None)
    case Creating(_) => s.session == None && OthersOver(s, None)
    case Spawned(_, k) =>
      s.session == None && k < |s.kernels| && OthersOver(s, Some(k)) && s.kernels[k].client == NoClient
    case Connected(_, k) =>
      s.session == None && k < |s.kernels| && OthersOver(s, Some(k)) && s.kernels[k].client == Open
    case Installed(_, k) => Listed(s) && s.session == Some(k)
    case _ => Listed(s)
  }

  ghost predicate Phased(s: State) {
    && (forall t :: t in s.threads && DepthOf(s.threads[t]) > 0 ==> Phase(s, s.threads[t].at))
    && ((forall t :: t in s.threads ==> DepthOf(s.threads[t]) == 0) && !s.closed ==> Listed(s))
    && (s.closed ==> Quiet(s) && OthersOver(s, None))
  }

  ghost predicate Inv(s: State) {
    && (forall i :: 0 <= i < |s.kernels| ==> KernelSane(s.kernels[i], s.closed))
    && OneLock(s) && Exclusive(s) && Phased(s)
  }

  // ----- every step keeps it -----

  lemma OnlyOwnerInside(s: State, t: ThreadId)
    requires Exclusive(s) && t in s.threads && DepthOf(s.threads[t]) > 0
    ensures forall o :: o in s.threads && o != t ==> DepthOf(s.threads[o]) == 0
  {
  }

  /** The owner works on the kernels, or moves on, without touching the lock. */
  lemma Works(s: State, u: State, t: ThreadId)
    requires Inv(s) && t in s.threads && t in u.threads && DepthOf(s.threads[t]) > 0
    requires u.threads == s.threads[t := u.threads[t]] && u.table == s.table && u.locks == s.locks
             && u.closed == s.closed
    requires DepthOf(u.threads[t]) == DepthOf(s.threads[t])
    requires LocksOf(u.threads[t].at) == LocksOf(s.threads[t].at) && u.threads[t].at != Entering
             && u.threads[t].at != Done
    requires forall i :: 0 <= i < |u.kernels| ==> KernelSane(u.kernels[i], u.closed)
    requires Phase(u, u.threads[t].at) && OpFits(u.threads[t])
    ensures Inv(u)
  {
    OnlyOwnerInside(s, t);
  }

  lemma FirstLockInv(s: State)
    requires Inv(s) && s.table.None?
    ensures Inv(WithLock(s))
  {
    assert forall o :: o in s.threads ==> DepthOf(s.threads[o]) == 0;
  }

  /** A thread appears, or moves on, outside. */
  lemma OutsideLock(s: State, u: State, t: ThreadId)
    requires OneLock(s) && Exclusive(s) && t in u.threads && u == s.(threads := s.threads[t := u.threads[t]])
    requires t in s.threads ==> DepthOf(s.threads[t]) == 0
    requires u.threads[t].at == Entering || (s.table.Some? && u.threads[t].at == Locking(s.table.value))
    ensures OneLock(u) && Exclusive(u)
  {
    assert forall o :: o in s.threads && o != t ==> u.threads[o] == s.threads[o];
  }

  lemma OutsidePhased(s: State, u: State, t: ThreadId)
    requires Phased(s) && !s.closed && t in u.threads && u == s.(threads := s.threads[t := u.threads[t]])
    requires t in s.threads ==> DepthOf(s.threads[t]) == 0
    requires DepthOf(u.threads[t]) == 0
    ensures Phased(u)
  {
    assert forall o :: o in s.threads && o != t ==> u.threads[o] == s.threads[o];
    forall o | o in u.threads && DepthOf(u.threads[o]) > 0 ensures Phase(u, u.threads[o].at) {
      assert Phase(s, s.threads[o].at);
    }
    if forall o :: o in u.threads ==> DepthOf(u.threads[o]) == 0 {
      assert forall o :: o in s.threads ==> DepthOf(s.threads[o]) == 0;
    }
  }

  /** A thread that is not inside moves to a place that is not inside. */
  lemma Approaches(s: State, t: ThreadId, at: At)
    requires Inv(s) && t in s.threads && DepthOf(s.threads[t]) == 0 && s.threads[t].at != Done && s.table.Some?
    requires at == Locking(s.table.value)
    ensures Inv(Moved(s, t, at))
  {
    OutsideLock(s, Moved(s, t, at), t);
    OutsidePhased(s, Moved(s, t, at), t);
  }

  lemma EnterInv(s: State, t: ThreadId, outcome: bool)
    requires Inv(s) && t in s.threads && s.threads[t].at.Entering?
    ensures Inv(Go(s, t, outcome))
  {
    if s.table.None? {
      FirstLockInv(s);
    }
    Approaches(WithLock(s), t, Locking(WithLock(s).table.value));
  }

  lemma LockInv(s: State, t: ThreadId, outcome: bool)
    requires Inv(s) && t in s.threads && s.threads[t].at.Locking?
    ensures Inv(Go(s, t, outcome))
  {
    var lock := s.threads[t].at.lock;
    assert LocksOf(s.threads[t].at) == {lock} && lock == s.table.value by { assert lock in LocksOf(s.threads[t].at); }
    if CanLock(s, lock, t) {
      assert s.locks[lock].Free?;
      assert forall o :: o in s.threads ==> DepthOf(s.threads[o]) == 0;
    }
  }

  /** Locking a second time, and giving that back, is between the owner and the lock. */
  lemma DepthChanges(s: State, u: State, t: ThreadId)
    requires Inv(s) && t in s.threads && t in u.threads && DepthOf(s.threads[t]) > 0
    requires u.threads == s.threads[t := u.threads[t]] && u.table == s.table && u.closed == s.closed
    requires u.session == s.session && u.kernels == s.kernels && OpFits(u.threads[t])
    requires DepthOf(u.threads[t]) > 0
    requires s.table.Some? && u.locks == s.locks[s.table.value := Owned(t, DepthOf(u.threads[t]))]
    requires LocksOf(u.threads[t].at) == {s.table.value}
    requires u.threads[t].at != Entering && u.threads[t].at != Done && Phase(u, u.threads[t].at)
    ensures Inv(u)
  {
    OnlyOwnerInside(s, t);
  }

  lemma NestedInv(s: State, t: ThreadId, outcome: bool)
    requires Inv(s) && t in s.threads && (s.threads[t].at.Relocking? || s.threads[t].at.UnlockingInner?)
    ensures Inv(Go(s, t, outcome))
  {
    var inner := s.threads[t].at.inner;
    assert inner in LocksOf(s.threads[t].at) && s.threads[t].at.lock in LocksOf(s.threads[t].at);
    assert inner == s.table.value && s.threads[t].at.lock == inner;
    DepthChanges(s, Go(s, t, outcome), t);
  }

  lemma UnlockInv(s: State, t: ThreadId, outcome: bool)
    requires Inv(s) && t in s.threads && s.threads[t].at.Unlocking?
    ensures Inv(Go(s, t, outcome))
  {
    var lock := s.threads[t].at.lock;
    assert lock in LocksOf(s.threads[t].at) && lock == s.table.value;
    OnlyOwnerInside(s, t);
    assert forall o :: o in s.threads && o != t ==> DepthOf(s.threads[o]) == 0;
    var u := Go(s, t, outcome);
    assert forall o :: o in u.threads ==> DepthOf(u.threads[o]) == 0;
  }

  lemma PoliteStagesInv(s: State, t: ThreadId, lock: LockId, k: nat, stage: Stage, outcome: bool)
    requires Inv(s) && t in s.threads && s.threads[t].at == Stopping(lock, k, stage)
    requires stage == Asking || stage == Grace || stage == Joining
    ensures Inv(GoStopping(s, t, lock, k, stage, outcome))
  {
    assert Phase(s, s.threads[t].at) && KernelSane(s.kernels[k], s.closed);
    var u := GoStopping(s, t, lock, k, stage, outcome);
    Works(s, u, t);
  }

  lemma FinalStagesInv(s: State, t: ThreadId, lock: LockId, k: nat, stage: Stage, outcome: bool)
    requires Inv(s) && t in s.threads && s.threads[t].at == Stopping(lock, k, stage)
    requires stage == StoppingChannels || stage == Killing || stage == Erasing
    ensures Inv(GoStopping(s, t, lock, k, stage, outcome))
  {
    assert Phase(s, s.threads[t].at) && KernelSane(s.kernels[k], s.closed);
    assert lock in LocksOf(s.threads[t].at);
    Works(s, GoStopping(s, t, lock, k, stage, outcome), t);
  }

  lemma StoppingInv(s: State, t: ThreadId, outcome: bool)
    requires Inv(s) && t in s.threads && s.threads[t].at.Stopping?
    ensures Inv(Go(s, t, outcome))
  {
    var at := s.threads[t].at;
    if at.stage == Asking || at.stage == Grace || at.stage == Joining {
      PoliteStagesInv(s, t, at.lock, at.k, at.stage, outcome);
    } else {
      FinalStagesInv(s, t, at.lock, at.k, at.stage, outcome);
    }
  }

  lemma ErasedInv(s: State, t: ThreadId, outcome: bool)
    requires Inv(s) && t in s.threads && (s.threads[t].at.ErasingAgain? || s.threads[t].at.Creating?)
    ensures Inv(Go(s, t, outcome))
  {
    assert Phase(s, s.threads[t].at);
    Works(s, Go(s, t, outcome), t);
  }

  lemma SpawnedInv(s: State, t: ThreadId, outcome: bool)
    requires Inv(s) && t in s.threads && s.threads[t].at.Spawned?
    ensures Inv(Go(s, t, outcome))
  {
    assert Phase(s, s.threads[t].at) && KernelSane(s.kernels[s.threads[t].at.k], s.closed);
    Works(s, Go(s, t, outcome), t);
  }

  lemma ConnectedInv(s: State, t: ThreadId, outcome: bool)
    requires Inv(s) && t in s.threads && s.threads[t].at.Connected?
    ensures Inv(Go(s, t, outcome))
  {
    assert Phase(s, s.threads[t].at) && KernelSane(s.kernels[s.threads[t].at.k], s.closed);
    Works(s, Go(s, t, outcome), t);
  }

  lemma InstalledInv(s: State, t: ThreadId, outcome: bool)
    requires Inv(s) && t in s.threads && s.threads[t].at.Installed?
    ensures Inv(Go(s, t, outcome))
  {
    assert Phase(s, s.threads[t].at) && KernelSane(s.kernels[s.threads[t].at.k], s.closed);
    Works(s, Go(s, t, outcome), t);
  }

  lemma LookingInv(s: State, t: ThreadId, outcome: bool)
    requires Inv(s) && t in s.threads && s.threads[t].at.Looking?
    ensures Inv(Go(s, t, outcome))
  {
    assert Phase(s, s.threads[t].at);
    assert s.threads[t].at.lock in LocksOf(s.threads[t].at);
    Works(s, Go(s, t, outcome), t);
  }

  lemma SendingInv(s: State, t: ThreadId, outcome: bool)
    requires Inv(s) && t in s.threads && s.threads[t].at.Sending?
    ensures Inv(Go(s, t, outcome))
  {
    assert Phase(s, s.threads[t].at);
    assert s.threads[t].at.lock in LocksOf(s.threads[t].at);
    Works(s, Go(s, t, outcome), t);
  }

  lemma ReenteringInv(s: State, t: ThreadId, outcome: bool)
    requires Inv(s) && t in s.threads && s.threads[t].at.Reentering?
    ensures Inv(Go(s, t, outcome))
  {
    assert Phase(s, s.threads[t].at);
    assert s.threads[t].at.lock in LocksOf(s.threads[t].at);
    Works(s, Go(s, t, outcome), t);
  }

  lemma LookingAgainInv(s: State, t: ThreadId, outcome: bool)
    requires Inv(s) && t in s.threads && s.threads[t].at.LookingAgain?
    ensures Inv(Go(s, t, outcome))
  {
    assert Phase(s, s.threads[t].at);
    assert s.threads[t].at.lock in LocksOf(s.threads[t].at);
    Works(s, Go(s, t, outcome), t);
  }

  lemma GoInv(s: State, t: ThreadId, outcome: bool)
    requires Inv(s) && t in s.threads
    ensures Inv(Go(s, t, outcome))
  {
    match s.threads[t].at
    case Entering => EnterInv(s, t, outcome);
    case Locking(_) => LockInv(s, t, outcome);
    case Relocking(_, _, _) => NestedInv(s, t, outcome);
    case UnlockingInner(_, _) => NestedInv(s, t, outcome);
    case Unlocking(_) => UnlockInv(s, t, outcome);
    case Stopping(_, _, _) => StoppingInv(s, t, outcome);
    case Done =>
    case Looking(_) => LookingInv(s, t, outcome);
    case Sending(_, _) => SendingInv(s, t, outcome);
    case Reentering(_, _) => ReenteringInv(s, t, outcome);
    case LookingAgain(_, _) => LookingAgainInv(s, t, outcome);
    case ErasingAgain(_) => ErasedInv(s, t, outcome);
    case Creating(_) => ErasedInv(s, t, outcome);
    case Spawned(_, _) => SpawnedInv(s, t, outcome);
    case Connected(_, _) => ConnectedInv(s, t, outcome);
    case Installed(_, _) => InstalledInv(s, t, outcome);
  }

  /** A kernel's exit, and the end of its poll thread after it, fit every phase. */
  lemma KernelStepPhase(s: State, k: nat, kernel: Kernel, at: At)
    requires k < |s.kernels| && Phase(s, at)
    requires kernel == s.kernels[k].(alive := false) || kernel == s.kernels[k].(polling := false)
    ensures Phase(Set(s, k, kernel), at)
  {
  }

  lemma KernelStepInv(s: State, k: nat, kernel: Kernel)
    requires Inv(s) && k < |s.kernels|
    requires kernel == s.kernels[k].(alive := false) || kernel == s.kernels[k].(polling := false)
    ensures Inv(Set(s, k, kernel))
  {
    var u := Set(s, k, kernel);
    assert u.threads == s.threads;
    forall t | t in u.threads && DepthOf(u.threads[t]) > 0 ensures Phase(u, u.threads[t].at) {
      KernelStepPhase(s, k, kernel, s.threads[t].at);
    }
  }

  lemma CalledInv(s: State, t: ThreadId, op: Operation)
    requires Inv(s) && t !in s.threads && !s.closed
    ensures Inv(s.(threads := s.threads[t := Thread(op, Entering)]))
  {
    var u := s.(threads := s.threads[t := Thread(op, Entering)]);
    OutsideLock(s, u, t);
    OutsidePhased(s, u, t);
  }

  lemma CallsInv(s: State, t: ThreadId, op: Operation)
    requires Inv(s)
    ensures Inv(Step(s, Calls(t, op)))
  {
    if t !in s.threads && !s.closed {
      CalledInv(s, t, op);
    }
  }

  lemma DestroyInv(s: State)
    requires Inv(s)
    ensures Inv(Step(s, Destroys))
  {
  }

  lemma StepInv(s: State, e: Event)
    requires Inv(s)
    ensures Inv(Step(s, e))
  {
    match e
    case Calls(t, op) => CallsInv(s, t, op);
    case Goes(t, outcome) =>
      if t in s.threads {
        GoInv(s, t, outcome);
      }
    case Exits(k) =>
      if k < |s.kernels| {
        KernelStepInv(s, k, s.kernels[k].(alive := false));
      }
    case PollEnds(k) =>
      if k < |s.kernels| && !s.kernels[k].alive {
        KernelStepInv(s, k, s.kernels[k].(polling := false));
      }
    case Destroys => DestroyInv(s);
  }

  lemma {:induction false} RunInv(events: seq<Event>)
    ensures Inv(Run(events))
    decreases |events|
  {
    if events != [] {
      RunInv(events[..|events| - 1]);
      StepInv(Run(events[..|events| - 1]), events[|events| - 1]);
    }
  }

  /**
   In every interleaving: at most one kernel process of the id is alive; with no operation in
   progress a live one is the one in the map; channels are stopped at most once, and nothing is sent
   to a client after that.
   */
  lemma OneKernelAtATime(events: seq<Event>)
    ensures OneAlive(Run(events)) && LiveIsListed(Run(events)) && ClientsRespected(Run(events))
  {
    RunInv(events);
    AliveAlone(Run(events));
  }

  lemma AliveAlone(s: State)
    requires Inv(s)
    ensures OneAlive(s)
  {
    if t :| t in s.threads && DepthOf(s.threads[t]) > 0 {
      assert Phase(s, s.threads[t].at);
    }
  }

  /** At most one thread is at work on the session, however deep a restart has locked. */
  lemma OneAtWork(events: seq<Event>, t: ThreadId, o: ThreadId)
    requires t in Run(events).threads && DepthOf(Run(events).threads[t]) > 0
    requires o in Run(events).threads && DepthOf(Run(events).threads[o]) > 0
    ensures t == o
  {
    RunInv(events);
  }

  /** After a restart whose new kernel failed to start, nothing is alive and nothing is listed. */
  lemma FailedRestartLeavesNothing(events: seq<Event>, t: ThreadId)
    requires var s := Run(events); t in s.threads && s.threads[t].at.Spawned?
    ensures var s := Step(Run(events), Goes(t, false));
            s.session == None && forall i :: 0 <= i < |s.kernels| ==> !s.kernels[i].alive
  {
    RunInv(events);
    assert Phase(Run(events), Run(events).threads[t].at);
  }
}
