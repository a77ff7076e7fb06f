/**
 Installs and sessions on one Python environment: "hold first, look after" (createSession(),
 holdInstall() and pythonHost() in lib/session/session-manager.ts; ensurePythonPackagesIn() and
 ensurePythonEnvironmentIn() in lib/session/python-packages.ts).

 Any number of sessions and jobs run interleaved; JavaScript being single-threaded, each step is the
 code from one await to the next. A job is an install of packages, or the re-making of an environment.
 */
module HoldProtocol {
  import opened Wrappers
  import F = Folds

  type Venv = nat
  type SessionId = nat
  type JobId = nat
  type HoldId = nat

  /** Where a createSession() call, and then its session, is. */
  datatype SessionAt =
    | Discovering
    | Waiting(hold: HoldId)
    | Starting
    | Connecting
    | Returned
    | Rejected

  datatype WhenInUse = Wait | Defer | Proceed

  /** `other`: the environment was made from another Python, so re-making it empties it. */
  datatype Kind = Install(whenInUse: WhenInUse) | Remake(other: bool)

  /**
   Where a job is. Looked: it holds the environment and waits for what sessionsUsing() found in the
   same step. Working: pip or `python -m venv` is running; `mayReplace` says whether it may replace
   what sessions have loaded.
   */
  datatype JobAt =
    | Asked
    | Looked(hold: HoldId, using: set<SessionId>, replacing: Option<nat>)
    | Planning
    | Sleeping(packages: nat)
    | Working(held: Option<HoldId>, mayReplace: bool)
    | Leaving
    | Over

  datatype Job = Job(kind: Kind, venv: Venv, at: JobAt)

  /** `holds`, `starting`, `sessions` are the manager's maps; `released` the holds whose promise resolved. */
  datatype State = State(
    holds: map<Venv, HoldId>, released: set<HoldId>, nextHold: HoldId,
    starting: map<SessionId, Venv>, sessions: set<SessionId>, stopped: set<SessionId>,
    venvOf: map<SessionId, Option<Venv>>, at: map<SessionId, SessionAt>,
    locks: map<Venv, JobId>, jobs: map<JobId, Job>)

  const Initial := State(map[], {}, 0, map[], {}, {}, map[], map[], map[], map[])

  // ----- the manager -----

  /** sessionsUsing(): the sessions on the environment that are not stopped, and those starting on it. */
  function SessionsUsing(s: State, venv: Venv): set<SessionId> {
    (set id | id in s.sessions && id !in s.stopped && id in s.venvOf && s.venvOf[id] == Some(venv))
    + (set id | id in s.starting && s.starting[id] == venv)
  }

  /** holdInstall(). */
  function Hold(s: State, venv: Venv): State {
    s.(holds := s.holds[venv := s.nextHold], nextHold := s.nextHold + 1)
  }

  /** The function holdInstall() returns: takes the hold off if it is still this one, and wakes its waiters. */
  function Release(s: State, venv: Venv, hold: HoldId): State {
    s.(holds := if venv in s.holds && s.holds[venv] == hold then s.holds - {venv} else s.holds,
       released := s.released + {hold})
  }

  /** createSession() looks at the hold: it waits for it, or is starting from this moment on. */
  function LookAtHold(s: State, id: SessionId): State
    requires id in s.venvOf
  {
    match s.venvOf[id]
    case None => s.(at := s.at[id := Starting])
    case Some(venv) =>
      if venv in s.holds then s.(at := s.at[id := Waiting(s.holds[venv])])
      else s.(at := s.at[id := Starting], starting := s.starting[id := venv])
  }

  // ----- jobs -----

  function SetAt(s: State, j: JobId, at: JobAt): State
    requires j in s.jobs
  {
    s.(jobs := s.jobs[j := s.jobs[j].(at := at)])
  }

  function HoldAndLook(s: State, j: JobId, replacing: Option<nat>): State
    requires j in s.jobs
  {
    SetAt(Hold(s, s.jobs[j].venv), j, Looked(s.nextHold, SessionsUsing(s, s.jobs[j].venv), replacing))
  }

  /** The continuation after sessionsUsing() answered. */
  function AfterLooking(s: State, j: JobId): State
    requires j in s.jobs && s.jobs[j].at.Looked?
  {
    var job, at := s.jobs[j], s.jobs[j].at;
    if at.using == {} then SetAt(s, j, Working(Some(at.hold), true))
    else
      var t := Release(s, job.venv, at.hold);
      match job.kind
      case Remake(_) => SetAt(t, j, Sleeping(0))
      case Install(whenInUse) =>
        match at.replacing
        case None => SetAt(t, j, Planning)
        case Some(n) => SetAt(t, j, if whenInUse == Defer then Leaving else Sleeping(n))
  }

  function Finish(s: State, j: JobId): State
    requires j in s.jobs && s.jobs[j].at.Working?
  {
    var held := s.jobs[j].at.held;
    var t := if held.Some? then Release(s, s.jobs[j].venv, held.value) else s;
    SetAt(t, j, if s.jobs[j].kind.Install? then Leaving else Over)
  }

  datatype Event =
    | Requests(id: SessionId, library: Option<Venv>)
    | Discovers(id: SessionId)
    | Wakes(id: SessionId)
    | Creates(id: SessionId)
    | CreateFails(id: SessionId)
    | BecomesReady(id: SessionId)
    | ReadyFails(id: SessionId)
    | Stops(id: SessionId)
    | Asks(job: JobId, kind: Kind, venv: Venv)
    | Locks(job: JobId)
    | FindsEnvironment(job: JobId)
    | Looks(job: JobId)
    | Plans(job: JobId, replacing: Option<nat>)
    | SleepEnds(job: JobId)
    | WorkEnds(job: JobId)
    | Unlocks(job: JobId)

  predicate SessionIs(s: State, id: SessionId, at: SessionAt) {
    id in s.at && s.at[id] == at && id in s.venvOf
  }

  predicate Enabled(s: State, e: Event) {
    match e
    case Requests(id, _) => id !in s.at
    case Discovers(id) => SessionIs(s, id, Discovering)
    case Wakes(id) => id in s.at && s.at[id].Waiting? && s.at[id].hold in s.released && id in s.venvOf
    case Creates(id) => SessionIs(s, id, Starting)
    case CreateFails(id) => SessionIs(s, id, Starting)
    case BecomesReady(id) => SessionIs(s, id, Connecting)
    case ReadyFails(id) => SessionIs(s, id, Connecting)
    case Stops(id) => id in s.sessions
    case Asks(j, _, _) => j !in s.jobs
    case Locks(j) => j in s.jobs && s.jobs[j].kind.Install? && s.jobs[j].at == Asked && s.jobs[j].venv !in s.locks
    case FindsEnvironment(j) => j in s.jobs && s.jobs[j].kind.Remake? && s.jobs[j].at == Asked
    case Looks(j) => j in s.jobs && s.jobs[j].at.Looked?
    case Plans(j, _) => j in s.jobs && s.jobs[j].at.Planning?
    case SleepEnds(j) => j in s.jobs && s.jobs[j].at.Sleeping?
    case WorkEnds(j) => j in s.jobs && s.jobs[j].at.Working?
    case Unlocks(j) => j in s.jobs && s.jobs[j].at.Leaving?
  }

  function Do(s: State, e: Event): State
    requires Enabled(s, e)
  {
    match e
    case Requests(id, venv) => s.(at := s.at[id := Discovering], venvOf := s.venvOf[id := venv])
    case Discovers(id) => LookAtHold(s, id)
    case Wakes(id) => LookAtHold(s, id)
    case Creates(id) => s.(at := s.at[id := Connecting], sessions := s.sessions + {id}, starting := s.starting - {id})
    case CreateFails(id) => s.(at := s.at[id := Rejected], starting := s.starting - {id})
    case BecomesReady(id) => s.(at := s.at[id := Returned])
    case ReadyFails(id) => s.(at := s.at[id := Rejected], sessions := s.sessions - {id})
    case Stops(id) => s.(stopped := s.stopped + {id})
    case Asks(j, kind, venv) => s.(jobs := s.jobs[j := Job(kind, venv, Asked)])
    case Locks(j) =>
      var t := s.(locks := s.locks[s.jobs[j].venv := j]);
      if s.jobs[j].kind.whenInUse == Proceed then SetAt(t, j, Working(None, true)) else HoldAndLook(t, j, None)
    case FindsEnvironment(j) =>
      if s.jobs[j].kind.other then HoldAndLook(s, j, None)
      else SetAt(Hold(s, s.jobs[j].venv), j, Working(Some(s.nextHold), false))
    case Looks(j) => AfterLooking(s, j)
    case Plans(j, replacing) =>
      // None: the plan itself ended the install, or failed
      if replacing.None? then SetAt(s, j, Leaving)
      else if replacing.value == 0 then SetAt(s, j, Working(None, false))
      else HoldAndLook(s, j, replacing)
    case SleepEnds(j) => HoldAndLook(s, j, if s.jobs[j].kind.Remake? then None else Some(s.jobs[j].at.packages))
    case WorkEnds(j) => Finish(s, j)
    case Unlocks(j) => SetAt(s.(locks := s.locks - {s.jobs[j].venv}), j, Over)
  }

  /** An event that cannot happen leaves the state alone, so every event sequence is a run. */
  function Step(s: State, e: Event): State {
    if Enabled(s, e) then Do(s, e) else s
  }

  function Run(s: State, events: seq<Event>): State {
    F.Fold(Step, s, events)
  }

  /** The environment `e` takes a hold on, if it takes one. */
  function Holds(s: State, e: Event): Option<Venv>
    requires Enabled(s, e)
  {
    match e
    case Locks(j) => if s.jobs[j].kind.whenInUse == Proceed then None else Some(s.jobs[j].venv)
    case FindsEnvironment(j) => Some(s.jobs[j].venv)
    case Plans(j, replacing) => if replacing.Some? && replacing.value > 0 then Some(s.jobs[j].venv) else None
    case SleepEnds(j) => Some(s.jobs[j].venv)
    case _ => None
  }

  /** The event takes a hold on an environment that is held already. */
  predicate Overlaps(s: State, e: Event) {
    Enabled(s, e) && Holds(s, e).Some? && Holds(s, e).value in s.holds
  }

  // ----- what is promised -----

  /** The session is starting on the environment, or running on it and has not been stopped. */
  predicate Uses(s: State, id: SessionId, venv: Venv) {
    && id in s.at && id in s.venvOf && s.venvOf[id] == Some(venv)
    && (s.at[id] == Starting || ((s.at[id] == Connecting || s.at[id] == Returned) && id !in s.stopped))
  }

  predicate IsFree(s: State, venv: Venv, hold: HoldId) {
    venv in s.holds && s.holds[venv] == hold && forall id: SessionId :: id in s.at ==> !Uses(s, id, venv)
  }

  /**
   An install that looks (whenInUse is not 'proceed') and is running pip replaces nothing, or runs
   with the environment held and no session on it; so does a re-making that empties it.
   */
  ghost predicate Safe(s: State) {
    forall j :: j in s.jobs && s.jobs[j].at.Working? ==> SafeJob(s, s.jobs[j])
  }

  ghost predicate SafeJob(s: State, job: Job)
    requires job.at.Working?
  {
    || !job.at.mayReplace
    || job.kind == Install(Proceed)
    || (job.at.held.Some? && IsFree(s, job.venv, job.at.held.value))
  }

  /** Whoever waits, waits on a hold that is current or already released. */
  ghost predicate NoLostWaiter(s: State) {
    forall id :: id in s.at && s.at[id].Waiting? ==>
      || s.at[id].hold in s.released
      || (id in s.venvOf && s.venvOf[id].Some? && s.venvOf[id].value in s.holds
          && s.holds[s.venvOf[id].value] == s.at[id].hold)
  }

  function HoldOf(job: Job): Option<HoldId> {
    match job.at
    case Looked(hold, _, _) => Some(hold)
    case Working(held, _) => held
    case _ => None
  }

  /** A hold is there exactly while one job has it. */
  ghost predicate HoldsOwned(s: State) {
    && (forall j :: j in s.jobs && HoldOf(s.jobs[j]).Some? ==>
          s.jobs[j].venv in s.holds && s.holds[s.jobs[j].venv] == HoldOf(s.jobs[j]).value
          && HoldOf(s.jobs[j]).value !in s.released)
    && (forall j, k :: j in s.jobs && k in s.jobs && j != k && HoldOf(s.jobs[j]).Some? ==>
         HoldOf(s.jobs[j]) != HoldOf(s.jobs[k]))
    && (forall v :: v in s.holds ==>
         exists j :: j in s.jobs && s.jobs[j].venv == v && HoldOf(s.jobs[j]) == Some(s.holds[v]))
  }

  ghost predicate Fresh(s: State) {
    && (forall v :: v in s.holds ==> s.holds[v] < s.nextHold)
    && (forall h :: h in s.released ==> h < s.nextHold)
  }

  /** Sessions are where the manager's maps say they are. */
  ghost predicate Placed(s: State) {
    && (forall id :: id in s.starting ==>
         id in s.at && s.at[id] == Starting && id in s.venvOf && s.venvOf[id] == Some(s.starting[id]))
    && (forall id :: id in s.sessions <==> id in s.at && (s.at[id] == Connecting || s.at[id] == Returned))
    && s.at.Keys == s.venvOf.Keys
    && (forall id :: id in s.at && s.at[id] == Starting && s.venvOf[id].Some? ==> id in s.starting)
  }

  /** Nobody a job's look did not see has come to use the environment since. */
  ghost predicate NobodyMissed(s: State) {
    forall j :: j in s.jobs ==> JobMissedNobody(s, s.jobs[j])
  }

  ghost predicate JobMissedNobody(s: State, job: Job) {
    match job.at
    case Looked(_, using, _) => SessionsUsing(s, job.venv) <= using
    case Working(held, mayReplace) => held.Some? && mayReplace ==> SessionsUsing(s, job.venv) == {}
    case _ => true
  }

  /** An install's working without a hold replaces nothing, unless it was told to proceed. */
  ghost predicate HeldOrHarmless(s: State) {
    forall j :: j in s.jobs && s.jobs[j].at.Working? && s.jobs[j].at.held.None? ==>
      s.jobs[j].kind == Install(Proceed) || !s.jobs[j].at.mayReplace
  }

  ghost predicate Inv(s: State) {
    Fresh(s) && Placed(s) && HoldsOwned(s) && NobodyMissed(s) && NoLostWaiter(s) && HeldOrHarmless(s)
  }

  /** sessionsUsing() finds exactly who uses the environment. */
  lemma UsersAreFound(s: State, venv: Venv, id: SessionId)
    requires Placed(s)
    ensures id in SessionsUsing(s, venv) <==> Uses(s, id, venv)
  {
  }

  lemma InvIsSafe(s: State)
    requires Inv(s)
    ensures Safe(s)
  {
    forall j | j in s.jobs && s.jobs[j].at.Working? ensures SafeJob(s, s.jobs[j]) {
      assert JobMissedNobody(s, s.jobs[j]);
      forall id | id in s.at ensures id !in SessionsUsing(s, s.jobs[j].venv) ==> !Uses(s, id, s.jobs[j].venv) {
        UsersAreFound(s, s.jobs[j].venv, id);
      }
    }
  }

  // ----- every step keeps it -----

  /** Taking a hold on an environment nobody holds, and looking who uses it in the same step. */
  lemma HoldAndLookInv(s: State, j: JobId, replacing: Option<nat>)
    requires Inv(s) && j in s.jobs && HoldOf(s.jobs[j]).None? && s.jobs[j].venv !in s.holds
    ensures Inv(HoldAndLook(s, j, replacing))
  {
    var t := HoldAndLook(s, j, replacing);
    KeepsUsers(s, t);
    HoldTaken(s, t, j, s.jobs[j].venv);
  }

  lemma KeepsUsers(s: State, t: State)
    requires t.sessions == s.sessions && t.stopped == s.stopped && t.venvOf == s.venvOf && t.starting == s.starting
    ensures forall v :: SessionsUsing(t, v) == SessionsUsing(s, v)
  {
  }

  lemma HoldTaken(s: State, t: State, j: JobId, venv: Venv)
    requires Fresh(s) && HoldsOwned(s) && NoLostWaiter(s)
    requires j in s.jobs && HoldOf(s.jobs[j]).None? && s.jobs[j].venv == venv && venv !in s.holds
    requires t.holds == s.holds[venv := s.nextHold] && t.nextHold == s.nextHold + 1 && t.released == s.released
    requires j in t.jobs && t.jobs == s.jobs[j := t.jobs[j]] && t.jobs[j].venv == venv
             && HoldOf(t.jobs[j]) == Some(s.nextHold)
    requires t.at == s.at && t.venvOf == s.venvOf
    ensures Fresh(t) && HoldsOwned(t) && NoLostWaiter(t)
  {
    forall v | v in t.holds
      ensures exists k :: k in t.jobs && t.jobs[k].venv == v && HoldOf(t.jobs[k]) == Some(t.holds[v])
    {
      if v != venv {
        var k :| k in s.jobs && s.jobs[k].venv == v && HoldOf(s.jobs[k]) == Some(s.holds[v]);
        assert k in t.jobs && t.jobs[k] == s.jobs[k];
      }
    }
  }

  /** A job that lets go of its hold. */
  lemma HoldDropped(s: State, t: State, j: JobId, venv: Venv, hold: HoldId)
    requires Fresh(s) && HoldsOwned(s) && NoLostWaiter(s)
    requires j in s.jobs && s.jobs[j].venv == venv && HoldOf(s.jobs[j]) == Some(hold)
    requires t.holds == s.holds - {venv} && t.nextHold == s.nextHold && t.released == s.released + {hold}
    requires j in t.jobs && t.jobs == s.jobs[j := t.jobs[j]] && t.jobs[j].venv == venv && HoldOf(t.jobs[j]) == None
    requires t.at == s.at && t.venvOf == s.venvOf
    ensures Fresh(t) && HoldsOwned(t) && NoLostWaiter(t)
  {
    DroppedHoldWakes(s, t, venv, hold);
    forall v | v in t.holds
      ensures exists k :: k in t.jobs && t.jobs[k].venv == v && HoldOf(t.jobs[k]) == Some(t.holds[v])
    {
      var k :| k in s.jobs && s.jobs[k].venv == v && HoldOf(s.jobs[k]) == Some(s.holds[v]);
      assert k in t.jobs && t.jobs[k] == s.jobs[k];
    }
  }

  /** Whoever waited on a hold that is given back waits on a released one. */
  lemma DroppedHoldWakes(s: State, t: State, venv: Venv, hold: HoldId)
    requires NoLostWaiter(s) && venv in s.holds && s.holds[venv] == hold
    requires t.holds == s.holds - {venv} && t.released == s.released + {hold}
    requires t.at == s.at && t.venvOf == s.venvOf
    ensures NoLostWaiter(t)
  {
  }

  /** A job that moves on without taking or dropping a hold, missing nobody. */
  lemma JobMoves(s: State, t: State, j: JobId)
    requires Inv(s) && t == s.(jobs := t.jobs, locks := t.locks) && j in t.jobs && t.jobs == s.jobs[j := t.jobs[j]]
    requires j in s.jobs ==> HoldOf(t.jobs[j]) == HoldOf(s.jobs[j]) && t.jobs[j].venv == s.jobs[j].venv
    requires j !in s.jobs ==> HoldOf(t.jobs[j]) == None
    requires JobMissedNobody(t, t.jobs[j])
    requires t.jobs[j].at.Working? && t.jobs[j].at.held.None? ==>
             t.jobs[j].kind == Install(Proceed) || !t.jobs[j].at.mayReplace
    ensures Inv(t)
  {
    KeepsUsers(s, t);
    assert HoldsOwned(t) by {
      forall v | v in t.holds
        ensures exists k :: k in t.jobs && t.jobs[k].venv == v && HoldOf(t.jobs[k]) == Some(t.holds[v])
      {
        var k :| k in s.jobs && s.jobs[k].venv == v && HoldOf(s.jobs[k]) == Some(s.holds[v]);
        assert k in t.jobs;
      }
    }
    forall k | k in t.jobs ensures JobMissedNobody(t, t.jobs[k]) {
      assert k != j ==> JobMissedNobody(s, s.jobs[k]);
    }
  }

  lemma ReleaseInv(s: State, j: JobId, next: JobAt)
    requires Inv(s) && j in s.jobs && HoldOf(s.jobs[j]).Some?
    requires next.Planning? || next.Sleeping? || next.Leaving? || next.Over? || next == Working(None, false)
    ensures Inv(SetAt(Release(s, s.jobs[j].venv, HoldOf(s.jobs[j]).value), j, next))
  {
    var t := SetAt(Release(s, s.jobs[j].venv, HoldOf(s.jobs[j]).value), j, next);
    KeepsUsers(s, t);
    HoldDropped(s, t, j, s.jobs[j].venv, HoldOf(s.jobs[j]).value);
    forall k | k in t.jobs ensures JobMissedNobody(t, t.jobs[k]) {
      assert k != j ==> JobMissedNobody(s, s.jobs[k]);
    }
  }

  lemma LooksInv(s: State, j: JobId)
    requires Inv(s) && Enabled(s, Looks(j))
    ensures Inv(AfterLooking(s, j))
  {
    var at := s.jobs[j].at;
    assert JobMissedNobody(s, s.jobs[j]);
    if at.using == {} {
      KeepsUsers(s, AfterLooking(s, j));
      JobMoves(s, AfterLooking(s, j), j);
    } else if s.jobs[j].kind.Remake? {
      ReleaseInv(s, j, Sleeping(0));
    } else if at.replacing.None? {
      ReleaseInv(s, j, Planning);
    } else {
      ReleaseInv(s, j, if s.jobs[j].kind.whenInUse == Defer then Leaving else Sleeping(at.replacing.value));
    }
  }

  lemma WorkEndsInv(s: State, j: JobId)
    requires Inv(s) && Enabled(s, WorkEnds(j))
    ensures Inv(Finish(s, j))
  {
    var next := if s.jobs[j].kind.Install? then Leaving else Over;
    if s.jobs[j].at.held.Some? {
      ReleaseInv(s, j, next);
    } else {
      JobMoves(s, Finish(s, j), j);
    }
  }

  lemma LocksInv(s: State, j: JobId)
    requires Inv(s) && Enabled(s, Locks(j)) && !Overlaps(s, Locks(j))
    ensures Inv(Do(s, Locks(j)))
  {
    var t := s.(locks := s.locks[s.jobs[j].venv := j]);
    assert t.jobs[j := t.jobs[j]] == t.jobs;
    KeepsUsers(s, t);
    JobMoves(s, t, j);
    if s.jobs[j].kind.whenInUse == Proceed {
      JobMoves(t, Do(s, Locks(j)), j);
    } else {
      HoldAndLookInv(t, j, None);
    }
  }

  /** A re-making of a missing environment holds it without looking. */
  lemma FindsInv(s: State, j: JobId)
    requires Inv(s) && Enabled(s, FindsEnvironment(j)) && !Overlaps(s, FindsEnvironment(j))
    ensures Inv(Do(s, FindsEnvironment(j)))
  {
    if s.jobs[j].kind.other {
      HoldAndLookInv(s, j, None);
    } else {
      var t := Do(s, FindsEnvironment(j));
      KeepsUsers(s, t);
      HoldTaken(s, t, j, s.jobs[j].venv);
      forall k | k in t.jobs ensures JobMissedNobody(t, t.jobs[k]) {
        assert k != j ==> JobMissedNobody(s, s.jobs[k]);
      }
    }
  }

  /**
   A session's step: it may come to use an environment only if nobody holds that (`grown`); every
   other environment keeps its users, or loses some.
   */
  lemma SessionMoves(s: State, t: State, grown: Option<Venv>)
    requires Inv(s) && Placed(t) && NoLostWaiter(t)
    requires t.holds == s.holds && t.released == s.released && t.nextHold == s.nextHold && t.jobs == s.jobs
    requires grown.Some? ==> grown.value !in s.holds
    requires forall v: Venv :: Some(v) != grown ==> SessionsUsing(t, v) <= SessionsUsing(s, v)
    ensures Inv(t)
  {
    forall j | j in t.jobs ensures JobMissedNobody(t, t.jobs[j]) {
      assert JobMissedNobody(s, s.jobs[j]);
      assert HoldOf(s.jobs[j]).Some? ==> s.jobs[j].venv in s.holds;
    }
  }

  lemma UsersWhenLooking(s: State, id: SessionId, v: Venv)
    requires Placed(s) && id in s.at && (s.at[id] == Discovering || s.at[id].Waiting?)
    ensures SessionsUsing(LookAtHold(s, id), v)
            == SessionsUsing(s, v) + if s.venvOf[id] == Some(v) && v !in s.holds then {id} else {}
  {
    assert id !in s.starting && id !in s.sessions;
  }

  lemma LookAtHoldPlaced(s: State, id: SessionId)
    requires Placed(s) && id in s.at && (s.at[id] == Discovering || s.at[id].Waiting?)
    ensures Placed(LookAtHold(s, id))
  {
    match s.venvOf[id]
    case None =>
    case Some(venv) =>
      if venv in s.holds {
        assert LookAtHold(s, id).starting == s.starting;
      }
  }

  lemma LookAtHoldWaits(s: State, id: SessionId)
    requires Placed(s) && NoLostWaiter(s) && id in s.at
    ensures NoLostWaiter(LookAtHold(s, id))
  {
  }

  lemma LookAtHoldInv(s: State, id: SessionId)
    requires Inv(s) && id in s.at && (s.at[id] == Discovering || s.at[id].Waiting?)
    ensures Inv(LookAtHold(s, id))
  {
    var t, grown := LookAtHold(s, id), s.venvOf[id];
    LookAtHoldPlaced(s, id);
    LookAtHoldWaits(s, id);
    forall v: Venv
      ensures SessionsUsing(t, v) == SessionsUsing(s, v) + if s.venvOf[id] == Some(v) && v !in s.holds then {id} else {}
    {
      UsersWhenLooking(s, id, v);
    }
    SessionMoves(s, t, if grown.Some? && grown.value !in s.holds then grown else None);
  }

  predicate IsSessionEvent(e: Event) {
    e.Requests? || e.Creates? || e.CreateFails? || e.BecomesReady? || e.ReadyFails? || e.Stops?
  }

  lemma SessionStepPlaced(s: State, e: Event)
    requires Placed(s) && Enabled(s, e) && IsSessionEvent(e)
    ensures Placed(Do(s, e)) && (NoLostWaiter(s) ==> NoLostWaiter(Do(s, e)))
  {
  }

  lemma SessionStepUsers(s: State, e: Event, v: Venv)
    requires Placed(s) && Enabled(s, e) && IsSessionEvent(e)
    ensures SessionsUsing(Do(s, e), v) <= SessionsUsing(s, v)
  {
  }

  lemma SessionStepInv(s: State, e: Event)
    requires Inv(s) && Enabled(s, e) && IsSessionEvent(e)
    ensures Inv(Do(s, e))
  {
    SessionStepPlaced(s, e);
    forall v: Venv ensures SessionsUsing(Do(s, e), v) <= SessionsUsing(s, v) {
      SessionStepUsers(s, e, v);
    }
    SessionMoves(s, Do(s, e), None);
  }

  lemma StepInv(s: State, e: Event)
    requires Inv(s) && !Overlaps(s, e)
    ensures Inv(Step(s, e))
  {
    if Enabled(s, e) {
      match e
      case Discovers(id) => LookAtHoldInv(s, id);
      case Wakes(id) => LookAtHoldInv(s, id);
      case Asks(j, _, _) => JobMoves(s, Do(s, e), j);
      case Locks(j) => LocksInv(s, j);
      case FindsEnvironment(j) => FindsInv(s, j);
      case Looks(j) => LooksInv(s, j);
      case Plans(j, replacing) =>
        if replacing.None? || replacing.value == 0 {
          JobMoves(s, Do(s, e), j);
        } else {
          HoldAndLookInv(s, j, replacing);
        }
      case SleepEnds(j) => HoldAndLookInv(s, j, if s.jobs[j].kind.Remake? then None else Some(s.jobs[j].at.packages));
      case WorkEnds(j) => WorkEndsInv(s, j);
      case Unlocks(j) => JobMoves(s, Do(s, e), j);
      case _ => SessionStepInv(s, e);
    }
  }

  // ----- runs -----

  ghost predicate NeverOverlaps(s: State, events: seq<Event>) {
    forall i :: 0 <= i < |events| ==> !Overlaps(Run(s, events[..i]), events[i])
  }

  lemma {:induction false} RunInv(s: State, events: seq<Event>)
    requires Inv(s) && NeverOverlaps(s, events)
    ensures Inv(Run(s, events))
    decreases |events|
  {
    if events != [] {
      var before := events[..|events| - 1];
      forall i | 0 <= i < |before| ensures !Overlaps(Run(s, before[..i]), before[i]) {
        assert before[..i] == events[..i];
      }
      RunInv(s, before);
      StepInv(Run(s, before), events[|events| - 1]);
    }
  }

  /**
   In every run in which no hold is taken on a held environment: no install or re-making works under
   a session it should have waited for, every waiter waits on a current or released hold, and a hold
   stands only while a job has it.
   */
  lemma SeenOrWaits(events: seq<Event>)
    requires NeverOverlaps(Initial, events)
    ensures Safe(Run(Initial, events)) && NoLostWaiter(Run(Initial, events)) && HoldsOwned(Run(Initial, events))
  {
    RunInv(Initial, events);
    InvIsSafe(Run(Initial, events));
  }

  // ----- installs alone never overlap: the library lock -----

  /** Every job is an install, and one that is past asking has its environment's lock until it is over. */
  ghost predicate Locked(s: State) {
    && (forall j :: j in s.jobs ==> s.jobs[j].kind.Install?)
    && (forall j :: j in s.jobs && s.jobs[j].at != Asked && s.jobs[j].at != Over ==>
          s.jobs[j].venv in s.locks && s.locks[s.jobs[j].venv] == j)
  }

  lemma LockedNeverOverlaps(s: State, e: Event)
    requires Locked(s) && HoldsOwned(s)
    ensures !Overlaps(s, e)
  {
  }

  /** Only job `j` moved: by itself, or by taking or giving back its environment's lock. */
  lemma JobLocked(s: State, t: State, j: JobId)
    requires Locked(s) && j in t.jobs && t.jobs == s.jobs[j := t.jobs[j]] && t.jobs[j].kind.Install?
    requires forall v :: v in s.locks && s.locks[v] != j ==> v in t.locks && t.locks[v] == s.locks[v]
    requires t.jobs[j].at == Asked || t.jobs[j].at == Over
             || (t.jobs[j].venv in t.locks && t.locks[t.jobs[j].venv] == j)
    ensures Locked(t)
  {
  }

  lemma LooksLocked(s: State, j: JobId)
    requires Locked(s) && Enabled(s, Looks(j))
    ensures Locked(AfterLooking(s, j))
  {
    JobLocked(s, AfterLooking(s, j), j);
  }

  lemma HoldLocked(s: State, j: JobId, replacing: Option<nat>)
    requires Locked(s) && j in s.jobs && s.jobs[j].venv in s.locks && s.locks[s.jobs[j].venv] == j
    ensures Locked(HoldAndLook(s, j, replacing))
  {
    JobLocked(s, HoldAndLook(s, j, replacing), j);
  }

  lemma LocksLocked(s: State, j: JobId)
    requires Locked(s) && Enabled(s, Locks(j))
    ensures Locked(Do(s, Locks(j)))
  {
    JobLocked(s, Do(s, Locks(j)), j);
  }

  lemma PlansLocked(s: State, j: JobId, replacing: Option<nat>)
    requires Locked(s) && Enabled(s, Plans(j, replacing))
    ensures Locked(Do(s, Plans(j, replacing)))
  {
    HoldLocked(s, j, replacing);
    JobLocked(s, SetAt(s, j, Leaving), j);
    JobLocked(s, SetAt(s, j, Working(None, false)), j);
  }

  lemma EndsLocked(s: State, e: Event, j: JobId)
    requires Locked(s) && Enabled(s, e) && (e == WorkEnds(j) || e == Unlocks(j))
    ensures Locked(Do(s, e))
  {
    JobLocked(s, Do(s, e), j);
  }

  lemma SessionLocked(s: State, e: Event)
    requires Locked(s) && Enabled(s, e) && (IsSessionEvent(e) || e.Discovers? || e.Wakes?)
    ensures Locked(Do(s, e))
  {
  }

  lemma StepLocked(s: State, e: Event)
    requires Locked(s) && !(e.Asks? && e.kind.Remake?)
    ensures Locked(Step(s, e))
  {
    if Enabled(s, e) {
      match e
      case Asks(j, _, _) => JobLocked(s, Do(s, e), j);
      case Locks(j) => LocksLocked(s, j);
      case Looks(j) => LooksLocked(s, j);
      case Plans(j, replacing) => PlansLocked(s, j, replacing);
      case SleepEnds(j) => HoldLocked(s, j, Some(s.jobs[j].at.packages));
      case WorkEnds(j) => EndsLocked(s, e, j);
      case Unlocks(j) => EndsLocked(s, e, j);
      case FindsEnvironment(_) =>
      case _ => SessionLocked(s, e);
    }
  }

  predicate InstallsOnly(events: seq<Event>) {
    forall i :: 0 <= i < |events| ==> !(events[i].Asks? && events[i].kind.Remake?)
  }

  lemma {:induction false} InstallsRunSafely(events: seq<Event>)
    requires InstallsOnly(events)
    ensures NeverOverlaps(Initial, events) && Inv(Run(Initial, events)) && Locked(Run(Initial, events))
    decreases |events|
  {
    if events != [] {
      var before, last := events[..|events| - 1], events[|events| - 1];
      InstallsRunSafely(before);
      var s := Run(Initial, before);
      LockedNeverOverlaps(s, last);
      StepInv(s, last);
      StepLocked(s, last);
      forall i | 0 <= i < |events| ensures !Overlaps(Run(Initial, events[..i]), events[i]) {
        if i < |before| {
          assert events[..i] == before[..i] && events[i] == before[i];
        } else {
          assert events[..i] == before;
        }
      }
    }
  }

  /**
   In every run of sessions and installs: an install that looks and is running pip replaces nothing,
   or holds the environment with no session starting or unstopped on it; and nobody waits on a hold
   that is neither current nor released.
   */
  lemma InstallsSeeEverySession(events: seq<Event>)
    requires InstallsOnly(events)
    ensures Safe(Run(Initial, events)) && NoLostWaiter(Run(Initial, events))
  {
    InstallsRunSafely(events);
    InvIsSafe(Run(Initial, events));
  }
}
