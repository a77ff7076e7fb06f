/**
 What comes of the sessions and jobs of the hold protocol over every run, overlapping holds included: who
 a look finds, and how a job comes to work and to its end (ensurePythonPackagesIn() and
 ensurePythonEnvironmentIn() in lib/session/python-packages.ts).
 */
module HoldOutcomes {
  import opened Wrappers
  import opened HoldProtocol
  import opened HoldOverlaps
  import F = Folds

  // ----- whom a look finds -----

  /** A job's step is none of the sessions' business. */
  lemma JobLeavesSessions(s: State, e: Event)
    requires Enabled(s, e) && JobOf(e).Some?
    ensures SameSessions(s, Do(s, e))
  {
    match e
    case Looks(j) => LooksLeaveSessions(s, j);
    case WorkEnds(j) => WorkLeavesSessions(s, j);
    case Locks(j) => LocksLeaveSessions(s, j);
    case FindsEnvironment(_) =>
    case Plans(_, _) =>
    case SleepEnds(_) =>
    case Asks(_, _, _) =>
    case Unlocks(_) =>
  }

  lemma LocksLeaveSessions(s: State, j: JobId)
    requires Enabled(s, Locks(j))
    ensures SameSessions(s, Do(s, Locks(j)))
  {
  }

  predicate SameSessions(s: State, t: State) {
    t.starting == s.starting && t.sessions == s.sessions && t.at == s.at && t.venvOf == s.venvOf
  }

  lemma LooksLeaveSessions(s: State, j: JobId)
    requires Enabled(s, Looks(j))
    ensures SameSessions(s, AfterLooking(s, j))
  {
    if s.jobs[j].at.using != {} {
      LooksAway(s, j);
    }
  }

  lemma WorkLeavesSessions(s: State, j: JobId)
    requires Enabled(s, WorkEnds(j))
    ensures SameSessions(s, Finish(s, j))
  {
  }

  lemma JobStepPlaced(s: State, e: Event)
    requires Placed(s) && Enabled(s, e) && JobOf(e).Some?
    ensures Placed(Do(s, e))
  {
    JobLeavesSessions(s, e);
    SameIsPlaced(s, Do(s, e));
  }

  lemma SameIsPlaced(s: State, t: State)
    requires Placed(s) && SameSessions(s, t)
    ensures Placed(t)
  {
  }

  lemma StepPlaced(s: State, e: Event)
    requires Placed(s)
    ensures Placed(Step(s, e))
  {
    if Enabled(s, e) {
      match e
      case Discovers(id) => LookAtHoldPlaced(s, id);
      case Wakes(id) => LookAtHoldPlaced(s, id);
      case _ =>
        if JobOf(e).Some? {
          JobStepPlaced(s, e);
        } else {
          SessionStepPlaced(s, e);
        }
    }
  }

  lemma {:induction false} RunPlaced(events: seq<Event>)
    ensures Placed(Run(Initial, events))
    decreases |events|
  {
    if events != [] {
      RunPlaced(events[..|events| - 1]);
      StepPlaced(Run(Initial, events[..|events| - 1]), events[|events| - 1]);
    }
  }

  /**
   After every run sessionsUsing() finds exactly the sessions that are starting on the environment, and
   those that run on it and were not stopped.
   */
  lemma LooksFindExactlyTheUsers(events: seq<Event>, venv: Venv, id: SessionId)
    ensures id in SessionsUsing(Run(Initial, events), venv) <==> Uses(Run(Initial, events), id, venv)
  {
    RunPlaced(events);
    UsersAreFound(Run(Initial, events), venv, id);
  }

  // ----- how a job comes to its end -----

  predicate DoesAt(events: seq<Event>, i: nat, e: Event) {
    i < |events| && events[i] == e && Enabled(Run(Initial, events[..i]), e)
  }

  /** `e` happened. */
  ghost predicate Did(events: seq<Event>, e: Event) {
    exists i: nat :: DoesAt(events, i, e)
  }

  /** The job looked, after its plan, and found somebody. */
  predicate FoundAt(events: seq<Event>, i: nat, j: JobId) {
    && DoesAt(events, i, Looks(j))
    && var at := Run(Initial, events[..i]).jobs[j].at;
       at.Looked? && at.using != {} && at.replacing.Some?
  }

  ghost predicate FoundSomebody(events: seq<Event>, j: JobId) {
    exists i: nat :: FoundAt(events, i, j)
  }

  lemma DidStays(events: seq<Event>, last: Event, e: Event)
    ensures Did(events + [last], e) <==> Did(events, e) || (e == last && Enabled(Run(Initial, events), last))
  {
    var longer := events + [last];
    assert longer[..|events|] == events;
    assert forall i: nat :: i < |events| ==> longer[..i] == events[..i] && longer[i] == events[i];
    assert forall i: nat :: i < |events| ==> (DoesAt(longer, i, e) <==> DoesAt(events, i, e));
    if e == last && Enabled(Run(Initial, events), last) {
      assert DoesAt(longer, |events|, e);
    }
  }

  lemma FoundStays(events: seq<Event>, last: Event, j: JobId)
    requires FoundSomebody(events, j)
    ensures FoundSomebody(events + [last], j)
  {
    var i: nat :| FoundAt(events, i, j);
    assert (events + [last])[..i] == events[..i];
    assert FoundAt(events + [last], i, j);
  }

  /**
   How job `j` is where it is: work replaces nothing exactly if its plan said so or the environment was
   missing or of the same Python; it is over only by its work or its plan, or, if it was to defer, because
   it found somebody; and one that sleeps is neither over nor to defer.
   */
  ghost predicate CameThere(events: seq<Event>, j: JobId, job: Job) {
    match job.at
    case Looked(_, _, replacing) =>
      && job.kind != Install(Proceed) && job.kind != Remake(false)
      && !Did(events, Plans(j, Some(0)))
      && (job.kind.Remake? ==> replacing == None)
      && (replacing.Some? ==> replacing.value > 0 && Did(events, Plans(j, replacing)))
    case Planning => job.kind.Install? && job.kind != Install(Proceed) && !Did(events, Plans(j, Some(0)))
    case Sleeping(n) =>
      && !Did(events, Plans(j, Some(0)))
      && (if job.kind.Remake? then job.kind.other
          else job.kind == Install(Wait) && n > 0 && Did(events, Plans(j, Some(n))))
    case Working(held, mayReplace) =>
      && (mayReplace <==> job.kind != Remake(false) && !Did(events, Plans(j, Some(0))))
      && (held.None? <==> job.kind == Install(Proceed) || Did(events, Plans(j, Some(0))))
    case Leaving => job.kind.Install? && Ended(events, j, job.kind)
    case Over => Ended(events, j, job.kind)
    case Asked => !Did(events, Plans(j, Some(0)))
  }

  ghost predicate Ended(events: seq<Event>, j: JobId, kind: Kind) {
    || Did(events, WorkEnds(j))
    || Did(events, Plans(j, None))
    || (kind == Install(Defer) && FoundSomebody(events, j))
  }

  /** What is known of a job before it is there, too. */
  ghost predicate History(events: seq<Event>, j: JobId) {
    var s := Run(Initial, events);
    if j in s.jobs then CameThere(events, j, s.jobs[j]) else !Did(events, Plans(j, Some(0)))
  }

  lemma Longer(events: seq<Event>, last: Event)
    ensures Run(Initial, events + [last]) == Step(Run(Initial, events), last)
  {
    F.FoldOneMore(Step, Initial, events, last);
  }

  /** What others do, and what cannot happen, is no part of a job's history. */
  lemma OthersHistory(events: seq<Event>, last: Event, j: JobId)
    requires History(events, j) && (JobOf(last) != Some(j) || !Enabled(Run(Initial, events), last))
    ensures History(events + [last], j)
  {
    var s := Run(Initial, events);
    Longer(events, last);
    if Enabled(s, last) {
      if JobOf(last).Some? {
        JobChanges(s, last);
      } else {
        SessionChanges(s, last);
      }
    }
    SameSoFar(events, last, j, if j in s.jobs then s.jobs[j].kind else Remake(false));
  }

  /** What was so stays so when the job neither hears of its plan nor ends its work. */
  lemma SameSoFar(events: seq<Event>, last: Event, j: JobId, kind: Kind)
    requires (last != WorkEnds(j) && !(last.Plans? && last.job == j)) || !Enabled(Run(Initial, events), last)
    ensures forall replacing :: Did(events + [last], Plans(j, replacing)) <==> Did(events, Plans(j, replacing))
    ensures Ended(events, j, kind) ==> Ended(events + [last], j, kind)
  {
    forall replacing ensures Did(events + [last], Plans(j, replacing)) <==> Did(events, Plans(j, replacing)) {
      DidStays(events, last, Plans(j, replacing));
    }
    DidStays(events, last, WorkEnds(j));
    if FoundSomebody(events, j) {
      FoundStays(events, last, j);
    }
  }

  lemma AsksHistory(events: seq<Event>, j: JobId, kind: Kind, venv: Venv)
    requires History(events, j) && Enabled(Run(Initial, events), Asks(j, kind, venv))
    ensures History(events + [Asks(j, kind, venv)], j)
  {
    Longer(events, Asks(j, kind, venv));
    SameSoFar(events, Asks(j, kind, venv), j, kind);
  }

  lemma LocksHistory(events: seq<Event>, j: JobId)
    requires History(events, j) && Enabled(Run(Initial, events), Locks(j))
    ensures History(events + [Locks(j)], j)
  {
    Longer(events, Locks(j));
    SameSoFar(events, Locks(j), j, Run(Initial, events).jobs[j].kind);
  }

  lemma FindsHistory(events: seq<Event>, j: JobId)
    requires History(events, j) && Enabled(Run(Initial, events), FindsEnvironment(j))
    ensures History(events + [FindsEnvironment(j)], j)
  {
    Longer(events, FindsEnvironment(j));
    SameSoFar(events, FindsEnvironment(j), j, Run(Initial, events).jobs[j].kind);
  }

  lemma SleepEndsHistory(events: seq<Event>, j: JobId)
    requires History(events, j) && Enabled(Run(Initial, events), SleepEnds(j))
    ensures History(events + [SleepEnds(j)], j)
  {
    Longer(events, SleepEnds(j));
    SameSoFar(events, SleepEnds(j), j, Run(Initial, events).jobs[j].kind);
  }

  lemma UnlocksHistory(events: seq<Event>, j: JobId)
    requires History(events, j) && Enabled(Run(Initial, events), Unlocks(j))
    ensures History(events + [Unlocks(j)], j)
  {
    Longer(events, Unlocks(j));
    SameSoFar(events, Unlocks(j), j, Run(Initial, events).jobs[j].kind);
  }

  lemma PlansHistory(events: seq<Event>, j: JobId, replacing: Option<nat>)
    requires History(events, j) && Enabled(Run(Initial, events), Plans(j, replacing))
    ensures History(events + [Plans(j, replacing)], j)
  {
    var last := Plans(j, replacing);
    Longer(events, last);
    DidStays(events, last, Plans(j, Some(0)));
    DidStays(events, last, last);
  }

  lemma LooksTo(s: State, j: JobId)
    requires Enabled(s, Looks(j))
    ensures var u, at := AfterLooking(s, j).jobs, s.jobs[j].at;
            j in u
            && u[j] == s.jobs[j].(at := if at.using == {} then Working(Some(at.hold), true) else Without(s.jobs[j]))
  {
    if s.jobs[j].at.using != {} {
      LooksAway(s, j);
    }
  }

  lemma LooksAway(s: State, j: JobId)
    requires Enabled(s, Looks(j)) && s.jobs[j].at.using != {}
    ensures AfterLooking(s, j) == SetAt(Release(s, s.jobs[j].venv, s.jobs[j].at.hold), j, Without(s.jobs[j]))
  {
    match s.jobs[j].kind
    case Remake(_) =>
    case Install(_) => assert s.jobs[j].at.replacing.None? || s.jobs[j].at.replacing.Some?;
  }

  /** A job works after its look exactly when that found nobody, and then under the hold it took before. */
  lemma WorksIffNobodyFound(events: seq<Event>, j: JobId)
    requires Enabled(Run(Initial, events), Looks(j))
    ensures var s, t := Run(Initial, events), Run(Initial, events + [Looks(j)]);
            && j in t.jobs
            && (t.jobs[j].at.Working? <==> s.jobs[j].at.using == {})
            && (t.jobs[j].at.Working? ==> t.jobs[j].at == Working(Some(s.jobs[j].at.hold), true) && t.holds == s.holds)
  {
    Longer(events, Looks(j));
    LooksTo(Run(Initial, events), j);
  }

  lemma LooksHistory(events: seq<Event>, j: JobId)
    requires History(events, j) && Enabled(Run(Initial, events), Looks(j))
    ensures History(events + [Looks(j)], j)
  {
    var s, last := Run(Initial, events), Looks(j);
    var at := s.jobs[j].at;
    Longer(events, last);
    LooksTo(s, j);
    DidStays(events, last, Plans(j, Some(0)));
    DidStays(events, last, Plans(j, at.replacing));
    if at.using != {} && at.replacing.Some? {
      assert (events + [last])[..|events|] == events;
      assert FoundAt(events + [last], |events|, j);
    }
  }

  lemma WorkEndsHistory(events: seq<Event>, j: JobId)
    requires History(events, j) && Enabled(Run(Initial, events), WorkEnds(j))
    ensures History(events + [WorkEnds(j)], j)
  {
    Longer(events, WorkEnds(j));
    DidStays(events, WorkEnds(j), WorkEnds(j));
  }

  /** In every run each job is where it is for its reason. */
  lemma {:induction false} EveryJobHasItsReason(events: seq<Event>, j: JobId)
    ensures History(events, j)
    decreases |events|
  {
    if events != [] {
      var init, last := events[..|events| - 1], events[|events| - 1];
      EveryJobHasItsReason(init, j);
      assert events == init + [last];
      if JobOf(last) != Some(j) || !Enabled(Run(Initial, init), last) {
        OthersHistory(init, last, j);
      } else {
        match last
        case Plans(_, replacing) => PlansHistory(init, j, replacing);
        case Looks(_) => LooksHistory(init, j);
        case WorkEnds(_) => WorkEndsHistory(init, j);
        case Asks(_, kind, venv) => AsksHistory(init, j, kind, venv);
        case Locks(_) => LocksHistory(init, j);
        case FindsEnvironment(_) => FindsHistory(init, j);
        case SleepEnds(_) => SleepEndsHistory(init, j);
        case Unlocks(_) => UnlocksHistory(init, j);
      }
    }
  }

  // ----- how a session comes to start -----

  /** Whether the session's environment is held. */
  predicate Held(s: State, id: SessionId)
    requires id in s.venvOf
  {
    s.venvOf[id].Some? && s.venvOf[id].value in s.holds
  }

  /**
   Why a session is where it is: it is rejected only if the supervisor or its kernel failed it, and waits
   on a hold only if that stood when it looked last.
   */
  ghost predicate SessionCameThere(events: seq<Event>, id: SessionId) {
    var s := Run(Initial, events);
    id in s.at ==>
      && id in s.venvOf && Did(events, Requests(id, s.venvOf[id]))
      && (s.at[id] == Rejected ==> Did(events, CreateFails(id)) || Did(events, ReadyFails(id)))
      && (s.at[id] == Connecting || s.at[id] == Returned ==> Did(events, Creates(id)))
      && (s.at[id] == Returned ==> Did(events, BecomesReady(id)))
      && (s.at[id].Waiting? ==> WaitsSince(events, id, s.at[id].hold))
  }

  predicate LookedAt(events: seq<Event>, i: nat, id: SessionId, hold: HoldId) {
    && i < |events| && (DoesAt(events, i, Discovers(id)) || DoesAt(events, i, Wakes(id)))
    && var s := Run(Initial, events[..i]);
       id in s.venvOf && Held(s, id) && s.holds[s.venvOf[id].value] == hold
  }

  ghost predicate WaitsSince(events: seq<Event>, id: SessionId, hold: HoldId) {
    exists i: nat :: LookedAt(events, i, id, hold)
  }

  lemma WaitsOn(events: seq<Event>, last: Event, id: SessionId, hold: HoldId)
    requires WaitsSince(events, id, hold)
    ensures WaitsSince(events + [last], id, hold)
  {
    var i: nat :| LookedAt(events, i, id, hold);
    assert (events + [last])[..i] == events[..i];
    assert LookedAt(events + [last], i, id, hold);
  }

  function SessionOf(e: Event): Option<SessionId> {
    match e
    case Requests(id, _) => Some(id)
    case Discovers(id) => Some(id)
    case Wakes(id) => Some(id)
    case Creates(id) => Some(id)
    case CreateFails(id) => Some(id)
    case BecomesReady(id) => Some(id)
    case ReadyFails(id) => Some(id)
    case _ => None
  }

  lemma OthersLeaveSession(s: State, e: Event, id: SessionId)
    requires Enabled(s, e) && SessionOf(e) != Some(id)
    ensures var t := Do(s, e);
            && (id in t.at <==> id in s.at) && (id in s.at ==> t.at[id] == s.at[id])
            && (id in t.venvOf <==> id in s.venvOf) && (id in s.venvOf ==> t.venvOf[id] == s.venvOf[id])
  {
    if JobOf(e).Some? {
      JobLeavesSessions(s, e);
    }
  }

  /** Where its own step takes a session. */
  function PlaceAfter(s: State, e: Event): SessionAt {
    match e
    case Requests(_, _) => Discovering
    case Creates(_) => Connecting
    case BecomesReady(_) => Returned
    case Discovers(id) => AfterLook(s, id)
    case Wakes(id) => AfterLook(s, id)
    case _ => Rejected
  }

  function AfterLook(s: State, id: SessionId): SessionAt {
    if id in s.venvOf && Held(s, id) then Waiting(s.holds[s.venvOf[id].value]) else Starting
  }

  lemma SessionStep(s: State, e: Event, id: SessionId)
    requires Enabled(s, e) && SessionOf(e) == Some(id)
    ensures var t := Do(s, e);
            && id in t.at && t.at[id] == PlaceAfter(s, e) && id in t.venvOf
            && (if e.Requests? then t.venvOf[id] == e.library else id in s.at && id in s.venvOf && t.venvOf == s.venvOf)
  {
  }

  /** What had happened has happened. */
  lemma StillDid(events: seq<Event>, last: Event, e: Event)
    ensures Did(events, e) ==> Did(events + [last], e)
    ensures Enabled(Run(Initial, events), last) ==> Did(events + [last], last)
  {
    DidStays(events, last, e);
    DidStays(events, last, last);
  }

  lemma OtherCame(events: seq<Event>, e: Event, id: SessionId)
    requires SessionCameThere(events, id) && (!Enabled(Run(Initial, events), e) || SessionOf(e) != Some(id))
    ensures SessionCameThere(events + [e], id)
  {
    var s, t := Run(Initial, events), Run(Initial, events + [e]);
    Longer(events, e);
    if Enabled(s, e) {
      OthersLeaveSession(s, e, id);
    }
    if id in t.at {
      StillDid(events, e, Requests(id, t.venvOf[id]));
      StillDid(events, e, CreateFails(id));
      StillDid(events, e, ReadyFails(id));
      StillDid(events, e, Creates(id));
      StillDid(events, e, BecomesReady(id));
      if t.at[id].Waiting? {
        WaitsOn(events, e, id, t.at[id].hold);
      }
    }
  }

  lemma OwnCame(events: seq<Event>, e: Event, id: SessionId)
    requires SessionCameThere(events, id) && Enabled(Run(Initial, events), e) && SessionOf(e) == Some(id)
    ensures SessionCameThere(events + [e], id)
  {
    var s, t := Run(Initial, events), Run(Initial, events + [e]);
    Longer(events, e);
    SessionStep(s, e, id);
    StillDid(events, e, Requests(id, t.venvOf[id]));
    StillDid(events, e, Creates(id));
    if t.at[id].Waiting? {
      assert (events + [e])[..|events|] == events;
      assert LookedAt(events + [e], |events|, id, t.at[id].hold);
    }
  }

  lemma SessionCame(events: seq<Event>, e: Event, id: SessionId)
    requires SessionCameThere(events, id)
    ensures SessionCameThere(events + [e], id)
  {
    if Enabled(Run(Initial, events), e) && SessionOf(e) == Some(id) {
      OwnCame(events, e, id);
    } else {
      OtherCame(events, e, id);
    }
  }

  /** In every run each session is where it is for its reason. */
  lemma {:induction false} EverySessionHasItsReason(events: seq<Event>, id: SessionId)
    ensures SessionCameThere(events, id)
    decreases |events|
  {
    if events != [] {
      var init, e := events[..|events| - 1], events[|events| - 1];
      EverySessionHasItsReason(init, id);
      SessionCame(init, e, id);
      assert events == init + [e];
    }
  }

  /** A session that looks starts exactly when nobody holds its environment. */
  lemma StartsUnlessHeld(events: seq<Event>, e: Event, id: SessionId)
    requires (e == Discovers(id) || e == Wakes(id)) && Enabled(Run(Initial, events), e)
    ensures var s, t := Run(Initial, events), Run(Initial, events + [e]);
            id in t.at && (t.at[id] == Starting <==> !Held(s, id))
  {
    Longer(events, e);
    SessionStep(Run(Initial, events), e, id);
  }

  lemma JobsStopNobody(s: State, e: Event)
    requires Enabled(s, e) && JobOf(e).Some?
    ensures Do(s, e).stopped == s.stopped
  {
    if e.Looks? && s.jobs[e.job].at.using != {} {
      LooksAway(s, e.job);
    }
  }

  /** A session is stopped exactly if it was: then, and not before, its environment is free of it. */
  lemma {:induction false} StoppedIffStops(events: seq<Event>, id: SessionId)
    ensures id in Run(Initial, events).stopped <==> Did(events, Stops(id))
    decreases |events|
  {
    if events != [] {
      var init, e := events[..|events| - 1], events[|events| - 1];
      StoppedIffStops(init, id);
      DidStays(init, e, Stops(id));
      assert events == init + [e];
      if Enabled(Run(Initial, init), e) && JobOf(e).Some? {
        JobsStopNobody(Run(Initial, init), e);
      }
    }
  }

  // ----- who has the library lock -----

  predicate HasLock(job: Job) {
    job.kind.Install? && job.at != Asked && job.at != Over
  }

  /** The lock of an environment is taken exactly while an install is between asking for it and giving it back. */
  ghost predicate LocksStand(s: State) {
    && (forall j :: j in s.jobs && HasLock(s.jobs[j]) ==> s.jobs[j].venv in s.locks && s.locks[s.jobs[j].venv] == j)
    && (forall v :: v in s.locks ==>
          s.locks[v] in s.jobs && s.jobs[s.locks[v]].venv == v && HasLock(s.jobs[s.locks[v]]))
  }

  /** A step that leaves the locks alone, and every job with or without its lock. */
  lemma SameLocks(s: State, t: State)
    requires LocksStand(s) && t.locks == s.locks
    requires forall j :: j in s.jobs ==>
               j in t.jobs && t.jobs[j].venv == s.jobs[j].venv && HasLock(t.jobs[j]) == HasLock(s.jobs[j])
    requires forall j :: j in t.jobs && j !in s.jobs ==> !HasLock(t.jobs[j])
    ensures LocksStand(t)
  {
  }

  lemma OneMovesOn(s: State, t: State, j: JobId)
    requires LocksStand(s) && t.locks == s.locks && j in s.jobs && j in t.jobs && t.jobs == s.jobs[j := t.jobs[j]]
    requires t.jobs[j].venv == s.jobs[j].venv && HasLock(t.jobs[j]) == HasLock(s.jobs[j])
    ensures LocksStand(t)
  {
    SameLocks(s, t);
  }

  lemma LooksKeepsLocks(s: State, j: JobId)
    requires LocksStand(s) && Enabled(s, Looks(j))
    ensures LocksStand(AfterLooking(s, j))
  {
    if s.jobs[j].at.using != {} {
      LooksAway(s, j);
    }
    OneMovesOn(s, AfterLooking(s, j), j);
  }

  lemma LockTaken(s: State, t: State, j: JobId)
    requires LocksStand(s) && j in s.jobs && !HasLock(s.jobs[j]) && s.jobs[j].venv !in s.locks
    requires j in t.jobs && t.jobs == s.jobs[j := t.jobs[j]] && t.jobs[j].venv == s.jobs[j].venv && HasLock(t.jobs[j])
    requires t.locks == s.locks[s.jobs[j].venv := j]
    ensures LocksStand(t)
  {
  }

  lemma LockGivenBack(s: State, t: State, j: JobId)
    requires LocksStand(s) && j in s.jobs && HasLock(s.jobs[j])
    requires j in t.jobs && t.jobs == s.jobs[j := t.jobs[j]] && t.jobs[j].venv == s.jobs[j].venv && !HasLock(t.jobs[j])
    requires t.locks == s.locks - {s.jobs[j].venv}
    ensures LocksStand(t)
  {
  }

  lemma LocksKeepsLocks(s: State, j: JobId)
    requires LocksStand(s) && Enabled(s, Locks(j))
    ensures LocksStand(Do(s, Locks(j)))
  {
    LockTaken(s, Do(s, Locks(j)), j);
  }

  lemma WorkKeepsLocks(s: State, j: JobId)
    requires LocksStand(s) && Enabled(s, WorkEnds(j))
    ensures LocksStand(Finish(s, j))
  {
    OneMovesOn(s, Finish(s, j), j);
  }

  lemma PlansKeepsLocks(s: State, j: JobId, replacing: Option<nat>)
    requires LocksStand(s) && Enabled(s, Plans(j, replacing))
    ensures LocksStand(Do(s, Plans(j, replacing)))
  {
    OneMovesOn(s, Do(s, Plans(j, replacing)), j);
  }

  lemma HoldKeepsLocks(s: State, e: Event, j: JobId)
    requires LocksStand(s) && Enabled(s, e) && (e == SleepEnds(j) || e == FindsEnvironment(j))
    ensures LocksStand(Do(s, e))
  {
    OneMovesOn(s, Do(s, e), j);
  }

  lemma StepKeepsLocks(s: State, e: Event)
    requires LocksStand(s)
    requires e.Unlocks? && e.job in s.jobs && s.jobs[e.job].at == Leaving ==> s.jobs[e.job].kind.Install?
    ensures LocksStand(Step(s, e))
  {
    if Enabled(s, e) {
      match e
      case Asks(j, kind, venv) => SameLocks(s, Do(s, e));
      case Locks(j) => LocksKeepsLocks(s, j);
      case Unlocks(j) => LockGivenBack(s, Do(s, e), j);
      case Looks(j) => LooksKeepsLocks(s, j);
      case WorkEnds(j) => WorkKeepsLocks(s, j);
      case Plans(j, replacing) => PlansKeepsLocks(s, j, replacing);
      case SleepEnds(j) => HoldKeepsLocks(s, e, j);
      case FindsEnvironment(j) => HoldKeepsLocks(s, e, j);
      case _ =>
        SessionChanges(s, e);
        SessionLeavesLocks(s, e);
        SameLocks(s, Do(s, e));
    }
  }

  lemma SessionLeavesLocks(s: State, e: Event)
    requires Enabled(s, e) && JobOf(e).None?
    ensures Do(s, e).locks == s.locks
  {
  }

  /** In every run: one install at a time has an environment's lock, and gives it back. */
  lemma {:induction false} LockedWhileWorking(events: seq<Event>)
    ensures LocksStand(Run(Initial, events))
    decreases |events|
  {
    if events != [] {
      var init, e := events[..|events| - 1], events[|events| - 1];
      LockedWhileWorking(init);
      if e.Unlocks? {
        EveryJobHasItsReason(init, e.job);
      }
      StepKeepsLocks(Run(Initial, init), e);
    }
  }
}
