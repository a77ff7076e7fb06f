/**
 What comes of a hold taken over another one (lib/session/session-manager.ts keeps one hold per
 environment; ensurePythonEnvironmentIn() in lib/session/python-packages.ts takes one without the
 library lock): exactly when a session can then slip into the middle of work that may replace what it
 has loaded, and that nothing else can go wrong.
 */
module HoldOverlaps {
  import opened Wrappers
  import opened HoldProtocol
  import F = Folds

  /**
   The job counts on its hold: it has looked and found nobody, or works on what it may replace. Other
   holders (found somebody and about to give the hold back; making a missing environment) do not.
   */
  predicate Counts(job: Job) {
    (job.at.Looked? && job.at.using == {}) || (job.at.Working? && job.at.held.Some? && job.at.mayReplace)
  }

  /** Taking the hold would take it from a job that counts on it. */
  ghost predicate Disturbs(s: State, e: Event)
    requires Enabled(s, e) && Holds(s, e).Some?
  {
    exists j :: j in s.jobs && s.jobs[j].venv == Holds(s, e).value && Counts(s.jobs[j])
  }

  /** The job works on what sessions may have loaded, and was not told to proceed all the same. */
  predicate CouldDisturb(job: Job) {
    job.at.Working? && job.at.mayReplace && job.kind != Install(Proceed)
  }

  /** No session is on an environment in the middle of work that should have waited for it. */
  ghost predicate NobodyDisturbed(s: State) {
    forall j, id :: j in s.jobs && CouldDisturb(s.jobs[j]) && id in s.at ==> !Uses(s, id, s.jobs[j].venv)
  }

  lemma SafeDisturbsNobody(s: State)
    requires Safe(s)
    ensures NobodyDisturbed(s)
  {
    forall j | j in s.jobs && CouldDisturb(s.jobs[j])
      ensures forall id :: id in s.at ==> !Uses(s, id, s.jobs[j].venv)
    {
      assert SafeJob(s, s.jobs[j]);
    }
  }

  // ----- a job that loses a hold it does not count on -----

  /** Where the job is once it has given its hold back. */
  function Without(job: Job): JobAt {
    match job.at
    case Looked(_, _, replacing) =>
      (match job.kind
       case Remake(_) => Sleeping(0)
       case Install(whenInUse) =>
         if replacing.None? then Planning else if whenInUse == Defer then Leaving else Sleeping(replacing.value))
    case Working(_, mayReplace) => Working(None, mayReplace)
    case at => at
  }

  /** The job gives its hold back, if that still stands. */
  function Yield(s: State, j: JobId): State
    requires j in s.jobs && HoldOf(s.jobs[j]).Some?
  {
    SetAt(Release(s, s.jobs[j].venv, HoldOf(s.jobs[j]).value), j, Without(s.jobs[j]))
  }

  lemma YieldInv(s: State, j: JobId)
    requires Inv(s) && j in s.jobs && HoldOf(s.jobs[j]).Some? && !Counts(s.jobs[j])
    ensures Inv(Yield(s, j)) && s.jobs[j].venv !in Yield(s, j).holds
  {
    ReleaseInv(s, j, Without(s.jobs[j]));
  }

  /** The hold of job `j` was taken over; without it, all would be well. */
  ghost predicate Lost(t: State, j: JobId) {
    && j in t.jobs && HoldOf(t.jobs[j]).Some? && !Counts(t.jobs[j])
    && HoldOf(t.jobs[j]).value < t.nextHold
    && !(t.jobs[j].venv in t.holds && t.holds[t.jobs[j].venv] == HoldOf(t.jobs[j]).value)
    && Inv(Yield(t, j))
  }

  function JobOf(e: Event): Option<JobId> {
    match e
    case Asks(j, _, _) => Some(j)
    case Locks(j) => Some(j)
    case FindsEnvironment(j) => Some(j)
    case Looks(j) => Some(j)
    case Plans(j, _) => Some(j)
    case SleepEnds(j) => Some(j)
    case WorkEnds(j) => Some(j)
    case Unlocks(j) => Some(j)
    case _ => None
  }

  lemma JobsCommute(jobs: map<JobId, Job>, j: JobId, a: Job, k: JobId, b: Job)
    requires j != k
    ensures jobs[j := a][k := b] == jobs[k := b][j := a]
  {
  }

  /** Taking a hold and giving back the one it takes over commute. */
  lemma HoldAndYield(s: State, j: JobId, k: JobId, at: JobAt)
    requires Fresh(s) && j in s.jobs && k in s.jobs && j != k && HoldOf(s.jobs[j]).Some?
    requires s.jobs[j].venv == s.jobs[k].venv && s.jobs[j].venv in s.holds
    requires s.holds[s.jobs[j].venv] == HoldOf(s.jobs[j]).value
    ensures Yield(SetAt(Hold(s, s.jobs[k].venv), k, at), j) == SetAt(Hold(Yield(s, j), s.jobs[k].venv), k, at)
    ensures HoldOf(s.jobs[j]).value < s.nextHold
  {
    var a, b := s.jobs[j].(at := Without(s.jobs[j])), s.jobs[k].(at := at);
    JobsCommute(s.jobs, j, a, k, b);
    assert (s.holds - {s.jobs[j].venv})[s.jobs[j].venv := s.nextHold] == s.holds[s.jobs[j].venv := s.nextHold];
  }

  lemma LookAndYield(s: State, j: JobId, k: JobId, replacing: Option<nat>)
    requires Fresh(s) && j in s.jobs && k in s.jobs && j != k && HoldOf(s.jobs[j]).Some?
    requires s.jobs[j].venv == s.jobs[k].venv && s.jobs[j].venv in s.holds
    requires s.holds[s.jobs[j].venv] == HoldOf(s.jobs[j]).value
    ensures Yield(HoldAndLook(s, k, replacing), j) == HoldAndLook(Yield(s, j), k, replacing)
  {
    KeepsUsers(s, Yield(s, j));
    HoldAndYield(s, j, k, Looked(s.nextHold, SessionsUsing(s, s.jobs[k].venv), replacing));
  }

  lemma TakeAndYield(s: State, e: Event, j: JobId)
    requires Fresh(s) && Enabled(s, e) && Holds(s, e).Some?
    requires j in s.jobs && s.jobs[j].venv == Holds(s, e).value && HoldOf(s.jobs[j]).Some?
    requires s.jobs[j].venv in s.holds && s.holds[s.jobs[j].venv] == HoldOf(s.jobs[j]).value
    ensures Enabled(Yield(s, j), e) && Holds(Yield(s, j), e) == Holds(s, e)
    ensures j in Do(s, e).jobs && Do(s, e).jobs[j] == s.jobs[j]
    ensures Yield(Do(s, e), j) == Do(Yield(s, j), e)
  {
    match e
    case Locks(k) =>
      var locked := s.(locks := s.locks[s.jobs[k].venv := k]);
      LookAndYield(locked, j, k, None);
    case FindsEnvironment(k) =>
      if s.jobs[k].kind.other {
        LookAndYield(s, j, k, None);
      } else {
        HoldAndYield(s, j, k, Working(Some(s.nextHold), false));
      }
    case Plans(k, replacing) => LookAndYield(s, j, k, replacing);
    case SleepEnds(k) => LookAndYield(s, j, k, if s.jobs[k].kind.Remake? then None else Some(s.jobs[k].at.packages));
  }

  /** Whoever loses a hold without counting on it is then as if it had given that back before. */
  lemma TakesOver(s: State, e: Event, j: JobId)
    requires Inv(s) && Enabled(s, e) && Holds(s, e).Some?
    requires j in s.jobs && s.jobs[j].venv == Holds(s, e).value && HoldOf(s.jobs[j]).Some? && !Counts(s.jobs[j])
    ensures Lost(Do(s, e), j)
  {
    YieldInv(s, j);
    TakeAndYield(s, e, j);
    assert !Overlaps(Yield(s, j), e);
    StepInv(Yield(s, j), e);
    HeldAnew(s, e);
  }

  lemma HeldAnew(s: State, e: Event)
    requires Enabled(s, e) && Holds(s, e).Some?
    ensures var t, v := Do(s, e), Holds(s, e).value;
            v in t.holds && t.holds[v] == s.nextHold && t.nextHold == s.nextHold + 1
  {
  }

  // ----- and stays so until it notices -----

  /** The job still counts its hold as its own, but the environment is not held by it any more. */
  predicate Overtaken(t: State, j: JobId) {
    && j in t.jobs && HoldOf(t.jobs[j]).Some?
    && !(t.jobs[j].venv in t.holds && t.holds[t.jobs[j].venv] == HoldOf(t.jobs[j]).value)
  }

  /** Then giving it back changes the job's place, and that it is released. */
  function Noticed(t: State, j: JobId): State
    requires Overtaken(t, j)
  {
    t.(released := t.released + {HoldOf(t.jobs[j]).value}, jobs := t.jobs[j := t.jobs[j].(at := Without(t.jobs[j]))])
  }

  lemma YieldIsNotice(t: State, j: JobId)
    requires Overtaken(t, j)
    ensures Yield(t, j) == Noticed(t, j)
  {
  }

  /** A step of another job that ends in one change of its own place. */
  predicate Follows(t: State, u: State, j: JobId, hold: HoldId) {
    && j in t.jobs && j in u.jobs && u.released == t.released + {hold} && u.jobs == t.jobs[j := u.jobs[j]]
    && u == t.(released := u.released, jobs := u.jobs)
  }

  lemma MoveFollows(t: State, u: State, j: JobId, hold: HoldId, k: JobId, at: JobAt)
    requires Follows(t, u, j, hold) && k != j && k in t.jobs
    ensures k in u.jobs && u.jobs[k] == t.jobs[k]
    ensures Follows(SetAt(t, k, at), SetAt(u, k, at), j, hold) && SetAt(u, k, at).jobs[j] == u.jobs[j]
  {
    JobsCommute(t.jobs, j, u.jobs[j], k, t.jobs[k].(at := at));
  }

  lemma ReleaseFollows(t: State, u: State, j: JobId, hold: HoldId, venv: Venv, other: HoldId)
    requires Follows(t, u, j, hold)
    ensures Follows(Release(t, venv, other), Release(u, venv, other), j, hold)
  {
  }

  lemma HoldFollows(t: State, u: State, j: JobId, hold: HoldId, k: JobId, replacing: Option<nat>)
    requires Follows(t, u, j, hold) && k != j && k in t.jobs
    ensures k in u.jobs && Follows(HoldAndLook(t, k, replacing), HoldAndLook(u, k, replacing), j, hold)
    ensures HoldAndLook(u, k, replacing).jobs[j] == u.jobs[j]
  {
    KeepsUsers(t, u);
    MoveFollows(Hold(t, t.jobs[k].venv), Hold(u, t.jobs[k].venv), j, hold, k,
                Looked(t.nextHold, SessionsUsing(t, t.jobs[k].venv), replacing));
  }

  lemma LooksFollows(t: State, u: State, j: JobId, hold: HoldId, k: JobId)
    requires Follows(t, u, j, hold) && k != j && k in t.jobs && t.jobs[k].at.Looked?
    ensures k in u.jobs && u.jobs[k] == t.jobs[k]
    ensures Follows(AfterLooking(t, k), AfterLooking(u, k), j, hold) && AfterLooking(u, k).jobs[j] == u.jobs[j]
  {
    var at, venv := t.jobs[k].at, t.jobs[k].venv;
    ReleaseFollows(t, u, j, hold, venv, at.hold);
    MoveFollows(t, u, j, hold, k, Working(Some(at.hold), true));
    MoveFollows(Release(t, venv, at.hold), Release(u, venv, at.hold), j, hold, k, Without(t.jobs[k]));
  }

  lemma WorkEndsFollows(t: State, u: State, j: JobId, hold: HoldId, k: JobId)
    requires Follows(t, u, j, hold) && k != j && k in t.jobs && t.jobs[k].at.Working?
    ensures k in u.jobs && u.jobs[k] == t.jobs[k]
    ensures Follows(Finish(t, k), Finish(u, k), j, hold) && Finish(u, k).jobs[j] == u.jobs[j]
  {
    var held, next := t.jobs[k].at.held, if t.jobs[k].kind.Install? then Leaving else Over;
    MoveFollows(t, u, j, hold, k, next);
    if held.Some? {
      ReleaseFollows(t, u, j, hold, t.jobs[k].venv, held.value);
      MoveFollows(Release(t, t.jobs[k].venv, held.value), Release(u, t.jobs[k].venv, held.value), j, hold, k, next);
    }
  }

  lemma JobFollows(t: State, u: State, j: JobId, hold: HoldId, e: Event)
    requires Follows(t, u, j, hold) && Enabled(t, e) && JobOf(e).Some? && JobOf(e) != Some(j)
    ensures Enabled(u, e) && Holds(u, e) == Holds(t, e)
    ensures Follows(Do(t, e), Do(u, e), j, hold) && Do(u, e).jobs[j] == u.jobs[j]
  {
    match e
    case Asks(k, kind, venv) => JobsCommute(t.jobs, j, u.jobs[j], k, Job(kind, venv, Asked));
    case Locks(k) =>
      var l, m := t.(locks := t.locks[t.jobs[k].venv := k]), u.(locks := t.locks[t.jobs[k].venv := k]);
      MoveFollows(l, m, j, hold, k, Working(None, true));
      HoldFollows(l, m, j, hold, k, None);
    case FindsEnvironment(k) =>
      HoldFollows(t, u, j, hold, k, None);
      MoveFollows(Hold(t, t.jobs[k].venv), Hold(u, t.jobs[k].venv), j, hold, k, Working(Some(t.nextHold), false));
    case Looks(k) => LooksFollows(t, u, j, hold, k);
    case Plans(k, replacing) =>
      MoveFollows(t, u, j, hold, k, Leaving);
      MoveFollows(t, u, j, hold, k, Working(None, false));
      HoldFollows(t, u, j, hold, k, replacing);
    case SleepEnds(k) =>
      HoldFollows(t, u, j, hold, k, if t.jobs[k].kind.Remake? then None else Some(t.jobs[k].at.packages));
    case WorkEnds(k) => WorkEndsFollows(t, u, j, hold, k);
    case Unlocks(k) =>
      MoveFollows(t.(locks := t.locks - {t.jobs[k].venv}), u.(locks := t.locks - {t.jobs[k].venv}), j, hold, k, Over);
  }

  lemma LookFollows(t: State, u: State, j: JobId, hold: HoldId, id: SessionId)
    requires Follows(t, u, j, hold) && id in t.venvOf
    ensures Follows(LookAtHold(t, id), LookAtHold(u, id), j, hold) && LookAtHold(u, id).jobs[j] == u.jobs[j]
  {
  }

  lemma SessionFollows(t: State, u: State, j: JobId, hold: HoldId, e: Event)
    requires Follows(t, u, j, hold) && Enabled(t, e) && JobOf(e).None?
    ensures Enabled(u, e) && Holds(u, e) == Holds(t, e)
    ensures Follows(Do(t, e), Do(u, e), j, hold) && Do(u, e).jobs[j] == u.jobs[j]
  {
    match e
    case Discovers(id) => LookFollows(t, u, j, hold, id);
    case Wakes(id) => LookFollows(t, u, j, hold, id);
    case _ =>
  }

  /** Every hold of `u` stood in `t` already, or is new. */
  predicate HoldsGrow(t: State, u: State) {
    && t.nextHold <= u.nextHold
    && forall v :: v in u.holds ==> (v in t.holds && u.holds[v] == t.holds[v]) || u.holds[v] == t.nextHold
  }

  /** Only `k` moved, or appeared. */
  predicate OnlyMoves(t: State, u: State, k: JobId) {
    && k in u.jobs && u.jobs == t.jobs[k := u.jobs[k]]
    && (k in t.jobs ==> u.jobs[k].kind == t.jobs[k].kind)
  }

  lemma TakeChanges(t: State, e: Event)
    requires Enabled(t, e) && Holds(t, e).Some?
    ensures HoldsGrow(t, Do(t, e)) && OnlyMoves(t, Do(t, e), JobOf(e).value)
  {
    HeldAnew(t, e);
  }

  lemma LooksChanges(t: State, k: JobId)
    requires Enabled(t, Looks(k))
    ensures HoldsGrow(t, AfterLooking(t, k)) && OnlyMoves(t, AfterLooking(t, k), k)
  {
  }

  lemma JobChanges(t: State, e: Event)
    requires Enabled(t, e) && JobOf(e).Some?
    ensures HoldsGrow(t, Do(t, e)) && OnlyMoves(t, Do(t, e), JobOf(e).value)
  {
    if Holds(t, e).Some? {
      TakeChanges(t, e);
    } else if e.Looks? {
      LooksChanges(t, e.job);
    }
  }

  lemma SessionChanges(t: State, e: Event)
    requires Enabled(t, e) && JobOf(e).None?
    ensures Do(t, e).jobs == t.jobs && Do(t, e).holds == t.holds && Do(t, e).nextHold == t.nextHold
  {
  }

  /** No step gives an environment back to a hold that it was taken from. */
  lemma StaysOvertaken(t: State, e: Event, j: JobId)
    requires Overtaken(t, j) && Enabled(t, e) && JobOf(e) != Some(j) && HoldOf(t.jobs[j]).value < t.nextHold
    ensures var u := Do(t, e);
            Overtaken(u, j) && u.jobs[j] == t.jobs[j] && t.nextHold <= u.nextHold
  {
    if JobOf(e).Some? {
      JobChanges(t, e);
    } else {
      SessionChanges(t, e);
    }
  }

  /** Another's step, the hold being lost already. */
  lemma OthersAndYield(t: State, e: Event, j: JobId)
    requires Lost(t, j) && Enabled(t, e) && JobOf(e) != Some(j)
    ensures Enabled(Yield(t, j), e) && Holds(Yield(t, j), e) == Holds(t, e)
    ensures Overtaken(Do(t, e), j) && Do(t, e).jobs[j] == t.jobs[j] && t.nextHold <= Do(t, e).nextHold
    ensures Yield(Do(t, e), j) == Do(Yield(t, j), e)
  {
    var u, hold := Yield(t, j), HoldOf(t.jobs[j]).value;
    YieldIsNotice(t, j);
    StaysOvertaken(t, e, j);
    YieldIsNotice(Do(t, e), j);
    assert Follows(t, u, j, hold);
    if JobOf(e).Some? {
      JobFollows(t, u, j, hold, e);
    } else {
      SessionFollows(t, u, j, hold, e);
    }
  }

  lemma StepLost(t: State, e: Event, j: JobId)
    requires Lost(t, j) && !Overlaps(t, e)
    ensures Lost(Step(t, e), j) || Inv(Step(t, e))
  {
    if Enabled(t, e) {
      if JobOf(e) != Some(j) {
        OthersAndYield(t, e, j);
        StepInv(Yield(t, j), e);
      } else if e.Looks? {
        assert Do(t, e) == Yield(t, j);
      } else {
        assert e == WorkEnds(j);
        assert Do(t, e) == Do(Yield(t, j), e);
        StepInv(Yield(t, j), e);
      }
    }
  }

  lemma LostIsSafe(t: State, j: JobId)
    requires Lost(t, j)
    ensures Safe(t)
  {
    var u := Yield(t, j);
    YieldIsNotice(t, j);
    InvIsSafe(u);
    KeepsUsers(t, u);
    forall k | k in t.jobs && t.jobs[k].at.Working? ensures SafeJob(t, t.jobs[k]) {
      if k != j {
        assert u.jobs[k] == t.jobs[k] && SafeJob(u, u.jobs[k]);
      }
    }
  }

  lemma {:induction false} RunLost(t: State, more: seq<Event>, j: JobId)
    requires (Lost(t, j) || Inv(t)) && NeverOverlaps(t, more)
    ensures Lost(Run(t, more), j) || Inv(Run(t, more))
    decreases |more|
  {
    if more != [] {
      var before, last := more[..|more| - 1], more[|more| - 1];
      forall i | 0 <= i < |before| ensures !Overlaps(Run(t, before[..i]), before[i]) {
        assert before[..i] == more[..i];
      }
      RunLost(t, before, j);
      assert !Overlaps(Run(t, before), last);
      if Inv(Run(t, before)) {
        StepInv(Run(t, before), last);
      } else {
        StepLost(Run(t, before), last, j);
      }
    }
  }

  /** Taking a hold, over another one or not, from nobody who counts on it: everything stays safe. */
  lemma UndisturbedIsSafe(s: State, e: Event, more: seq<Event>)
    requires Inv(s) && Enabled(s, e) && Holds(s, e).Some? && !Disturbs(s, e)
    requires NeverOverlaps(Step(s, e), more)
    ensures Safe(Run(Step(s, e), more))
  {
    var v, t := Holds(s, e).value, Step(s, e);
    var j := 0;
    if v in s.holds {
      j :| j in s.jobs && s.jobs[j].venv == v && HoldOf(s.jobs[j]) == Some(s.holds[v]);
      TakesOver(s, e, j);
    } else {
      StepInv(s, e);
    }
    RunLost(t, more, j);
    if Inv(Run(t, more)) {
      InvIsSafe(Run(t, more));
    } else {
      LostIsSafe(Run(t, more), j);
    }
  }

  // ----- a job that counts on the hold it loses -----

  /** Jobs told to proceed never hold an environment. */
  ghost predicate ProceedHoldsNothing(s: State) {
    forall j :: j in s.jobs && s.jobs[j].kind == Install(Proceed) ==> HoldsNothing(s.jobs[j])
  }

  lemma {:induction false} RunProceeds(events: seq<Event>)
    ensures ProceedHoldsNothing(Run(Initial, events))
  {
    if events != [] {
      RunProceeds(events[..|events| - 1]);
      StepProceeds(Run(Initial, events[..|events| - 1]), events[|events| - 1]);
    }
  }

  predicate HoldsNothing(job: Job) {
    job.at == Asked || job.at == Leaving || job.at == Over || (job.at.Working? && job.at.held.None?)
  }

  lemma OwnStepProceeds(s: State, e: Event, j: JobId)
    requires Enabled(s, e) && JobOf(e) == Some(j) && j in s.jobs
    requires s.jobs[j].kind == Install(Proceed) && HoldsNothing(s.jobs[j])
    ensures j in Do(s, e).jobs && HoldsNothing(Do(s, e).jobs[j])
  {
    assert e == Locks(j) || e == WorkEnds(j) || e == Unlocks(j);
  }

  lemma StepProceeds(s: State, e: Event)
    requires ProceedHoldsNothing(s)
    ensures ProceedHoldsNothing(Step(s, e))
  {
    if Enabled(s, e) {
      if JobOf(e).None? {
        SessionChanges(s, e);
      } else {
        var k := JobOf(e).value;
        JobChanges(s, e);
        if k !in s.jobs {
          assert Do(s, e).jobs[k].at == Asked;
        } else if s.jobs[k].kind == Install(Proceed) {
          OwnStepProceeds(s, e, k);
        }
      }
    }
  }

  /** Nobody uses an environment while a job counts on its hold of it. */
  lemma CountedAlone(s: State, j: JobId)
    requires Inv(s) && j in s.jobs && Counts(s.jobs[j])
    ensures SessionsUsing(s, s.jobs[j].venv) == {} && s.jobs[j].venv in s.holds
  {
    assert JobMissedNobody(s, s.jobs[j]);
  }

  /** The taker has the hold, and nobody to wait for. */
  predicate Taken(t: State, k: JobId, venv: Venv) {
    && k in t.jobs && t.jobs[k].venv == venv && venv in t.holds && HoldOf(t.jobs[k]) == Some(t.holds[venv])
    && ((t.jobs[k].at.Looked? && t.jobs[k].at.using == {}) || t.jobs[k].at.Working?)
  }

  lemma TakerHasIt(s: State, e: Event)
    requires Enabled(s, e) && Holds(s, e).Some? && SessionsUsing(s, Holds(s, e).value) == {}
    ensures Taken(Do(s, e), JobOf(e).value, Holds(s, e).value) && Do(s, e).at == s.at
  {
    if e.Locks? {
      KeepsUsers(s, s.(locks := s.locks[s.jobs[e.job].venv := e.job]));
    }
  }

  lemma TakesIt(s: State, e: Event, j: JobId)
    requires Inv(s) && Enabled(s, e) && Holds(s, e).Some?
    requires j in s.jobs && s.jobs[j].venv == Holds(s, e).value && Counts(s.jobs[j])
    ensures var k, t := JobOf(e).value, Do(s, e);
            && JobOf(e).Some? && k != j && Taken(t, k, s.jobs[j].venv)
            && j in t.jobs && t.jobs[j] == s.jobs[j] && t.at == s.at
  {
    CountedAlone(s, j);
    TakerHasIt(s, e);
    TakeChanges(s, e);
  }

  lemma TakerLooks(t: State, k: JobId, venv: Venv)
    requires Taken(t, k, venv)
    ensures var u := Step(t, Looks(k));
            && Taken(u, k, venv) && u.jobs[k].at.Working? && u.at == t.at && u.jobs == t.jobs[k := u.jobs[k]]
  {
  }

  lemma TakerWorks(t: State, k: JobId, venv: Venv)
    requires Taken(t, k, venv) && t.jobs[k].at.Working?
    ensures var u := Step(t, WorkEnds(k));
            && k in u.jobs && venv !in u.holds && u.at == t.at && u.jobs == t.jobs[k := u.jobs[k]]
  {
  }

  /** The taker looks and works, and gives the environment back. */
  lemma TakerEnds(t: State, k: JobId, j: JobId)
    requires j in t.jobs && k != j && Taken(t, k, t.jobs[j].venv)
    ensures var u := Step(Step(t, Looks(k)), WorkEnds(k));
            j in u.jobs && u.jobs[j] == t.jobs[j] && u.at == t.at && t.jobs[j].venv !in u.holds
  {
    TakerLooks(t, k, t.jobs[j].venv);
    TakerWorks(Step(t, Looks(k)), k, t.jobs[j].venv);
  }

  /** The job it was taken from comes to work, if it does not yet. */
  lemma CountsOn(u: State, j: JobId)
    requires j in u.jobs && Counts(u.jobs[j]) && u.jobs[j].kind != Install(Proceed)
    ensures var w := Step(u, Looks(j));
            && j in w.jobs && w.jobs[j].venv == u.jobs[j].venv && w.jobs[j].kind == u.jobs[j].kind
            && w.jobs[j].at.Working? && w.jobs[j].at.mayReplace && w.at == u.at && w.holds == u.holds
  {
  }

  /** And a session starts on the environment. */
  lemma SlipsIn(w: State, j: JobId, id: SessionId)
    requires j in w.jobs && w.jobs[j].venv !in w.holds && id !in w.at
    requires w.jobs[j].kind != Install(Proceed) && w.jobs[j].at.Working? && w.jobs[j].at.mayReplace
    ensures !NobodyDisturbed(Step(Step(w, Requests(id, Some(w.jobs[j].venv))), Discovers(id)))
  {
    var x := Step(Step(w, Requests(id, Some(w.jobs[j].venv))), Discovers(id));
    assert Uses(x, id, w.jobs[j].venv);
    assert x.jobs[j] == w.jobs[j];
  }

  lemma RunFive(t: State, a: Event, b: Event, c: Event, d: Event, e: Event)
    ensures Run(t, [a, b, c, d, e]) == Step(Step(Step(Step(Step(t, a), b), c), d), e)
  {
    F.FoldOne(Step, t, a);
    F.FoldOneMore(Step, t, [a], b);
    assert [a] + [b] == [a, b];
    F.FoldOneMore(Step, t, [a, b], c);
    assert [a, b] + [c] == [a, b, c];
    F.FoldOneMore(Step, t, [a, b, c], d);
    assert [a, b, c] + [d] == [a, b, c, d];
    F.FoldOneMore(Step, t, [a, b, c, d], e);
    assert [a, b, c, d] + [e] == [a, b, c, d, e];
  }

  lemma TakesNoHold(t: State, more: seq<Event>)
    requires forall i :: 0 <= i < |more| ==>
               more[i].Looks? || more[i].WorkEnds? || more[i].Requests? || more[i].Discovers?
    ensures NeverOverlaps(t, more)
  {
  }

  /** The taker ends, the other job comes to work, a session starts. */
  function Slipping(k: JobId, j: JobId, id: SessionId, venv: Venv): seq<Event> {
    [Looks(k), WorkEnds(k), Looks(j), Requests(id, Some(venv)), Discovers(id)]
  }

  lemma SlippingDisturbs(t: State, k: JobId, j: JobId, id: SessionId)
    requires j in t.jobs && k != j && Taken(t, k, t.jobs[j].venv) && id !in t.at
    requires Counts(t.jobs[j]) && t.jobs[j].kind != Install(Proceed)
    ensures !NobodyDisturbed(Run(t, Slipping(k, j, id, t.jobs[j].venv)))
  {
    var v, u := t.jobs[j].venv, Step(Step(t, Looks(k)), WorkEnds(k));
    RunFive(t, Looks(k), WorkEnds(k), Looks(j), Requests(id, Some(v)), Discovers(id));
    TakerEnds(t, k, j);
    CountsOn(u, j);
    SlipsIn(Step(u, Looks(j)), j, id);
  }

  lemma TakerLetsASessionIn(t: State, k: JobId, j: JobId) returns (more: seq<Event>)
    requires j in t.jobs && k != j && Taken(t, k, t.jobs[j].venv)
    requires Counts(t.jobs[j]) && t.jobs[j].kind != Install(Proceed)
    ensures NeverOverlaps(t, more) && !NobodyDisturbed(Run(t, more))
  {
    var id := FreshId(t.at.Keys);
    more := Slipping(k, j, id, t.jobs[j].venv);
    TakesNoHold(t, more);
    SlippingDisturbs(t, k, j, id);
  }

  /** A hold taken from a job that counts on it: a session can start in the middle of that job's work. */
  lemma OverlapLetsASessionIn(s: State, e: Event) returns (more: seq<Event>)
    requires Inv(s) && ProceedHoldsNothing(s) && Enabled(s, e) && Holds(s, e).Some? && Disturbs(s, e)
    ensures Overlaps(s, e) && NeverOverlaps(Step(s, e), more) && !NobodyDisturbed(Run(Step(s, e), more))
  {
    var j :| j in s.jobs && s.jobs[j].venv == Holds(s, e).value && Counts(s.jobs[j]);
    more := TakingLetsASessionIn(s, e, j);
  }

  lemma TakingLetsASessionIn(s: State, e: Event, j: JobId) returns (more: seq<Event>)
    requires Inv(s) && ProceedHoldsNothing(s) && Enabled(s, e) && Holds(s, e).Some?
    requires j in s.jobs && s.jobs[j].venv == Holds(s, e).value && Counts(s.jobs[j])
    ensures Overlaps(s, e) && NeverOverlaps(Step(s, e), more) && !NobodyDisturbed(Run(Step(s, e), more))
  {
    CountedAlone(s, j);
    TakesIt(s, e, j);
    more := TakerLetsASessionIn(Do(s, e), JobOf(e).value, j);
  }

  /**
   After any run without overlaps, taking a hold keeps everything safe whatever follows exactly when
   no job on that environment counts on the hold it has; otherwise a session can come to be disturbed.
   */
  lemma TakingAHoldIsSafeIff(events: seq<Event>, e: Event)
    requires NeverOverlaps(Initial, events)
    requires Enabled(Run(Initial, events), e) && Holds(Run(Initial, events), e).Some?
    ensures var s, t := Run(Initial, events), Step(Run(Initial, events), e);
            && (!Disturbs(s, e) <==> forall more :: NeverOverlaps(t, more) ==> Safe(Run(t, more)))
            && (!Disturbs(s, e) <==> forall more :: NeverOverlaps(t, more) ==> NobodyDisturbed(Run(t, more)))
            && (Disturbs(s, e) ==> Overlaps(s, e))
  {
    var s := Run(Initial, events);
    var t := Step(s, e);
    RunInv(Initial, events);
    RunProceeds(events);
    if Disturbs(s, e) {
      var more := OverlapLetsASessionIn(s, e);
      if Safe(Run(t, more)) {
        SafeDisturbsNobody(Run(t, more));
      }
    } else {
      forall more | NeverOverlaps(t, more) ensures Safe(Run(t, more)) && NobodyDisturbed(Run(t, more)) {
        UndisturbedIsSafe(s, e, more);
        SafeDisturbsNobody(Run(t, more));
      }
    }
  }
}
