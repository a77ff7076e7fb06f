/**
 The lock file that gives a library to one installing process at a time (lockLibrary() in
 lib/session/r-packages.ts): create it, or read it, judge whether its owner is gone, move it aside,
 look at what was moved, and put it back if it is not what was judged. A step is one call on the
 file system; up to `n` processes are alive at a time, any of them may crash (but not between moving
 a lock aside and putting it back) and be followed by another, and a lock was left by a crash before.
 A live owner's lock is never judged gone or silent.
 */
module LibraryLock {
  import opened Wrappers

  /** The token in a lock file: a crashed install's of old, or that of one call of a process here. */
  datatype Token = Left | Of(p: nat, call: nat)

  datatype Pc =
    | Idle
    | Creating
    | Reading
    | Judging(text: Option<Token>)
    | Moving(text: Option<Token>)
    | Looking(text: Option<Token>, aside: Token)
    | Linking(aside: Token)
    | Dropping
    | Holding
    | Checking
    | Removing
    | Crashed

  datatype Process = Process(pc: Pc, call: nat)

  /** `discarded` is history: what takeovers moved aside and did not put back. */
  datatype State = State(lock: Option<Token>, procs: seq<Process>, discarded: set<Token>)

  /** `stale` is what the process makes of pid and modification time, when it judges. */
  datatype Event = Begin(p: nat) | Step(p: nat, stale: bool) | Crash(p: nat)

  function Start(n: nat): State {
    State(Some(Left), seq(n, _ => Process(Idle, 0)), {})
  }

  predicate Owning(pc: Pc) {
    pc.Holding? || pc.Checking? || pc.Removing?
  }

  /** A token whose owner holds the library, or is giving it back. */
  predicate Live(s: State, t: Token) {
    t.Of? && t.p < |s.procs| && s.procs[t.p].call == t.call && Owning(s.procs[t.p].pc)
  }

  predicate LiveLock(s: State, t: Option<Token>) {
    t.Some? && Live(s, t.value)
  }

  /** Gone is judged of the text read, silent of the file there now: never of a live owner's. */
  predicate MayJudgeStale(s: State, text: Option<Token>) {
    s.lock.Some? && ((text.Some? && !Live(s, text.value)) || !LiveLock(s, s.lock))
  }

  function SetPc(s: State, p: nat, pc: Pc): State
    requires p < |s.procs|
  {
    s.(procs := s.procs[p := s.procs[p].(pc := pc)])
  }

  function Own(s: State, p: nat): Token
    requires p < |s.procs|
  {
    Of(p, s.procs[p].call)
  }

  /** The next call of a process on the file system. */
  function Advance(s: State, p: nat, stale: bool): State
    requires p < |s.procs|
  {
    match s.procs[p].pc
    case Idle => s
    case Creating =>
      if s.lock.None? then SetPc(s, p, Holding).(lock := Some(Own(s, p))) else SetPc(s, p, Reading)
    case Reading => SetPc(s, p, Judging(s.lock))
    case Judging(text) => SetPc(s, p, if stale && MayJudgeStale(s, text) then Moving(text) else Creating)
    case Moving(text) =>
      if s.lock.None? then SetPc(s, p, Creating) else SetPc(s, p, Looking(text, s.lock.value)).(lock := None)
    case Looking(text, aside) =>
      if text == Some(aside) then SetPc(s, p, Dropping).(discarded := s.discarded + {aside})
      else SetPc(s, p, Linking(aside))
    case Linking(aside) =>
      if s.lock.None? then SetPc(s, p, Dropping).(lock := Some(aside))
      else SetPc(s, p, Dropping).(discarded := s.discarded + {aside})
    case Dropping => SetPc(s, p, Creating)
    case Holding => SetPc(s, p, Checking)
    case Checking => SetPc(s, p, if s.lock == Some(Own(s, p)) then Removing else Idle)
    case Removing => SetPc(s, p, Idle).(lock := None)
    case Crashed => s
  }

  function Next(s: State, e: Event): State {
    if e.p >= |s.procs| then s
    else
      match e
      case Begin(p) =>
        if s.procs[p].pc.Idle? || s.procs[p].pc.Crashed?
        then s.(procs := s.procs[p := Process(Creating, s.procs[p].call + 1)])
        else s
      case Step(p, stale) => Advance(s, p, stale)
      case Crash(p) => if s.procs[p].pc.Looking? || s.procs[p].pc.Linking? then s else SetPc(s, p, Crashed)
  }

  function After(n: nat, events: seq<Event>): (s: State)
    ensures |s.procs| == n
  {
    if events == [] then Start(n) else Next(After(n, events[..|events| - 1]), events[|events| - 1])
  }

  // ----- two processes -----

  /** Where a process keeps what it has moved aside and may still put back. */
  predicate Keeps(pc: Pc, t: Token) {
    (pc.Looking? && pc.aside == t) || (pc.Linking? && pc.aside == t)
  }

  predicate Remembers(pc: Pc, t: Token) {
    || (pc.Judging? && pc.text == Some(t))
    || (pc.Moving? && pc.text == Some(t))
    || (pc.Looking? && pc.text == Some(t))
  }

  /** A live lock is where it belongs, or aside with a process that will put it back. */
  ghost predicate Placed(s: State) {
    forall p :: 0 <= p < |s.procs| && Owning(s.procs[p].pc) ==>
      || s.lock == Some(Own(s, p))
      || (s.lock.None? && exists q :: 0 <= q < |s.procs| && Keeps(s.procs[q].pc, Own(s, p)))
  }

  /** Nobody is about to take a live lock for the stale one it has judged. */
  ghost predicate JudgedDead(s: State) {
    forall q, t :: 0 <= q < |s.procs| && Live(s, t) && (s.procs[q].pc.Moving? || s.procs[q].pc.Looking?) ==>
      !Remembers(s.procs[q].pc, t)
  }

  ghost predicate Seen(s: State, t: Token) {
    s.lock == Some(t) || t in s.discarded
    || exists q :: 0 <= q < |s.procs| && (Keeps(s.procs[q].pc, t) || Remembers(s.procs[q].pc, t))
  }

  /** A token is nowhere before its process has created the file with it. */
  ghost predicate Fresh(s: State) {
    forall p, call: nat :: 0 <= p < |s.procs| && Seen(s, Of(p, call)) ==>
      call < s.procs[p].call ||
      (call == s.procs[p].call && (Owning(s.procs[p].pc) || s.procs[p].pc.Idle? || s.procs[p].pc.Crashed?))
  }

  /** A file is in one place: nobody keeps what is the lock, and no two keep the same. */
  ghost predicate Apart(s: State) {
    && (forall q :: 0 <= q < |s.procs| && s.lock.Some? ==> !Keeps(s.procs[q].pc, s.lock.value))
    && (forall q, r, t :: 0 <= q < r < |s.procs| && Keeps(s.procs[q].pc, t) ==> !Keeps(s.procs[r].pc, t))
  }

  ghost predicate DiscardsDead(s: State) {
    forall t :: t in s.discarded ==> !Live(s, t)
  }

  ghost predicate Inv(s: State) {
    |s.procs| <= 2 && Placed(s) && Apart(s) && JudgedDead(s) && Fresh(s) && DiscardsDead(s)
  }

  /** Of two processes at most one is live. */
  lemma OneLive(s: State, p: nat, q: nat)
    requires Inv(s) && p < |s.procs| && q < |s.procs| && Owning(s.procs[p].pc) && Owning(s.procs[q].pc)
    ensures p == q
  {
  }

  /** The file a live owner looks for is its own, or away. */
  lemma OwnOrAway(s: State, p: nat)
    requires Inv(s) && p < |s.procs| && Owning(s.procs[p].pc)
    ensures s.lock.Some? ==> s.lock == Some(Own(s, p))
  {
  }

  /** Who is live depends only on who owns and in which call. */
  lemma LiveAlike(s: State, s': State)
    requires |s.procs| == |s'.procs|
    requires forall q :: 0 <= q < |s.procs| ==>
               s'.procs[q].call == s.procs[q].call && Owning(s'.procs[q].pc) == Owning(s.procs[q].pc)
    ensures forall t :: Live(s', t) == Live(s, t)
  {
  }

  lemma FewerLive(s: State, s': State)
    requires |s.procs| == |s'.procs|
    requires forall q :: 0 <= q < |s.procs| ==>
               (s'.procs[q].call == s.procs[q].call && Owning(s'.procs[q].pc) ==> Owning(s.procs[q].pc))
               && s.procs[q].call <= s'.procs[q].call
               && (Owning(s'.procs[q].pc) ==> s'.procs[q].call == s.procs[q].call)
    ensures forall t :: Live(s', t) ==> Live(s, t)
  {
  }

  /** With the file away, whoever may create it is alone. */
  lemma NobodyLive(s: State, p: nat)
    requires Inv(s) && p < |s.procs| && s.procs[p].pc.Creating? && s.lock.None?
    ensures forall t :: !Live(s, t)
  {
  }

  lemma TakesItFresh(s: State, p: nat)
    requires Inv(s) && p < |s.procs| && s.procs[p].pc.Creating? && s.lock.None?
    ensures Fresh(Advance(s, p, false)) && Apart(Advance(s, p, false))
  {
    var s' := Advance(s, p, false);
    assert !Seen(s, Own(s, p));
    assert forall t :: Seen(s', t) ==> Seen(s, t) || t == Own(s, p);
    forall q | 0 <= q < |s.procs| ensures !Keeps(s.procs[q].pc, Own(s, p)) {
    }
  }

  lemma TakesIt(s: State, p: nat)
    requires Inv(s) && p < |s.procs| && s.procs[p].pc.Creating? && s.lock.None?
    ensures Inv(Advance(s, p, false))
  {
    NobodyLive(s, p);
    TakesItFresh(s, p);
    assert !Seen(s, Own(s, p));
    assert forall t :: Live(Advance(s, p, false), t) ==> t == Own(s, p);
  }

  lemma CreateInv(s: State, p: nat, stale: bool)
    requires Inv(s) && p < |s.procs| && s.procs[p].pc.Creating?
    ensures Inv(Advance(s, p, stale))
  {
    if s.lock.None? {
      TakesIt(s, p);
    } else {
      LiveAlike(s, Advance(s, p, stale));
    }
  }

  lemma ReadInv(s: State, p: nat, stale: bool)
    requires Inv(s) && p < |s.procs| && s.procs[p].pc.Reading?
    ensures Inv(Advance(s, p, stale))
  {
    LiveAlike(s, Advance(s, p, stale));
  }

  lemma JudgeInv(s: State, p: nat, stale: bool)
    requires Inv(s) && p < |s.procs| && s.procs[p].pc.Judging?
    ensures Inv(Advance(s, p, stale))
  {
    LiveAlike(s, Advance(s, p, stale));
  }

  lemma MoveInv(s: State, p: nat, stale: bool)
    requires Inv(s) && p < |s.procs| && s.procs[p].pc.Moving?
    ensures Inv(Advance(s, p, stale))
  {
    LiveAlike(s, Advance(s, p, stale));
  }

  lemma LookPlaced(s: State, p: nat)
    requires Inv(s) && p < |s.procs| && s.procs[p].pc.Looking?
    ensures Placed(Advance(s, p, false))
  {
    var s' := Advance(s, p, false);
    forall q | 0 <= q < |s'.procs| && Owning(s'.procs[q].pc) && s'.lock.None?
      ensures exists r :: 0 <= r < |s'.procs| && Keeps(s'.procs[r].pc, Own(s', q))
    {
      var r :| 0 <= r < |s.procs| && Keeps(s.procs[r].pc, Own(s, q));
      assert Live(s, Own(s, q));
      assert Keeps(s'.procs[r].pc, Own(s', q));
    }
  }

  lemma LookDiscards(s: State, p: nat)
    requires Inv(s) && p < |s.procs| && s.procs[p].pc.Looking?
    ensures DiscardsDead(Advance(s, p, false)) && JudgedDead(Advance(s, p, false))
  {
    LiveAlike(s, Advance(s, p, false));
  }

  lemma LookFresh(s: State, p: nat)
    requires Inv(s) && p < |s.procs| && s.procs[p].pc.Looking?
    ensures Fresh(Advance(s, p, false)) && Apart(Advance(s, p, false))
  {
    var s', aside := Advance(s, p, false), s.procs[p].pc.aside;
    assert Keeps(s.procs[p].pc, aside);
    assert forall t :: Seen(s', t) ==> Seen(s, t);
  }

  lemma LookInv(s: State, p: nat, stale: bool)
    requires Inv(s) && p < |s.procs| && s.procs[p].pc.Looking?
    ensures Inv(Advance(s, p, stale))
  {
    LookPlaced(s, p);
    LookDiscards(s, p);
    LookFresh(s, p);
  }

  lemma LinkPlaced(s: State, p: nat)
    requires Inv(s) && p < |s.procs| && s.procs[p].pc.Linking?
    ensures var s' := Advance(s, p, false); Placed(s') && Apart(s') && DiscardsDead(s')
  {
    assert Keeps(s.procs[p].pc, s.procs[p].pc.aside);
    LiveAlike(s, Advance(s, p, false));
  }

  lemma LinkFresh(s: State, p: nat)
    requires Inv(s) && p < |s.procs| && s.procs[p].pc.Linking?
    ensures var s' := Advance(s, p, false); Fresh(s') && JudgedDead(s')
  {
    var s' := Advance(s, p, false);
    assert Keeps(s.procs[p].pc, s.procs[p].pc.aside);
    assert forall t :: Seen(s', t) ==> Seen(s, t);
    LiveAlike(s, s');
  }

  lemma LinkInv(s: State, p: nat, stale: bool)
    requires Inv(s) && p < |s.procs| && s.procs[p].pc.Linking?
    ensures Inv(Advance(s, p, stale))
  {
    LinkPlaced(s, p);
    LinkFresh(s, p);
  }

  lemma DropInv(s: State, p: nat, stale: bool)
    requires Inv(s) && p < |s.procs| && s.procs[p].pc.Dropping?
    ensures Inv(Advance(s, p, stale))
  {
    LiveAlike(s, Advance(s, p, stale));
  }

  lemma ReleaseInv(s: State, p: nat, stale: bool)
    requires Inv(s) && p < |s.procs| && s.procs[p].pc.Holding?
    ensures Inv(Advance(s, p, stale))
  {
    LiveAlike(s, Advance(s, p, stale));
  }

  lemma CheckInv(s: State, p: nat, stale: bool)
    requires Inv(s) && p < |s.procs| && s.procs[p].pc.Checking?
    ensures Inv(Advance(s, p, stale))
  {
    FewerLive(s, Advance(s, p, stale));
  }

  lemma RemoveInv(s: State, p: nat, stale: bool)
    requires Inv(s) && p < |s.procs| && s.procs[p].pc.Removing?
    ensures Inv(Advance(s, p, stale))
  {
    FewerLive(s, Advance(s, p, stale));
  }

  lemma AdvanceInv(s: State, p: nat, stale: bool)
    requires Inv(s) && p < |s.procs|
    ensures Inv(Advance(s, p, stale))
  {
    match s.procs[p].pc {
      case Creating => CreateInv(s, p, stale);
      case Reading => ReadInv(s, p, stale);
      case Judging(_) => JudgeInv(s, p, stale);
      case Moving(_) => MoveInv(s, p, stale);
      case Looking(_, _) => LookInv(s, p, stale);
      case Linking(_) => LinkInv(s, p, stale);
      case Dropping => DropInv(s, p, stale);
      case Holding => ReleaseInv(s, p, stale);
      case Checking => CheckInv(s, p, stale);
      case Removing => RemoveInv(s, p, stale);
      case _ =>
    }
  }

  lemma BeginInv(s: State, p: nat)
    requires Inv(s) && p < |s.procs|
    ensures Inv(Next(s, Begin(p)))
  {
    FewerLive(s, Next(s, Begin(p)));
  }

  lemma CrashInv(s: State, p: nat)
    requires Inv(s) && p < |s.procs|
    ensures Inv(Next(s, Crash(p)))
  {
    FewerLive(s, Next(s, Crash(p)));
  }

  lemma NextInv(s: State, e: Event)
    requires Inv(s)
    ensures Inv(Next(s, e))
  {
    if e.p < |s.procs| {
      match e {
        case Begin(p) => BeginInv(s, p);
        case Step(p, stale) => AdvanceInv(s, p, stale);
        case Crash(p) => CrashInv(s, p);
      }
    }
  }

  lemma {:induction false} RunInv(n: nat, events: seq<Event>)
    requires n <= 2
    ensures Inv(After(n, events))
  {
    if events != [] {
      var init := events[..|events| - 1];
      RunInv(n, init);
      NextInv(After(n, init), events[|events| - 1]);
    }
  }

  // ----- what it promises, and to how many -----

  predicate Exclusive(s: State) {
    forall p, q :: 0 <= p < q < |s.procs| && s.procs[p].pc.Holding? ==> !s.procs[q].pc.Holding?
  }

  /** Two processes never hold the library together. */
  lemma TwoAreExclusive(n: nat, events: seq<Event>)
    requires n <= 2
    ensures Exclusive(After(n, events))
  {
    RunInv(n, events);
    var s := After(n, events);
    forall p, q | 0 <= p < q < |s.procs| && s.procs[p].pc.Holding? ensures !s.procs[q].pc.Holding? {
      if s.procs[q].pc.Holding? {
        OneLive(s, p, q);
      }
    }
  }

  /** Giving the library back removes the giver's own lock, or nothing. */
  lemma ReleaseRemovesItsOwn(n: nat, events: seq<Event>, p: nat)
    requires n <= 2 && p < n && After(n, events).procs[p].pc.Removing?
    ensures var s := After(n, events); s.lock.Some? ==> s.lock == Some(Own(s, p))
    ensures forall stale :: var s' := After(n, events + [Step(p, stale)]); s'.lock.None? && s'.procs[p].pc.Idle?
  {
    RunInv(n, events);
    OwnOrAway(After(n, events), p);
    forall stale ensures After(n, events + [Step(p, stale)]) == Next(After(n, events), Step(p, stale)) {
      OneMore(n, events, Step(p, stale));
    }
  }

  lemma OneMore(n: nat, events: seq<Event>, e: Event)
    ensures After(n, events + [e]) == Next(After(n, events), e)
  {
    assert (events + [e])[..|events|] == events;
  }

  /** None of the events is a step, a crash or a call of this process. */
  predicate Others(events: seq<Event>, p: nat) {
    forall i :: 0 <= i < |events| ==> events[i].p != p
  }

  lemma {:induction false} OthersMoveNothing(n: nat, events: seq<Event>, more: seq<Event>, p: nat)
    requires p < n && Others(more, p)
    ensures After(n, events + more).procs[p] == After(n, events).procs[p]
    decreases |more|
  {
    if more == [] {
      assert events + more == events;
    } else {
      var init, e := more[..|more| - 1], more[|more| - 1];
      OthersMoveNothing(n, events, init, p);
      assert (events + more)[..|events + more| - 1] == events + init;
    }
  }

  /**
   Giving the library back, from its look at a lock that is its own: two steps, whatever the others do in
   between, and there is no lock and the call is over.
   */
  lemma ReleaseFreesTheLibrary(n: nat, events: seq<Event>, p: nat, a: bool, between: seq<Event>, b: bool)
    requires p < n && After(n, events).procs[p].pc.Checking? && After(n, events).lock == Some(Own(After(n, events), p))
    requires Others(between, p)
    ensures var s := After(n, events + [Step(p, a)] + between + [Step(p, b)]);
            s.lock.None? && s.procs[p] == After(n, events).procs[p].(pc := Idle)
  {
    OneMore(n, events, Step(p, a));
    OthersMoveNothing(n, events + [Step(p, a)], between, p);
    OneMore(n, events + [Step(p, a)] + between, Step(p, b));
  }

  /** The call that wrote the lock is over: it gave the library back, crashed, or another follows it. */
  predicate IsOver(s: State, t: Token) {
    || t == Left
    || (t.p < |s.procs| && (t.call < s.procs[t.p].call
                            || (t.call == s.procs[t.p].call && (s.procs[t.p].pc.Idle? || s.procs[t.p].pc.Crashed?))))
  }

  /** The lock file with this token is nowhere, and no call will write it again. */
  ghost predicate Away(s: State, t: Token) {
    && t.Of? && t.p < |s.procs| && s.lock != Some(t)
    && (forall q :: 0 <= q < |s.procs| ==> !Keeps(s.procs[q].pc, t))
    && IsOver(s, t)
  }

  lemma StaysAway(s: State, e: Event, t: Token)
    requires Away(s, t)
    ensures Away(Next(s, e), t)
  {
    if e.p < |s.procs| {
      var s' := Next(s, e);
      forall q | 0 <= q < |s'.procs| ensures !Keeps(s'.procs[q].pc, t) {
        assert !Keeps(s.procs[q].pc, t);
      }
      assert !Keeps(s.procs[e.p].pc, t);
    }
  }

  lemma {:induction false} AwayForGood(n: nat, events: seq<Event>, more: seq<Event>, t: Token)
    requires Away(After(n, events), t)
    ensures Away(After(n, events + more), t)
    decreases |more|
  {
    if more == [] {
      assert events + more == events;
    } else {
      var init := more[..|more| - 1];
      AwayForGood(n, events, init, t);
      assert (events + more)[..|events + more| - 1] == events + init;
      StaysAway(After(n, events + init), more[|more| - 1], t);
    }
  }

  /** The step is the last of its process's call: it has given the library back. */
  predicate Releases(s: State, p: nat, stale: bool) {
    p < |s.procs| && Owning(s.procs[p].pc) && Next(s, Step(p, stale)).procs[p].pc.Idle?
  }

  /**
   Of two processes, one whose call ended without a crash has left its lock behind only if another had moved
   that aside, to put it back, when the release made its last step: otherwise it is never there again.
   */
  lemma ReleasedIsGone(n: nat, events: seq<Event>, p: nat, stale: bool, more: seq<Event>)
    requires n <= 2 && Releases(After(n, events), p, stale)
    ensures var s, later := After(n, events), After(n, events + [Step(p, stale)] + more);
            later.lock == Some(Own(s, p)) ==> exists q :: 0 <= q < n && q != p && Keeps(s.procs[q].pc, Own(s, p))
  {
    var s, t := After(n, events), Own(After(n, events), p);
    RunInv(n, events);
    OneMore(n, events, Step(p, stale));
    if forall q :: 0 <= q < n ==> !Keeps(s.procs[q].pc, t) {
      assert s.lock == Some(t);
      assert Away(Next(s, Step(p, stale)), t);
      AwayForGood(n, events + [Step(p, stale)], more, t);
    }
  }

  // ----- a lock that was left behind -----

  /** Seven steps of a process that finds a lock nobody holds: judged, moved aside, dropped, and a new one made. */
  lemma LeftLockIsTakenOver(s: State, p: nat)
    requires p < |s.procs| && s.procs[p].pc.Creating? && s.lock.Some? && !LiveLock(s, s.lock)
    ensures var e := Step(p, true);
            var u := Next(Next(Next(Next(Next(Next(Next(s, e), e), e), e), e), e), e);
            u.lock == Some(Own(s, p)) && u.procs == s.procs[p := s.procs[p].(pc := Holding)]
  {
    var e, c, t := Step(p, true), s.procs[p].call, s.lock.value;
    var read := SetPc(s, p, Judging(Some(t)));
    assert Next(Next(s, e), e) == read;
    assert !Live(read, t);
    var moved := SetPc(s, p, Looking(Some(t), t)).(lock := None);
    assert Next(Next(read, e), e) == moved;
    var dropped := SetPc(s, p, Creating).(lock := None, discarded := s.discarded + {t});
    assert Next(Next(moved, e), e) == dropped;
    assert Next(dropped, e).procs == s.procs[p := Process(Holding, c)];
  }

  lemma {:induction false} DiscardedStays(n: nat, events: seq<Event>, more: seq<Event>)
    ensures After(n, events).discarded <= After(n, events + more).discarded
    decreases |more|
  {
    if more == [] {
      assert events + more == events;
    } else {
      var init := more[..|more| - 1];
      DiscardedStays(n, events, init);
      assert (events + more)[..|events + more| - 1] == events + init;
    }
  }

  /** What a takeover has discarded belongs to nobody who holds the library, then or ever after. */
  lemma OnlyDeadLocksAreDiscarded(n: nat, events: seq<Event>, more: seq<Event>, t: Token)
    requires n <= 2 && t in After(n, events).discarded
    ensures !Live(After(n, events + more), t)
  {
    DiscardedStays(n, events, more);
    RunInv(n, events + more);
  }

  ghost predicate Known(s: State) {
    forall t :: Seen(s, t) ==> t == Left || t.p < |s.procs|
  }

  lemma SeenBefore(s: State, e: Event, t: Token)
    requires Seen(Next(s, e), t)
    ensures Seen(s, t) || (e.Step? && e.p < |s.procs| && t == Own(s, e.p))
  {
    if e.p < |s.procs| {
      assert e.Step? && s.procs[e.p].pc.Looking? ==> Keeps(s.procs[e.p].pc, s.procs[e.p].pc.aside);
      assert e.Step? && s.procs[e.p].pc.Linking? ==> Keeps(s.procs[e.p].pc, s.procs[e.p].pc.aside);
    }
  }

  lemma {:induction false} RunKnown(n: nat, events: seq<Event>)
    ensures Known(After(n, events))
  {
    if events != [] {
      var s, e := After(n, events[..|events| - 1]), events[|events| - 1];
      RunKnown(n, events[..|events| - 1]);
      forall t | Seen(Next(s, e), t) ensures t == Left || t.p < n {
        SeenBefore(s, e, t);
      }
    }
  }

  /**
   A takeover discards the lock it read and judged, or one whose place another has taken meanwhile;
   in both cases one whose call is over.
   */
  lemma DiscardsWhatIsOver(n: nat, events: seq<Event>, e: Event, t: Token)
    requires n <= 2 && t in Next(After(n, events), e).discarded && t !in After(n, events).discarded
    ensures e.Step? && e.p < n && IsOver(After(n, events), t)
    ensures var s := After(n, events);
            s.procs[e.p].pc == Looking(Some(t), t) || (s.procs[e.p].pc == Linking(t) && s.lock.Some?)
  {
    var s := After(n, events);
    RunInv(n, events);
    RunInv(n, events + [e]);
    assert (events + [e])[..|events|] == events;
    RunKnown(n, events);
    assert Keeps(s.procs[e.p].pc, t);
    assert Seen(s, t);
    assert !Live(s, t);
  }

  /** A live owner's lock that was moved aside is on its way back: it is never discarded, and put back. */
  lemma LiveLockIsPutBack(n: nat, events: seq<Event>, p: nat, stale: bool, t: Token)
    requires n <= 2 && p < n && Keeps(After(n, events).procs[p].pc, t) && Live(After(n, events), t)
    ensures var s := After(n, events);
            var s' := Next(s, Step(p, stale));
            && s'.discarded == s.discarded
            && (if s.procs[p].pc.Looking? then s'.procs[p].pc == Linking(t) else s'.lock == Some(t))
  {
    RunInv(n, events);
    var s := After(n, events);
    if s.procs[p].pc.Looking? {
      assert !Remembers(s.procs[p].pc, t);
    }
  }

  // ----- a third process can get in -----

  function Go(s: State, events: seq<Event>): State
    decreases |events|
  {
    if events == [] then s else Go(Next(s, events[0]), events[1..])
  }

  lemma {:induction false} GoIsAfter(n: nat, before: seq<Event>, events: seq<Event>)
    ensures Go(After(n, before), events) == After(n, before + events)
    decreases |events|
  {
    if events == [] {
      assert before + events == before;
    } else {
      var more := before + [events[0]];
      assert more[..|before|] == before;
      GoIsAfter(n, more, events[1..]);
      assert more + events[1..] == before + events;
    }
  }

  lemma GoOn(s: State, e: Event, rest: seq<Event>)
    ensures Go(s, [e] + rest) == Go(Next(s, e), rest)
  {
    assert ([e] + rest)[1..] == rest;
  }

  predicate Untouched(s: State, p: nat) {
    p < |s.procs| && s.procs[p] == Process(Idle, 0)
  }

  function ToJudge(p: nat): seq<Event> {
    [Begin(p), Step(p, false), Step(p, false), Step(p, true)]
  }

  /** A process reads the stale lock and is about to move it aside. */
  lemma Judges(s: State, p: nat)
    requires Untouched(s, p) && s.lock == Some(Left)
    ensures Go(s, ToJudge(p)) == s.(procs := s.procs[p := Process(Moving(Some(Left)), 1)])
  {
    var begun, found := s.(procs := s.procs[p := Process(Creating, 1)]), s.(procs := s.procs[p := Process(Reading, 1)]);
    var read := s.(procs := s.procs[p := Process(Judging(Some(Left)), 1)]);
    GoOn(s, Begin(p), [Step(p, false), Step(p, false), Step(p, true)]);
    assert Next(s, Begin(p)) == begun;
    GoOn(begun, Step(p, false), [Step(p, false), Step(p, true)]);
    assert Next(begun, Step(p, false)) == found;
    GoOn(found, Step(p, false), [Step(p, true)]);
    assert Next(found, Step(p, false)) == read;
    GoOn(read, Step(p, true), []);
  }

  lemma SecondDiscards(s: State)
    requires 1 < |s.procs| && s.procs[1] == Process(Moving(Some(Left)), 1) && s.lock == Some(Left)
    ensures Go(s, [Step(1, false), Step(1, false)])
         == State(None, s.procs[1 := Process(Dropping, 1)], s.discarded + {Left})
  {
    var moved := s.(lock := None, procs := s.procs[1 := Process(Looking(Some(Left), Left), 1)]);
    GoOn(s, Step(1, false), [Step(1, false)]);
    assert Next(s, Step(1, false)) == moved;
    GoOn(moved, Step(1, false), []);
  }

  lemma SecondCreates(s: State)
    requires 1 < |s.procs| && s.procs[1] == Process(Dropping, 1) && s.lock.None?
    ensures Go(s, [Step(1, false), Step(1, false)])
         == s.(lock := Some(Of(1, 1)), procs := s.procs[1 := Process(Holding, 1)])
  {
    var ready := s.(procs := s.procs[1 := Process(Creating, 1)]);
    GoOn(s, Step(1, false), [Step(1, false)]);
    assert Next(s, Step(1, false)) == ready;
    GoOn(ready, Step(1, false), []);
  }

  /** The first moves the second's fresh lock aside, and the third finds none. */
  lemma ThirdHolds(s: State)
    requires Untouched(s, 2) && s.lock == Some(Of(1, 1)) && s.procs[0] == Process(Moving(Some(Left)), 1)
    ensures Go(s, [Step(0, false), Begin(2), Step(2, false)]).procs
         == s.procs[0 := Process(Looking(Some(Left), Of(1, 1)), 1)][2 := Process(Holding, 1)]
  {
    GoOn(s, Step(0, false), [Begin(2), Step(2, false)]);
  }

  /** With a third process, two can hold the library together. */
  lemma ThirdGetsIn(n: nat) returns (events: seq<Event>)
    requires n > 2
    ensures !Exclusive(After(n, events))
  {
    var judges, takes := ToJudge(0), ToJudge(1);
    var twice := [Step(1, false), Step(1, false)];
    var third := [Step(0, false), Begin(2), Step(2, false)];
    GoIsAfter(n, [], judges);
    Judges(Start(n), 0);
    GoIsAfter(n, [] + judges, takes);
    Judges(After(n, [] + judges), 1);
    GoIsAfter(n, [] + judges + takes, twice);
    SecondDiscards(After(n, [] + judges + takes));
    GoIsAfter(n, [] + judges + takes + twice, twice);
    SecondCreates(After(n, [] + judges + takes + twice));
    GoIsAfter(n, [] + judges + takes + twice + twice, third);
    ThirdHolds(After(n, [] + judges + takes + twice + twice));
    events := [] + judges + takes + twice + twice + third;
    assert After(n, events).procs[1].pc.Holding? && After(n, events).procs[2].pc.Holding?;
  }

  /** The lock excludes in every run exactly when at most two processes contend for it. */
  lemma ExclusiveIffTwo(n: nat)
    ensures (forall events :: Exclusive(After(n, events))) <==> n <= 2
  {
    if n <= 2 {
      forall events ensures Exclusive(After(n, events)) {
        TwoAreExclusive(n, events);
      }
    } else {
      var events := ThirdGetsIn(n);
    }
  }
}
