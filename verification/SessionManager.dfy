/**
 The part of the session manager that the hold protocol is about, as the object it is: the maps
 that createSession(), holdInstall(), startingOn() and sessionsUsing() read and reassign
 (lib/session/session-manager.ts). Each method is one stretch of code without an await, and is
 proved to be the protocol's step on the manager's maps.
 */
module SessionManagers {
  import opened Wrappers
  import H = HoldProtocol

  class Session {
    const id: H.SessionId
    const venv: Option<H.Venv>
    var isStopped: bool

    constructor (id: H.SessionId, venv: Option<H.Venv>)
      ensures this.id == id && this.venv == venv && !isStopped
    {
      this.id, this.venv, isStopped := id, venv, false;
    }
  }

  class SessionManager {
    var installHolds: map<H.Venv, H.HoldId>
    var released: set<H.HoldId>
    var nextHold: H.HoldId
    var starting: map<H.SessionId, H.Venv>
    var sessions: set<Session>
    /** What the protocol knows besides: who asked for what, the jobs and their locks. */
    ghost var rest: H.State

    ghost function Abs(): H.State
      reads this, sessions
    {
      rest.(holds := installHolds, released := released, nextHold := nextHold, starting := starting,
            sessions := set s | s in sessions :: s.id,
            stopped := set s | s in sessions && s.isStopped :: s.id)
    }

    ghost predicate Valid()
      reads this
    {
      && (forall s, t :: s in sessions && t in sessions && s.id == t.id ==> s == t)
      && (forall s :: s in sessions ==> s.id in rest.venvOf && rest.venvOf[s.id] == s.venv)
    }

    constructor ()
      ensures Valid() && Abs() == H.Initial
    {
      installHolds, released, nextHold, starting, sessions := map[], {}, 0, map[], {};
      rest := H.Initial;
    }

    method HoldInstall(venv: H.Venv) returns (hold: H.HoldId)
      requires Valid()
      modifies this`installHolds, this`nextHold
      ensures Valid() && hold == old(nextHold) && Abs() == H.Hold(old(Abs()), venv)
    {
      hold := nextHold;
      nextHold := nextHold + 1;
      installHolds := installHolds[venv := hold];
    }

    method Release(venv: H.Venv, hold: H.HoldId)
      requires Valid()
      modifies this`installHolds, this`released
      ensures Valid() && Abs() == H.Release(old(Abs()), venv, hold)
    {
      if venv in installHolds && installHolds[venv] == hold {
        installHolds := installHolds - {venv};
      }
      released := released + {hold};
    }

    method StartingOn(venv: H.Venv) returns (ids: set<H.SessionId>)
      ensures ids == set id | id in starting && starting[id] == venv
    {
      ids := {};
      var todo := starting.Keys;
      while todo != {}
        invariant todo <= starting.Keys
        invariant ids == set id | id in starting.Keys - todo && starting[id] == venv
        decreases todo
      {
        var id :| id in todo;
        if starting[id] == venv {
          ids := ids + {id};
        }
        todo := todo - {id};
      }
    }

    method SessionsUsing(venv: H.Venv) returns (using: set<H.SessionId>)
      requires Valid()
      ensures using == (set s | s in sessions && !s.isStopped && s.venv == Some(venv) :: s.id)
                       + (set id | id in starting && starting[id] == venv)
      ensures using == H.SessionsUsing(Abs(), venv)
    {
      var ids := {};
      var todo := sessions;
      while todo != {}
        invariant todo <= sessions
        invariant ids == set s | s in sessions - todo && !s.isStopped && s.venv == Some(venv) :: s.id
        decreases todo
      {
        var s :| s in todo;
        if !s.isStopped && s.venv == Some(venv) {
          ids := ids + {s.id};
        }
        todo := todo - {s};
      }
      var others := StartingOn(venv);
      using := ids + others;
      UnstoppedOn(venv, ids);
    }

    /** Going by the sessions themselves or by their ids comes to the same. */
    lemma UnstoppedOn(venv: H.Venv, ids: set<H.SessionId>)
      requires Valid() && ids == set s | s in sessions && !s.isStopped && s.venv == Some(venv) :: s.id
      ensures var t := Abs();
              ids == set id | id in t.sessions && id !in t.stopped && id in t.venvOf && t.venvOf[id] == Some(venv)
    {
      var t := Abs();
      forall id
        ensures id in ids <==> id in t.sessions && id !in t.stopped && id in t.venvOf && t.venvOf[id] == Some(venv)
      {
        if id in t.sessions {
          var s :| s in sessions && s.id == id;
          assert id in t.stopped <==> s.isStopped;
        }
      }
    }

    /** createSession(), from a look at the hold to the next await: the hold to wait for, or none. */
    method LookAtHold(id: H.SessionId, library: Option<H.Venv>) returns (wait: Option<H.HoldId>)
      requires Valid() && id in rest.venvOf && rest.venvOf[id] == library
      modifies this`starting, this`rest
      ensures Valid() && Abs() == H.LookAtHold(old(Abs()), id)
      ensures wait == if library.Some? && library.value in installHolds then Some(installHolds[library.value]) else None
    {
      if library.Some? && library.value in installHolds {
        wait := Some(installHolds[library.value]);
        rest := rest.(at := rest.at[id := H.Waiting(wait.value)]);
      } else {
        wait := None;
        rest := rest.(at := rest.at[id := H.Starting]);
        if library.Some? {
          starting := starting[id := library.value];
        }
      }
    }

    /** createSession(), once the supervisor has started the session. */
    method Created(id: H.SessionId, library: Option<H.Venv>) returns (session: Session)
      requires Valid() && id in rest.venvOf && rest.venvOf[id] == library && H.SessionIs(Abs(), id, H.Starting)
      requires id !in Abs().sessions
      modifies this`starting, this`sessions, this`rest
      ensures Valid() && fresh(session) && session in sessions && Abs() == H.Do(old(Abs()), H.Creates(id))
    {
      session := new Session(id, library);
      ghost var before := Abs();
      assert forall s :: s in sessions ==> s.id != id;
      sessions := sessions + {session};
      starting := starting - {id};
      rest := rest.(at := rest.at[id := H.Connecting]);
      assert Abs().sessions == before.sessions + {id};
      assert Abs().stopped == before.stopped;
    }
  }
}
