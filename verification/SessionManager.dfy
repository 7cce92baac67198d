/** The session registry as the daemon owns it. */
module SessionManagers {
  import opened Common
  import M = SessionModel

  class SessionManager {
    var sessions: map<SessionId, M.Context>
    var nextId: SessionId

    ghost function Model(): M.Sessions
      reads this
    {
      M.Sessions(sessions, nextId)
    }

    constructor ()
      ensures Model() == M.NO_SESSIONS
    {
      sessions, nextId := map[], 1;
    }

    /** `ready` says whether the home and runtime directories are usable. */
    method CreateSession(uid: Uid, name: string, seat: SeatId, kind: M.SessionType, limit: nat,
                         ready: bool) returns (r: M.CreateResult)
      modifies this
      ensures r == M.CreateOutcome(old(Model()), uid, limit, ready)
      ensures Model() == M.Create(old(Model()), uid, name, seat, kind, limit, ready)
    {
      var existing := set s | s in sessions && sessions[s].uid == uid;
      assert existing == M.OwnedBy(Model(), uid);
      if |existing| >= limit {
        return M.RefusedTooMany;
      }
      var id := nextId;
      nextId := nextId + 1;
      if !ready {
        return M.RefusedNotReady;
      }
      sessions := sessions[id := M.Context(uid, name, seat, kind, M.Starting, None, None, 0)];
      return M.Created(id);
    }

    method TerminateSession(s: SessionId) returns (ok: bool)
      modifies this`sessions
      ensures ok <==> s in old(sessions)
      ensures Model() == M.Remove(old(Model()), {s})
    {
      ok := s in sessions;
      sessions := sessions - {s};
    }

    /** Terminate everyone: a snapshot of the ids is taken first, then each goes. */
    method TerminateAll()
      modifies this`sessions
      ensures Model() == M.Remove(old(Model()), old(sessions).Keys)
    {
      var ids := sessions.Keys;
      while ids != {}
        invariant ids <= old(sessions).Keys
        invariant sessions == old(sessions) - (old(sessions).Keys - ids)
        decreases ids
      {
        var s :| s in ids;
        var _ := TerminateSession(s);
        ids := ids - {s};
      }
    }

    /** Write a live session's record back. */
    method Put(s: SessionId, ctx: M.Context)
      requires s in sessions
      modifies this`sessions
      ensures Model() == M.Update(old(Model()), s, ctx)
    {
      sessions := sessions[s := ctx];
    }

    method Transition(s: SessionId, to: M.SessionState)
      modifies this`sessions
      ensures Model() == M.Transition(old(Model()), s, to)
    {
      if s in sessions && M.CanTransition(sessions[s].state, to) {
        sessions := sessions[s := sessions[s].(state := to)];
      } else if s in sessions {
        assert sessions == sessions[s := sessions[s].(state := M.Moved(sessions[s].state, to))];
      }
    }

    /** Walk every session and clear the compositor handle that is now stale. */
    method ForgetConnection(conn: ConnId)
      modifies this`sessions
      ensures Model() == M.DropConnection(old(Model()), conn)
    {
      var unseen := sessions.Keys;
      while unseen != {}
        invariant unseen <= old(sessions).Keys && sessions.Keys == old(sessions).Keys
        invariant forall s :: s in unseen ==> sessions[s] == old(sessions)[s]
        invariant forall s :: s in sessions && s !in unseen ==>
                    sessions[s] == M.DropConnection(old(Model()), conn).live[s]
        decreases unseen
      {
        var s :| s in unseen;
        if sessions[s].compositor == Some(conn) {
          sessions := sessions[s := sessions[s].(compositor := None)];
        }
        unseen := unseen - {s};
      }
    }

    /** The session whose compositor process this was, if any. */
    method FindByProcess(pid: Pid) returns (owner: Option<SessionId>)
      ensures owner.Some? ==> owner.value in sessions && sessions[owner.value].process == Some(pid)
      ensures owner.None? ==> forall s :: s in sessions ==> sessions[s].process != Some(pid)
    {
      var unseen := sessions.Keys;
      while unseen != {}
        invariant unseen <= sessions.Keys
        invariant forall s :: s in sessions && s !in unseen ==> sessions[s].process != Some(pid)
        decreases unseen
      {
        var s :| s in unseen;
        if sessions[s].process == Some(pid) {
          return Some(s);
        }
        unseen := unseen - {s};
      }
      return None;
    }
  }
}
