/** The elevation manager as the daemon owns it: tables and timers updated in
    place, each method proved against the value model. */
module ElevationManagers {
  import opened Common
  import opened Authentication
  import opened Timers
  import M = ElevationModel

  class ElevationTimeouts {
    var promptExpiry: map<RequestId, Instant>
    var lockoutExpiry: map<SessionId, Instant>

    constructor ()
      ensures promptExpiry == map[] && lockoutExpiry == map[]
    {
      promptExpiry, lockoutExpiry := map[], map[];
    }

    method StartPrompt(id: RequestId, now: Instant, timeout: Duration)
      modifies this`promptExpiry
      ensures promptExpiry == old(promptExpiry)[id := now + timeout]
    {
      promptExpiry := promptExpiry[id := now + timeout];
    }

    method CancelPrompt(id: RequestId)
      modifies this`promptExpiry
      ensures promptExpiry == old(promptExpiry) - {id}
    {
      promptExpiry := promptExpiry - {id};
    }

    method ExpiredPrompts(now: Instant) returns (expired: seq<RequestId>)
      modifies this`promptExpiry
      ensures Lists(expired, Expired(old(promptExpiry), now))
      ensures promptExpiry == old(promptExpiry) - Expired(old(promptExpiry), now)
    {
      promptExpiry, expired := DrainExpired(promptExpiry, now);
    }

    method StartLockout(s: SessionId, now: Instant, lockout: Duration)
      modifies this`lockoutExpiry
      ensures lockoutExpiry == old(lockoutExpiry)[s := now + lockout]
    {
      lockoutExpiry := lockoutExpiry[s := now + lockout];
    }

    method ExpiredLockouts(now: Instant) returns (expired: seq<SessionId>)
      modifies this`lockoutExpiry
      ensures Lists(expired, Expired(old(lockoutExpiry), now))
      ensures lockoutExpiry == old(lockoutExpiry) - Expired(old(lockoutExpiry), now)
    {
      lockoutExpiry, expired := DrainExpired(lockoutExpiry, now);
    }
  }

  /** `torn` reports exactly the prompts `ids` of `pending`, each once. */
  ghost predicate Reports(torn: seq<M.Abandoned>, pending: map<RequestId, M.Prompt>, ids: set<RequestId>) {
    && Lists(IdsOf(torn), ids)
    && forall k :: 0 <= k < |torn| ==> torn[k].id in pending && torn[k].prompt == pending[torn[k].id]
  }

  ghost function IdsOf(torn: seq<M.Abandoned>): seq<RequestId> {
    seq(|torn|, k requires 0 <= k < |torn| => torn[k].id)
  }

  lemma ReportsSnoc(torn: seq<M.Abandoned>, pending: map<RequestId, M.Prompt>, ids: set<RequestId>, id: RequestId)
    requires Reports(torn, pending, ids) && id in pending && id !in ids
    ensures Reports(torn + [M.Abandoned(id, pending[id])], pending, ids + {id})
  {
    var more := torn + [M.Abandoned(id, pending[id])];
    assert IdsOf(more) == IdsOf(torn) + [id];
    assert id !in IdsOf(torn) by { assert id !in (set x | x in IdsOf(torn)); }
    ListsSnoc(IdsOf(torn), ids, id);
  }

  class ElevationManager {
    var pending: map<RequestId, M.Prompt>
    var nextId: nat
    var sessionAuth: map<SessionId, M.Guesses>
    const timeouts: ElevationTimeouts
    var requesterUid: Option<Uid>

    ghost function Model(): M.Elevation
      reads this, timeouts
    {
      M.Elevation(pending, nextId, sessionAuth, timeouts.promptExpiry, timeouts.lockoutExpiry)
    }

    constructor (uid: Option<Uid>)
      ensures Model() == M.EMPTY && requesterUid == uid && fresh(timeouts)
    {
      pending, nextId, sessionAuth := map[], 0, map[];
      timeouts := new ElevationTimeouts();
      requesterUid := uid;
    }

    method SetRequesterUid(uid: Option<Uid>)
      modifies this`requesterUid
      ensures requesterUid == uid
    {
      requesterUid := uid;
    }

    method Begin(s: SessionId, compositor: ConnId, requester: ConnId, policy: M.ElevationPolicy, auth: AuthPolicy,
                 now: Instant)
      returns (r: M.BeginResult)
      modifies this`pending, this`nextId, timeouts
      ensures r == M.BeginOutcome(old(Model()), s, policy, auth)
      ensures Model() == M.Apply(old(Model()), M.CBegin(s, compositor, requester, policy, auth, now))
    {
      if s in sessionAuth && sessionAuth[s].lockedOut {
        return M.RefusedLockedOut(auth.lockout);
      }
      var waiting := set id | id in pending && pending[id].session == s;
      assert waiting == M.OpenFor(Model(), s);
      if |waiting| >= policy.maxPending {
        return M.RefusedTooMany;
      }
      nextId := nextId + 1;
      pending := pending[nextId := M.Prompt(s, compositor, requester)];
      timeouts.StartPrompt(nextId, now, policy.promptTimeout);
      return M.Opened(nextId);
    }

    /** Check a password against an open prompt; anything but a plain failure closes it. */
    method Attempt(id: RequestId, accepted: bool, auth: AuthPolicy, now: Instant) returns (r: Option<M.Resolution>)
      modifies this`pending, this`sessionAuth, timeouts
      ensures r == M.AttemptOutcome(old(Model()), id, accepted, auth)
      ensures Model() == M.Apply(old(Model()), M.CAttempt(id, accepted, auth, now))
    {
      if id !in pending {
        return None;
      }
      var prompt := pending[id];
      var entry := if prompt.session in sessionAuth then sessionAuth[prompt.session] else M.Guesses(false, 0);
      var outcome, attempts := Check(accepted, auth, entry.attempts);
      entry := entry.(attempts := attempts);
      var terminal := true;
      match outcome {
        case Success => entry := entry.(attempts := 0);
        case LockedOut(_) =>
          entry := entry.(lockedOut := true);
          timeouts.StartLockout(prompt.session, now, auth.lockout);
        case Failure(_) => terminal := false;
        case _ =>
      }
      sessionAuth := sessionAuth[prompt.session := entry];
      if terminal {
        pending := pending - {id};
        timeouts.CancelPrompt(id);
      }
      return Some(M.Resolution(prompt, outcome, terminal));
    }

    method Cancel(id: RequestId) returns (r: Option<M.Resolution>)
      modifies this`pending, timeouts
      ensures r == M.CancelOutcome(old(Model()), id)
      ensures id in old(pending) ==> Model() == M.Apply(old(Model()), M.CCancel(id))
      ensures id !in old(pending) ==> Model() == old(Model())
    {
      if id !in pending {
        return None;
      }
      var prompt := pending[id];
      pending := pending - {id};
      timeouts.CancelPrompt(id);
      return Some(M.Resolution(prompt, Cancelled, true));
    }

    method ClearExpiredLockouts(now: Instant)
      modifies this`sessionAuth, timeouts`lockoutExpiry
      ensures Model() == M.Apply(old(Model()), M.CClearLockouts(now))
    {
      var expired := timeouts.ExpiredLockouts(now);
      assert forall s :: s in sessionAuth ==> M.Forgiven(sessionAuth, {})[s] == sessionAuth[s];
      assert M.Forgiven(sessionAuth, {}) == sessionAuth;
      for i := 0 to |expired|
        invariant timeouts.lockoutExpiry == old(timeouts.lockoutExpiry) - Expired(old(timeouts.lockoutExpiry), now)
        invariant sessionAuth == M.Forgiven(old(sessionAuth), Elements(expired[..i]))
      {
        if expired[i] in sessionAuth {
          sessionAuth := sessionAuth[expired[i] := M.Guesses(false, 0)];
        }
        assert expired[..i + 1] == expired[..i] + [expired[i]];
      }
      assert expired[..|expired|] == expired;
      assert Expired(old(timeouts.lockoutExpiry), now) == M.ExpiredLockouts(old(Model()), now);
    }

    method ExpirePending(now: Instant) returns (torn: seq<M.Abandoned>)
      modifies this`pending, timeouts
      ensures Model() == M.Apply(old(Model()), M.CExpire(now))
      ensures Reports(torn, old(pending), M.ExpiredPrompts(old(Model()), now) * old(pending).Keys)
    {
      var expired := timeouts.ExpiredPrompts(now);
      assert Expired(old(timeouts.promptExpiry), now) == M.ExpiredPrompts(old(Model()), now);
      torn := TakeAll(expired, Expired(old(timeouts.promptExpiry), now));
    }

    method AbandonSession(s: SessionId) returns (torn: seq<M.Abandoned>)
      modifies this`pending, timeouts
      ensures Model() == M.Apply(old(Model()), M.CAbandonSession(s))
      ensures Reports(torn, old(pending), M.OpenFor(old(Model()), s))
    {
      var ids := set id | id in pending && pending[id].session == s;
      assert ids == M.OpenFor(Model(), s);
      torn := AbandonWhere(ids);
    }

    method AbandonConnection(conn: ConnId) returns (torn: seq<M.Abandoned>)
      modifies this`pending, timeouts
      ensures Model() == M.Apply(old(Model()), M.CAbandonConnection(conn))
      ensures Reports(torn, old(pending), M.Touching(old(Model()), conn))
    {
      var ids := set id | id in pending && (pending[id].compositor == conn || pending[id].requester == conn);
      assert ids == M.Touching(Model(), conn);
      torn := AbandonWhere(ids);
    }

    /** Collect the matching ids, in whatever order the table is walked, then take
        each out. */
    method AbandonWhere(ids: set<RequestId>) returns (torn: seq<M.Abandoned>)
      requires ids <= pending.Keys
      modifies this`pending, timeouts
      ensures Model() == M.Close(old(Model()), ids)
      ensures Reports(torn, old(pending), ids)
    {
      var listed: seq<RequestId> := [];
      var unseen := ids;
      while unseen != {}
        invariant unseen <= ids && Lists(listed, ids - unseen)
        invariant Model() == old(Model())
        decreases unseen
      {
        var id :| id in unseen;
        assert id !in listed by { assert id !in (set x | x in listed); }
        ListsSnoc(listed, ids - unseen, id);
        listed := listed + [id];
        assert ids - unseen + {id} == ids - (unseen - {id});
        unseen := unseen - {id};
      }
      assert ids - unseen == ids && ids * pending.Keys == ids;
      torn := TakeAll(listed, ids);
    }

    method TakeAll(listed: seq<RequestId>, ghost ids: set<RequestId>) returns (torn: seq<M.Abandoned>)
      requires Lists(listed, ids)
      modifies this`pending, timeouts
      ensures Model() == M.Close(old(Model()), ids)
      ensures Reports(torn, old(pending), ids * old(pending).Keys)
    {
      torn := [];
      assert old(Model()).pending - {} == pending;
      for i := 0 to |listed|
        invariant nextId == old(nextId) && sessionAuth == old(sessionAuth)
        invariant timeouts.lockoutExpiry == old(timeouts.lockoutExpiry)
        invariant pending == old(pending) - Elements(listed[..i])
        invariant timeouts.promptExpiry == old(timeouts.promptExpiry) - Elements(listed[..i])
        invariant Reports(torn, old(pending), Elements(listed[..i]) * old(pending).Keys)
      {
        ghost var done := Elements(listed[..i]);
        assert listed[i] !in done;
        var taken := TakeAbandoned(listed[i]);
        assert listed[..i + 1] == listed[..i] + [listed[i]];
        assert Elements(listed[..i + 1]) == done + {listed[i]};
        if taken.Some? {
          ReportsSnoc(torn, old(pending), done * old(pending).Keys, listed[i]);
          torn := torn + [taken.value];
          assert (done + {listed[i]}) * old(pending).Keys == done * old(pending).Keys + {listed[i]};
        } else {
          assert (done + {listed[i]}) * old(pending).Keys == done * old(pending).Keys;
        }
      }
      assert listed[..|listed|] == listed;
    }

    method TakeAbandoned(id: RequestId) returns (taken: Option<M.Abandoned>)
      modifies this`pending, timeouts`promptExpiry
      ensures pending == old(pending) - {id}
      ensures timeouts.promptExpiry == old(timeouts.promptExpiry) - {id}
      ensures taken == if id in old(pending) then Some(M.Abandoned(id, old(pending)[id])) else None
    {
      timeouts.CancelPrompt(id);
      if id !in pending {
        assert pending - {id} == pending;
        return None;
      }
      var prompt := pending[id];
      pending := pending - {id};
      return Some(M.Abandoned(id, prompt));
    }
  }
}
