/** The lock manager as the daemon owns it, with its inhibitors and timers. */
module LockManagers {
  import opened Common
  import opened Authentication
  import opened Timers
  import M = LockModel

  class LockTimeouts {
    var lockoutExpiry: map<SessionId, Instant>

    constructor ()
      ensures lockoutExpiry == map[]
    {
      lockoutExpiry := map[];
    }

    method StartLockout(s: SessionId, now: Instant, lockout: Duration)
      modifies this
      ensures lockoutExpiry == old(lockoutExpiry)[s := now + lockout]
    {
      lockoutExpiry := lockoutExpiry[s := now + lockout];
    }

    method ExpiredLockouts(now: Instant) returns (expired: seq<SessionId>)
      modifies this
      ensures Lists(expired, Expired(old(lockoutExpiry), now))
      ensures lockoutExpiry == old(lockoutExpiry) - Expired(old(lockoutExpiry), now)
    {
      lockoutExpiry, expired := DrainExpired(lockoutExpiry, now);
    }
  }

  class InhibitorRegistry {
    var inhibitors: map<nat, M.Inhibitor>
    var nextId: nat

    constructor ()
      ensures inhibitors == map[] && nextId == 0
    {
      inhibitors, nextId := map[], 0;
    }

    method Add(inhibitor: M.Inhibitor) returns (id: nat)
      modifies this
      ensures id == nextId == old(nextId) + 1
      ensures inhibitors == old(inhibitors)[id := inhibitor]
    {
      nextId := nextId + 1;
      id := nextId;
      inhibitors := inhibitors[id := inhibitor];
    }

    method Remove(id: nat) returns (found: bool)
      modifies this`inhibitors
      ensures found <==> id in old(inhibitors)
      ensures inhibitors == old(inhibitors) - {id}
    {
      found := id in inhibitors;
      inhibitors := inhibitors - {id};
    }

    /** Is some `Block` inhibitor of this kind held? */
    method Blocks(what: M.InhibitWhat) returns (blocked: bool)
      ensures blocked <==>
                exists id :: id in inhibitors && inhibitors[id].what == what && inhibitors[id].mode == M.Block
    {
      var unseen := inhibitors.Keys;
      while unseen != {}
        invariant unseen <= inhibitors.Keys
        invariant forall id :: id in inhibitors && id !in unseen ==>
                !(inhibitors[id].what == what && inhibitors[id].mode == M.Block)
        decreases unseen
      {
        var id :| id in unseen;
        if inhibitors[id].what == what && inhibitors[id].mode == M.Block {
          return true;
        }
        unseen := unseen - {id};
      }
      return false;
    }

    /** The `Delay` inhibitors of this kind. */
    function Delayers(what: M.InhibitWhat): set<nat>
      reads this
    {
      set id | id in inhibitors && inhibitors[id].what == what && inhibitors[id].mode == M.Delay
    }
  }

  class LockManager {
    var locks: map<SessionId, M.SessionLock>
    const inhibitors: InhibitorRegistry
    const timeouts: LockTimeouts

    ghost function Model(): M.Locks
      reads this, inhibitors, timeouts
    {
      M.Locks(locks, inhibitors.inhibitors, inhibitors.nextId, timeouts.lockoutExpiry)
    }

    constructor ()
      ensures Model() == M.NOTHING_LOCKED && fresh(inhibitors) && fresh(timeouts)
    {
      locks := map[];
      inhibitors := new InhibitorRegistry();
      timeouts := new LockTimeouts();
    }

    method IsLocked(s: SessionId) returns (locked: bool)
      ensures locked == M.IsLocked(Model(), s)
    {
      locked := s in locks && (locks[s].state.Locked? || locks[s].state.LockedOut?);
    }

    method Lock(s: SessionId, policy: M.LockPolicy) returns (ok: bool)
      modifies this
      ensures ok == M.MayLock(old(Model()), policy)
      ensures Model() == M.Apply(old(Model()), M.CLock({s}, policy))
    {
      if !policy.enabled {
        return false;
      }
      var blocked := inhibitors.Blocks(M.InhibitLock);
      assert blocked == M.Blocks(Model(), M.InhibitLock);
      if blocked {
        return false;
      }
      var entry := if s in locks then locks[s] else M.SessionLock(M.Unlocked, 0);
      locks := locks[s := entry.(state := M.Locked)];
      assert locks == old(locks) + map t | t in {s} :: M.SessionLock(M.Locked, M.LockOf(old(Model()), t).attempts);
      return true;
    }

    method AttemptUnlock(s: SessionId, accepted: bool, auth: AuthPolicy, now: Instant) returns (outcome: AuthOutcome)
      modifies this, timeouts
      ensures outcome == M.UnlockOutcome(old(Model()), s, accepted, auth)
      ensures Model() == M.Apply(old(Model()), M.CUnlock(s, accepted, auth, now))
    {
      var entry := if s in locks then locks[s] else M.SessionLock(M.Unlocked, 0);
      locks := locks[s := entry];
      if entry.state.LockedOut? {
        assert locks == old(locks);
        return AuthOutcome.LockedOut(auth.lockout);
      }
      var attempts: nat;
      outcome, attempts := Check(accepted, auth, entry.attempts);
      entry := entry.(attempts := attempts);
      match outcome {
        case Success => entry := entry.(state := M.Unlocked);
        case LockedOut(_) =>
          entry := entry.(state := M.LockState.LockedOut);
          timeouts.StartLockout(s, now, auth.lockout);
        case _ =>
      }
      locks := locks[s := entry];
    }

    method ClearLockout(s: SessionId)
      modifies this
      ensures locks == M.Freed(old(locks), {s})
    {
      if s in locks && locks[s].state.LockedOut? {
        locks := locks[s := M.SessionLock(M.Locked, 0)];
      }
    }

    method AddInhibitor(inhibitor: M.Inhibitor) returns (id: nat)
      modifies inhibitors
      ensures id == old(Model()).nextInhibitor + 1
      ensures Model() == M.Apply(old(Model()), M.CInhibit(inhibitor))
    {
      id := inhibitors.Add(inhibitor);
    }

    method ReleaseInhibitor(id: nat) returns (found: bool)
      modifies inhibitors`inhibitors
      ensures found <==> id in old(Model()).inhibitors
      ensures Model() == M.Apply(old(Model()), M.CRelease(id))
    {
      found := inhibitors.Remove(id);
    }

    /** End every lockout whose timer has run out. */
    method SweepLockouts(now: Instant)
      modifies this, timeouts
      ensures Model() == M.Apply(old(Model()), M.CSweep(now))
    {
      var expired := timeouts.ExpiredLockouts(now);
      assert M.Freed(locks, {}) == locks;
      for i := 0 to |expired|
        invariant timeouts.lockoutExpiry == old(timeouts.lockoutExpiry) - Expired(old(timeouts.lockoutExpiry), now)
        invariant locks == M.Freed(old(locks), Elements(expired[..i]))
      {
        ClearLockout(expired[i]);
        assert expired[..i + 1] == expired[..i] + [expired[i]];
      }
      assert expired[..|expired|] == expired;
      assert Expired(old(timeouts.lockoutExpiry), now) == M.ExpiredLockouts(old(Model()), now);
    }
  }
}
