/** The screen-lock machine of every session, the global inhibitors and the
    lockout timers, as a value. */
module LockModel {
  import opened Common
  import opened Authentication

  datatype LockState = Unlocked | Locked | LockedOut

  datatype SessionLock = SessionLock(state: LockState, attempts: nat)

  datatype InhibitWhat = InhibitIdle | InhibitLock | InhibitSuspend | InhibitShutdown
  datatype InhibitMode = Block | Delay
  datatype Inhibitor = Inhibitor(what: InhibitWhat, who: string, why: string, mode: InhibitMode)

  datatype LockPolicy = LockPolicy(enabled: bool, lockOnIdle: bool, lockOnSuspend: bool)

  datatype Locks = Locks(
    locks: map<SessionId, SessionLock>,
    inhibitors: map<nat, Inhibitor>,
    nextInhibitor: nat,
    lockoutExpiry: map<SessionId, Instant>)

  const NOTHING_LOCKED := Locks(map[], map[], 0, map[])

  function LockOf(l: Locks, s: SessionId): SessionLock {
    if s in l.locks then l.locks[s] else SessionLock(Unlocked, 0)
  }

  predicate IsLocked(l: Locks, s: SessionId) {
    !LockOf(l, s).state.Unlocked?
  }

  predicate Blocks(l: Locks, what: InhibitWhat) {
    exists id :: id in l.inhibitors && l.inhibitors[id].what == what && l.inhibitors[id].mode == Block
  }

  predicate Delays(l: Locks, what: InhibitWhat) {
    exists id :: id in l.inhibitors && l.inhibitors[id].what == what && l.inhibitors[id].mode == Delay
  }

  predicate MayLock(l: Locks, policy: LockPolicy) {
    policy.enabled && !Blocks(l, InhibitLock)
  }

  /** Engage the lock of every session in `ids`, unless locking is off or inhibited. */
  function Engage(l: Locks, ids: set<SessionId>, policy: LockPolicy): Locks {
    if !MayLock(l, policy) then l
    else l.(locks := l.locks + map s | s in ids :: SessionLock(Locked, LockOf(l, s).attempts))
  }

  function UnlockOutcome(l: Locks, s: SessionId, accepted: bool, auth: AuthPolicy): AuthOutcome {
    if LockOf(l, s).state.LockedOut? then AuthOutcome.LockedOut(auth.lockout)
    else Verdict(accepted, auth, LockOf(l, s).attempts).0
  }

  function AttemptUnlock(l: Locks, s: SessionId, accepted: bool, auth: AuthPolicy, now: Instant): Locks {
    var before := LockOf(l, s);
    if before.state.LockedOut? then l
    else
      var verdict := Verdict(accepted, auth, before.attempts);
      match verdict.0
      case Success => l.(locks := l.locks[s := SessionLock(Unlocked, verdict.1)])
      case LockedOut(_) =>
        l.(locks := l.locks[s := SessionLock(LockState.LockedOut, verdict.1)],
           lockoutExpiry := l.lockoutExpiry[s := now + auth.lockout])
      case _ => l.(locks := l.locks[s := SessionLock(before.state, verdict.1)])
  }

  function ExpiredLockouts(l: Locks, now: Instant): set<SessionId> {
    set s | s in l.lockoutExpiry && l.lockoutExpiry[s] <= now
  }

  /** Let the locked-out sessions among `ids` guess again. */
  function Freed(locks: map<SessionId, SessionLock>, ids: set<SessionId>): map<SessionId, SessionLock> {
    map s | s in locks :: if s in ids && locks[s].state.LockedOut? then SessionLock(Locked, 0) else locks[s]
  }

  /** Stop the timers that ran out, and free the sessions they held. */
  function Sweep(l: Locks, now: Instant): Locks {
    var expired := ExpiredLockouts(l, now);
    l.(lockoutExpiry := l.lockoutExpiry - expired, locks := Freed(l.locks, expired))
  }

  /** The calls the daemon makes on the manager. */
  datatype Call =
    | CLock(ids: set<SessionId>, policy: LockPolicy)
    | CUnlock(session: SessionId, accepted: bool, auth: AuthPolicy, now: Instant)
    | CSweep(now: Instant)
    | CInhibit(inhibitor: Inhibitor)
    | CRelease(id: nat)

  function Apply(l: Locks, call: Call): Locks {
    match call
    case CLock(ids, policy) => Engage(l, ids, policy)
    case CUnlock(s, accepted, auth, now) => AttemptUnlock(l, s, accepted, auth, now)
    case CSweep(now) => Sweep(l, now)
    case CInhibit(i) => l.(nextInhibitor := l.nextInhibitor + 1, inhibitors := l.inhibitors[l.nextInhibitor + 1 := i])
    case CRelease(id) => l.(inhibitors := l.inhibitors - {id})
  }

  function After(l: Locks, calls: seq<Call>): Locks {
    if calls == [] then l else Apply(After(l, calls[..|calls| - 1]), calls[|calls| - 1])
  }

  lemma AfterSnoc(l: Locks, calls: seq<Call>, call: Call)
    ensures After(l, calls + [call]) == Apply(After(l, calls), call)
  {
    assert (calls + [call])[..|calls|] == calls;
  }

  lemma {:induction false} AfterAppend(l: Locks, a: seq<Call>, b: seq<Call>)
    ensures After(l, a + b) == After(After(l, a), b)
    decreases |b|
  {
    if b == [] {
      assert a + b == a;
    } else {
      var n := |b| - 1;
      assert a + b == (a + b[..n]) + [b[n]];
      AfterSnoc(l, a + b[..n], b[n]);
      AfterAppend(l, a, b[..n]);
    }
  }
}
