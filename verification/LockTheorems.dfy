/** What every history of calls on the lock manager guarantees. */
module LockTheorems {
  import opened Common
  import opened Authentication
  import opened LockModel

  // ---- a locked session stays locked -------------------------------------------

  /** The one call that opens the lock of `s`: an accepted password, offered while
      the session is not serving a lockout. */
  predicate Opens(l: Locks, call: Call, s: SessionId) {
    call.CUnlock? && call.session == s && call.accepted && !LockOf(l, s).state.LockedOut?
  }

  lemma UnlockedOnlyByPassword(l: Locks, call: Call, s: SessionId)
    requires IsLocked(l, s)
    ensures !IsLocked(Apply(l, call), s) <==> Opens(l, call, s)
  {
  }

  /** Over any history: a locked session is still locked at the end unless some
      call along the way was an accepted password for it. */
  lemma {:induction false} StaysLocked(l: Locks, calls: seq<Call>, s: SessionId)
    requires IsLocked(l, s)
    requires forall k :: 0 <= k < |calls| ==> !Opens(After(l, calls[..k]), calls[k], s)
    ensures IsLocked(After(l, calls), s)
  {
    if calls != [] {
      var n := |calls| - 1;
      assert forall k :: 0 <= k < n ==> calls[..n][..k] == calls[..k];
      StaysLocked(l, calls[..n], s);
      UnlockedOnlyByPassword(After(l, calls[..n]), calls[n], s);
    }
  }

  // ---- a lockout always ends ---------------------------------------------------

  /** A locked-out session always has a timer running. */
  ghost predicate Timed(l: Locks) {
    forall s :: LockOf(l, s).state.LockedOut? ==> s in l.lockoutExpiry
  }

  lemma {:induction false} AlwaysTimed(calls: seq<Call>)
    ensures Timed(After(NOTHING_LOCKED, calls))
  {
    if calls != [] {
      AlwaysTimed(calls[..|calls| - 1]);
    }
  }

  /** After any history, a locked-out session is let back to plain Locked, with a
      clean counter, by exactly those sweeps that come at or past its timer. */
  lemma LockoutEnds(calls: seq<Call>, s: SessionId, now: Instant)
    requires LockOf(After(NOTHING_LOCKED, calls), s).state.LockedOut?
    ensures s in After(NOTHING_LOCKED, calls).lockoutExpiry
    ensures var l := After(NOTHING_LOCKED, calls);
            LockOf(Sweep(l, now), s) == if l.lockoutExpiry[s] <= now then SessionLock(Locked, 0) else LockOf(l, s)
  {
    AlwaysTimed(calls);
  }

  // ---- the guess bound -----------------------------------------------------------

  predicate FailsOn(l: Locks, call: Call, s: SessionId) {
    call.CUnlock? && call.session == s && !call.accepted && !LockOf(l, s).state.LockedOut?
  }

  predicate Resets(l: Locks, call: Call, s: SessionId) {
    || Opens(l, call, s)
    || (call.CSweep? && s in ExpiredLockouts(l, call.now) && LockOf(l, s).state.LockedOut?)
  }

  /** Locking again while locked out re-opens the guessing early. */
  predicate Relocks(l: Locks, call: Call, s: SessionId) {
    call.CLock? && s in call.ids && MayLock(l, call.policy) && LockOf(l, s).state.LockedOut?
  }

  datatype Tally = Tally(failed: nat, relocked: nat)

  /** Wrong guesses checked, and locks engaged over a lockout, along a history. */
  function Count(l: Locks, calls: seq<Call>, s: SessionId): Tally {
    if calls == [] then Tally(0, 0)
    else
      var n := |calls| - 1;
      var t := Count(l, calls[..n], s);
      var now := After(l, calls[..n]);
      Tally(t.failed + (if FailsOn(now, calls[n], s) then 1 else 0),
            t.relocked + (if Relocks(now, calls[n], s) then 1 else 0))
  }

  predicate NoReset(l: Locks, calls: seq<Call>, s: SessionId) {
    forall k :: 0 <= k < |calls| ==> !Resets(After(l, calls[..k]), calls[k], s)
  }

  predicate Under(calls: seq<Call>, auth: AuthPolicy) {
    forall k :: 0 <= k < |calls| ==> calls[k].CUnlock? ==> calls[k].auth == auth
  }

  /** Wrong guesses the session would still be allowed right now. */
  function Potential(l: Locks, s: SessionId, auth: AuthPolicy): nat {
    var k := LockOf(l, s);
    if k.state.LockedOut? then 0 else if k.attempts < Budget(auth) then Budget(auth) - k.attempts else 1
  }

  /** Under fixed settings, a locked-out session has used up its limit. */
  predicate Spent(l: Locks, s: SessionId, auth: AuthPolicy) {
    LockOf(l, s).state.LockedOut? ==> LockOf(l, s).attempts >= Budget(auth)
  }

  lemma {:induction false} AlwaysSpent(l: Locks, calls: seq<Call>, s: SessionId, auth: AuthPolicy)
    requires Under(calls, auth) && Spent(l, s, auth)
    ensures Spent(After(l, calls), s, auth)
  {
    if calls != [] {
      AlwaysSpent(l, calls[..|calls| - 1], s, auth);
    }
  }

  lemma PotentialStep(l: Locks, call: Call, s: SessionId, auth: AuthPolicy)
    requires call.CUnlock? ==> call.auth == auth
    requires Spent(l, s, auth) && !Resets(l, call, s)
    ensures Potential(Apply(l, call), s, auth) + (if FailsOn(l, call, s) then 1 else 0)
         <= Potential(l, s, auth) + (if Relocks(l, call, s) then 1 else 0)
  {
    match call
    case CLock(ids, policy) =>
      assert LockOf(Apply(l, call), s) ==
        if MayLock(l, policy) && s in ids then SessionLock(Locked, LockOf(l, s).attempts) else LockOf(l, s);
    case CSweep(now) => assert LockOf(Apply(l, call), s) == LockOf(l, s);
    case _ =>
  }

  lemma {:induction false} PotentialPays(l: Locks, window: seq<Call>, s: SessionId, auth: AuthPolicy)
    requires Under(window, auth) && Spent(l, s, auth) && NoReset(l, window, s)
    ensures Count(l, window, s).failed + Potential(After(l, window), s, auth)
         <= Potential(l, s, auth) + Count(l, window, s).relocked
  {
    if window != [] {
      var n := |window| - 1;
      forall k | 0 <= k < n ensures !Resets(After(l, window[..n][..k]), window[..n][k], s) {
        assert window[..n][..k] == window[..k];
      }
      PotentialPays(l, window[..n], s, auth);
      AlwaysSpent(l, window[..n], s, auth);
      PotentialStep(After(l, window[..n]), window[n], s, auth);
    }
  }

  /** From any reachable state: between two moments at which the counter is
      forgiven, the wrong guesses checked on a session are at most the limit plus
      the number of times it was locked again while locked out. */
  lemma GuessBound(history: seq<Call>, window: seq<Call>, s: SessionId, auth: AuthPolicy)
    requires Under(history, auth) && Under(window, auth)
    requires NoReset(After(NOTHING_LOCKED, history), window, s)
    ensures var t := Count(After(NOTHING_LOCKED, history), window, s);
            t.failed <= Budget(auth) + t.relocked
  {
    AlwaysSpent(NOTHING_LOCKED, history, s, auth);
    PotentialPays(After(NOTHING_LOCKED, history), window, s, auth);
  }

  /** The extra term is real: a session that is locked again while locked out is
      checked once more, with its counter already past the limit. */
  lemma RelockGrantsOneGuess(l: Locks, s: SessionId, policy: LockPolicy, auth: AuthPolicy, now: Instant)
    requires LockOf(l, s).state.LockedOut? && LockOf(l, s).attempts >= Budget(auth) && MayLock(l, policy)
    ensures var again := Apply(l, CLock({s}, policy));
            var guess := CUnlock(s, false, auth, now);
            && Relocks(l, CLock({s}, policy), s)
            && FailsOn(again, guess, s)
            && LockOf(Apply(again, guess), s).state.LockedOut?
            && !FailsOn(Apply(again, guess), guess, s)
  {
    var again := Apply(l, CLock({s}, policy));
    assert s in again.locks && LockOf(again, s) == SessionLock(Locked, LockOf(l, s).attempts);
  }

  // ---- sessions do not interfere ---------------------------------------------------

  /** The calls of a history that can concern session `s`: those naming it, the
      sweeps, and the inhibitors, which are global. */
  function Concerning(calls: seq<Call>, s: SessionId): seq<Call> {
    if calls == [] then []
    else
      var n := |calls| - 1;
      var rest := Concerning(calls[..n], s);
      match calls[n]
      case CLock(ids, policy) => if s in ids then rest + [CLock({s}, policy)] else rest
      case CUnlock(t, _, _, _) => if t == s then rest + [calls[n]] else rest
      case _ => rest + [calls[n]]
  }

  /** Everything the manager knows that bears on session `s`. */
  ghost predicate SameFor(a: Locks, b: Locks, s: SessionId) {
    && LockOf(a, s) == LockOf(b, s)
    && (s in a.lockoutExpiry <==> s in b.lockoutExpiry)
    && (s in a.lockoutExpiry ==> a.lockoutExpiry[s] == b.lockoutExpiry[s])
    && a.inhibitors == b.inhibitors && a.nextInhibitor == b.nextInhibitor
  }

  lemma SameForUnlock(a: Locks, b: Locks, call: Call, s: SessionId)
    requires SameFor(a, b, s) && call.CUnlock? && call.session == s
    ensures SameFor(Apply(a, call), Apply(b, call), s)
  {
    hide Verdict;
  }

  lemma SameForShared(a: Locks, b: Locks, call: Call, s: SessionId)
    requires SameFor(a, b, s) && (call.CSweep? || call.CInhibit? || call.CRelease?)
    ensures SameFor(Apply(a, call), Apply(b, call), s)
  {
  }

  lemma SameForLock(a: Locks, b: Locks, ids: set<SessionId>, policy: LockPolicy, s: SessionId)
    requires SameFor(a, b, s) && s in ids
    ensures SameFor(Apply(a, CLock(ids, policy)), Apply(b, CLock({s}, policy)), s)
  {
    assert MayLock(a, policy) <==> MayLock(b, policy);
  }

  lemma Unconcerned(a: Locks, call: Call, s: SessionId)
    requires (call.CLock? && s !in call.ids) || (call.CUnlock? && call.session != s)
    ensures SameFor(Apply(a, call), a, s)
  {
  }

  /** Session independence: after any interleaving, the lock, counter and timer of
      `s` are what its own calls, the sweeps and the inhibitor changes alone would
      have produced. */
  lemma {:induction false} Independence(l: Locks, calls: seq<Call>, s: SessionId)
    ensures SameFor(After(l, calls), After(l, Concerning(calls, s)), s)
  {
    hide Apply; hide LockOf;
    if calls != [] {
      var n := |calls| - 1;
      var rest := Concerning(calls[..n], s);
      Independence(l, calls[..n], s);
      match calls[n] {
        case CLock(ids, policy) =>
          if s in ids {
            AfterSnoc(l, rest, CLock({s}, policy));
            SameForLock(After(l, calls[..n]), After(l, rest), ids, policy, s);
          } else {
            Unconcerned(After(l, calls[..n]), calls[n], s);
          }
        case CUnlock(t, _, _, _) =>
          if t == s {
            AfterSnoc(l, rest, calls[n]);
            SameForUnlock(After(l, calls[..n]), After(l, rest), calls[n], s);
          } else {
            Unconcerned(After(l, calls[..n]), calls[n], s);
          }
        case _ =>
          AfterSnoc(l, rest, calls[n]);
          SameForShared(After(l, calls[..n]), After(l, rest), calls[n], s);
      }
    }
  }

  /** And so every verdict the session gets next is the same as well. */
  lemma IndependentVerdicts(l: Locks, calls: seq<Call>, s: SessionId, accepted: bool, auth: AuthPolicy)
    ensures UnlockOutcome(After(l, calls), s, accepted, auth)
         == UnlockOutcome(After(l, Concerning(calls, s)), s, accepted, auth)
  {
    Independence(l, calls, s);
  }

  // ---- the bound is met -------------------------------------------------------------

  function WrongGuess(s: SessionId, auth: AuthPolicy): Call {
    CUnlock(s, false, auth, 0)
  }

  function Relock(s: SessionId, policy: LockPolicy): Call {
    CLock({s}, policy)
  }

  /** `calls` uses up the limit on `s` and then gets one more guess for each of
      `relocks` locks made during the lockout, with nothing forgiven in between. */
  ghost predicate Spends(calls: seq<Call>, s: SessionId, auth: AuthPolicy, policy: LockPolicy, failed: nat,
                         relocks: nat) {
    && (forall k :: 0 <= k < |calls| ==> calls[k] == WrongGuess(s, auth) || calls[k] == Relock(s, policy))
    && Under(calls, auth) && NoReset(NOTHING_LOCKED, calls, s)
    && Count(NOTHING_LOCKED, calls, s) == Tally(failed, relocks)
    && After(NOTHING_LOCKED, calls).inhibitors == map[]
    && LockOf(After(NOTHING_LOCKED, calls), s).attempts == failed
    && (LockOf(After(NOTHING_LOCKED, calls), s).state.LockedOut? <==> failed >= Budget(auth))
  }

  lemma SpendsMore(calls: seq<Call>, call: Call, s: SessionId)
    requires NoReset(NOTHING_LOCKED, calls, s) && !Resets(After(NOTHING_LOCKED, calls), call, s)
    ensures NoReset(NOTHING_LOCKED, calls + [call], s)
    ensures var l := After(NOTHING_LOCKED, calls);
            var t := Count(NOTHING_LOCKED, calls, s);
            var t' := Count(NOTHING_LOCKED, calls + [call], s);
            && t'.failed == t.failed + (if FailsOn(l, call, s) then 1 else 0)
            && t'.relocked == t.relocked + (if Relocks(l, call, s) then 1 else 0)
  {
    hide Apply; hide Resets; hide FailsOn; hide Relocks;
    var more := calls + [call];
    assert more[..|calls|] == calls;
    forall k | 0 <= k < |more| ensures !Resets(After(NOTHING_LOCKED, more[..k]), more[k], s) {
      if k < |calls| { assert more[..k] == calls[..k]; }
    }
  }

  lemma {:induction false} UseUp(n: nat, s: SessionId, auth: AuthPolicy, policy: LockPolicy) returns (calls: seq<Call>)
    requires n <= Budget(auth)
    ensures Spends(calls, s, auth, policy, n, 0)
  {
    calls := [];
    if n > 0 {
      calls := UseUp(n - 1, s, auth, policy);
      SpendsMore(calls, WrongGuess(s, auth), s);
      AfterSnoc(NOTHING_LOCKED, calls, WrongGuess(s, auth));
      calls := calls + [WrongGuess(s, auth)];
    }
  }

  /** The bound cannot be lowered: for every limit and every number of relocks there
      is a history that makes exactly that many wrong guesses, none forgiven. */
  lemma {:induction false} GuessBoundIsTight(relocks: nat, s: SessionId, auth: AuthPolicy, policy: LockPolicy)
    returns (calls: seq<Call>)
    requires policy.enabled
    ensures Under(calls, auth) && NoReset(NOTHING_LOCKED, calls, s)
    ensures Count(NOTHING_LOCKED, calls, s) == Tally(Budget(auth) + relocks, relocks)
    ensures Spends(calls, s, auth, policy, Budget(auth) + relocks, relocks)
  {
    if relocks == 0 {
      calls := UseUp(Budget(auth), s, auth, policy);
    } else {
      calls := GuessBoundIsTight(relocks - 1, s, auth, policy);
      calls := OneRelockMore(calls, relocks - 1, s, auth, policy);
    }
  }

  lemma OneRelockMore(calls: seq<Call>, relocks: nat, s: SessionId, auth: AuthPolicy, policy: LockPolicy)
    returns (more: seq<Call>)
    requires policy.enabled && Spends(calls, s, auth, policy, Budget(auth) + relocks, relocks)
    ensures Spends(more, s, auth, policy, Budget(auth) + relocks + 1, relocks + 1)
  {
    hide NoReset; hide Count; hide After;
    var l := After(NOTHING_LOCKED, calls);
    SpendsMore(calls, Relock(s, policy), s);
    AfterSnoc(NOTHING_LOCKED, calls, Relock(s, policy));
    assert LockOf(Apply(l, Relock(s, policy)), s) == SessionLock(Locked, LockOf(l, s).attempts);
    var again := calls + [Relock(s, policy)];
    SpendsMore(again, WrongGuess(s, auth), s);
    AfterSnoc(NOTHING_LOCKED, again, WrongGuess(s, auth));
    more := again + [WrongGuess(s, auth)];
  }

  // ---- how long a lockout lasts --------------------------------------------------------

  /** The call is a refused check that reaches the limit. */
  predicate LocksOut(l: Locks, call: Call, s: SessionId) {
    FailsOn(l, call, s) && LockOf(l, s).attempts + 1 >= Budget(call.auth)
  }

  /** The call is a sweep made at or past the end of the lockout that `guess` started. */
  predicate SweepsLockout(call: Call, guess: Call) {
    call.CSweep? && guess.CUnlock? && call.now >= guess.now + guess.auth.lockout
  }

  /** The call engages the lock of `s`. */
  predicate Engages(l: Locks, call: Call, s: SessionId) {
    call.CLock? && s in call.ids && MayLock(l, call.policy)
  }

  predicate LockingOut(calls: seq<Call>, s: SessionId, k: nat)
    requires k < |calls|
  {
    LocksOut(After(NOTHING_LOCKED, calls[..k]), calls[k], s)
  }

  predicate FreedAt(calls: seq<Call>, s: SessionId, k: nat, j: nat)
    requires k < |calls| && j < |calls|
  {
    SweepsLockout(calls[j], calls[k]) || Engages(After(NOTHING_LOCKED, calls[..j]), calls[j], s)
  }

  /** Call `k` locked `s` out, and no later call was a sweep that came when that
      lockout was over, or engaged the lock again. */
  predicate LockedOutBy(calls: seq<Call>, s: SessionId, k: nat)
    requires k < |calls|
  {
    LockingOut(calls, s, k) && forall j :: k < j < |calls| ==> !FreedAt(calls, s, k, j)
  }

  /** One call enters a lockout, leaves it, or neither, and what starts its timer. */
  lemma LockoutStep(l: Locks, call: Call, s: SessionId)
    requires LockOf(l, s).state.LockedOut? ==> s in l.lockoutExpiry
    ensures var l' := Apply(l, call);
      if LockOf(l, s).state.LockedOut? then
        && !LocksOut(l, call, s)
        && (LockOf(l', s).state.LockedOut? <==>
              !Engages(l, call, s) && !(call.CSweep? && call.now >= l.lockoutExpiry[s]))
        && (LockOf(l', s).state.LockedOut? ==> s in l'.lockoutExpiry && l'.lockoutExpiry[s] == l.lockoutExpiry[s])
      else
        && (LockOf(l', s).state.LockedOut? <==> LocksOut(l, call, s))
        && (LocksOut(l, call, s) ==> s in l'.lockoutExpiry && l'.lockoutExpiry[s] == call.now + call.auth.lockout)
  {
  }

  lemma LockedOutByPrefix(calls: seq<Call>, s: SessionId, k: nat)
    requires k < |calls| - 1
    ensures LockedOutBy(calls, s, k) <==>
              LockedOutBy(calls[..|calls| - 1], s, k) && !FreedAt(calls, s, k, |calls| - 1)
  {
    hide After; hide LocksOut; hide SweepsLockout; hide Engages;
    var n := |calls| - 1;
    forall j: nat | j < n
      ensures LockingOut(calls[..n], s, j) <==> LockingOut(calls, s, j)
      ensures FreedAt(calls[..n], s, k, j) <==> FreedAt(calls, s, k, j)
    {
      assert calls[..n][..j] == calls[..j];
    }
  }

  /** Lockout and timer are those of the one check that still holds the session. */
  ghost predicate Held(l: Locks, calls: seq<Call>, s: SessionId) {
    && (LockOf(l, s).state.LockedOut? <==> exists k: nat :: k < |calls| && LockedOutBy(calls, s, k))
    && (forall k: nat :: k < |calls| && LockedOutBy(calls, s, k) ==>
          && calls[k].CUnlock? && s in l.lockoutExpiry
          && l.lockoutExpiry[s] == calls[k].now + calls[k].auth.lockout)
  }

  lemma LocksByCheck(l: Locks, call: Call, s: SessionId)
    requires LocksOut(l, call, s)
    ensures call.CUnlock?
  {
  }

  lemma HeldStep(calls: seq<Call>, s: SessionId)
    requires calls != [] && Held(After(NOTHING_LOCKED, calls[..|calls| - 1]), calls[..|calls| - 1], s)
    ensures Held(After(NOTHING_LOCKED, calls), calls, s)
  {
    hide After; hide Apply; hide LocksOut; hide LockedOutBy; hide Engages; hide LockOf;
    var n := |calls| - 1;
    var before := After(NOTHING_LOCKED, calls[..n]);
    assert calls == calls[..n] + [calls[n]];
    AfterSnoc(NOTHING_LOCKED, calls[..n], calls[n]);
    LockoutStep(before, calls[n], s);
    if LocksOut(before, calls[n], s) { LocksByCheck(before, calls[n], s); }
    LastHolds(calls, s);
    forall k: nat | k < n
      ensures LockedOutBy(calls, s, k) <==> LockedOutBy(calls[..n], s, k) && !FreedAt(calls, s, k, n)
    {
      LockedOutByPrefix(calls, s, k);
    }
  }

  lemma LastHolds(calls: seq<Call>, s: SessionId)
    requires calls != []
    ensures var n := |calls| - 1;
            LockedOutBy(calls, s, n) <==> LocksOut(After(NOTHING_LOCKED, calls[..n]), calls[n], s)
  {
    hide After; hide LocksOut;
  }

  lemma {:induction false} AlwaysHeld(calls: seq<Call>, s: SessionId)
    ensures Held(After(NOTHING_LOCKED, calls), calls, s)
  {
    if calls != [] {
      AlwaysHeld(calls[..|calls| - 1], s);
      HeldStep(calls, s);
    }
  }

  /** The lockout window is exact. After any history a session is locked out
      precisely when some refused check reached the limit and since then no sweep has
      come at or past the end of that lockout and nothing has locked it again. */
  lemma LockoutWindow(calls: seq<Call>, s: SessionId)
    ensures LockOf(After(NOTHING_LOCKED, calls), s).state.LockedOut?
       <==> exists k: nat :: k < |calls| && LockedOutBy(calls, s, k)
  {
    AlwaysHeld(calls, s);
  }

  // ---- which inhibitors are held ---------------------------------------------------------

  /** The id handed out for call `k`, an inhibitor: how many there have been. */
  function GrantedId(calls: seq<Call>, k: nat): nat
    requires k < |calls|
  {
    Inhibits(calls[..k]) + 1
  }

  function Inhibits(calls: seq<Call>): nat {
    if calls == [] then 0 else Inhibits(calls[..|calls| - 1]) + if calls[|calls| - 1].CInhibit? then 1 else 0
  }

  /** Call `k` took out inhibitor `id`, and no later one has released it. */
  ghost predicate HeldSince(calls: seq<Call>, id: nat, i: Inhibitor, k: nat) {
    && k < |calls| && calls[k] == CInhibit(i) && GrantedId(calls, k) == id
    && forall j :: k < j < |calls| ==> calls[j] != CRelease(id)
  }

  ghost predicate Taken(calls: seq<Call>, id: nat, i: Inhibitor) {
    exists k: nat :: HeldSince(calls, id, i, k)
  }

  lemma TakenSnoc(calls: seq<Call>, id: nat, i: Inhibitor)
    requires calls != []
    ensures var n := |calls| - 1;
            Taken(calls, id, i) <==>
              || (calls[n] == CInhibit(i) && id == Inhibits(calls[..n]) + 1)
              || (Taken(calls[..n], id, i) && calls[n] != CRelease(id))
  {
    var n := |calls| - 1;
    var earlier := calls[..n];
    forall k: nat | k < n
      ensures HeldSince(calls, id, i, k) <==> HeldSince(earlier, id, i, k) && calls[n] != CRelease(id)
    {
      assert earlier[..k] == calls[..k];
    }
    assert HeldSince(calls, id, i, n) <==> calls[n] == CInhibit(i) && id == Inhibits(earlier) + 1;
    if k: nat :| HeldSince(earlier, id, i, k) { assert calls[n] != CRelease(id) ==> HeldSince(calls, id, i, k); }
  }

  /** The inhibitors held after any history are exactly those taken out and not released
      since, each under the id it was given, and no id is given twice. */
  lemma {:induction false} HeldExactly(calls: seq<Call>, id: nat, i: Inhibitor)
    ensures var l := After(NOTHING_LOCKED, calls);
            && l.nextInhibitor == Inhibits(calls)
            && (id in l.inhibitors ==> id <= l.nextInhibitor)
            && (id in l.inhibitors && l.inhibitors[id] == i <==> Taken(calls, id, i))
  {
    hide Taken;
    if calls == [] {
      NothingTaken(id, i);
    } else {
      var n := |calls| - 1;
      HeldExactly(calls[..n], id, i);
      TakenSnoc(calls, id, i);
    }
  }

  lemma NothingTaken(id: nat, i: Inhibitor)
    ensures !Taken([], id, i)
  {
  }

  /** So something is blocked exactly while a blocking inhibitor of that kind is held. */
  lemma BlockedExactly(calls: seq<Call>, what: InhibitWhat)
    ensures Blocks(After(NOTHING_LOCKED, calls), what) <==>
              exists id, i :: Taken(calls, id, i) && i.what == what && i.mode == Block
  {
    hide Taken; hide After;
    var held := After(NOTHING_LOCKED, calls).inhibitors;
    forall id, i ensures id in held && held[id] == i <==> Taken(calls, id, i) {
      HeldExactly(calls, id, i);
    }
    if id :| id in held && held[id].what == what && held[id].mode == Block { assert Taken(calls, id, held[id]); }
  }

  /** And likewise delayed. */
  lemma DelayedExactly(calls: seq<Call>, what: InhibitWhat)
    ensures Delays(After(NOTHING_LOCKED, calls), what) <==>
              exists id, i :: Taken(calls, id, i) && i.what == what && i.mode == Delay
  {
    hide Taken; hide After;
    var held := After(NOTHING_LOCKED, calls).inhibitors;
    forall id, i ensures id in held && held[id] == i <==> Taken(calls, id, i) {
      HeldExactly(calls, id, i);
    }
    if id :| id in held && held[id].what == what && held[id].mode == Delay { assert Taken(calls, id, held[id]); }
  }
}
