/** How many wrong passwords the elevation flow ever lets through, and for how
    long a session stays locked out of it. */
module ElevationGuessing {
  import opened Common
  import opened Authentication
  import opened ElevationModel
  import opened ElevationTheorems

  // ---- the guess bound ---------------------------------------------------------

  /** The call runs a credential check for session `s`, and it is refused. */
  predicate FailsOn(e: Elevation, call: Call, s: SessionId) {
    call.CAttempt? && !call.accepted && call.id in e.pending && e.pending[call.id].session == s
  }

  /** The call forgives session `s` its earlier guesses: an accepted password, or
      a sweep that finds its lockout over. */
  predicate Resets(e: Elevation, call: Call, s: SessionId) {
    || (call.CAttempt? && call.accepted && call.id in e.pending && e.pending[call.id].session == s)
    || (call.CClearLockouts? && s in ExpiredLockouts(e, call.now))
  }

  function Failed(e: Elevation, calls: seq<Call>, s: SessionId): nat {
    if calls == [] then 0
    else
      var n := |calls| - 1;
      Failed(e, calls[..n], s) + if FailsOn(After(e, calls[..n]), calls[n], s) then 1 else 0
  }

  predicate NoReset(e: Elevation, calls: seq<Call>, s: SessionId) {
    forall k :: 0 <= k < |calls| ==> !Resets(After(e, calls[..k]), calls[k], s)
  }

  /** Guesses left on session `s` before every prompt it could still use is closed. */
  function GuessesLeft(e: Elevation, s: SessionId, auth: AuthPolicy): nat {
    var a := GuessesOf(e, s).attempts;
    if a < Budget(auth) then Budget(auth) - a else 1
  }

  /** An upper bound on the wrong guesses still possible on session `s`. While it
      is not locked out, new prompts may open up to the cap; once it is, only the
      prompts already open can be spent. */
  function Potential(e: Elevation, s: SessionId, policy: ElevationPolicy, auth: AuthPolicy): nat {
    if !IsLockedOut(e, s) then GuessesLeft(e, s, auth) + policy.maxPending - 1
    else if OpenFor(e, s) == {} then 0
    else GuessesLeft(e, s, auth) + |OpenFor(e, s)| - 1
  }

  /** What fixed settings keep true of one session. */
  ghost predicate Bounded(e: Elevation, s: SessionId, policy: ElevationPolicy, auth: AuthPolicy) {
    && Consistent(e)
    && |OpenFor(e, s)| <= policy.maxPending
    && (!IsLockedOut(e, s) ==> GuessesOf(e, s).attempts < Budget(auth))
  }

  lemma BoundedStep(e: Elevation, call: Call, s: SessionId, policy: ElevationPolicy, auth: AuthPolicy)
    requires Bounded(e, s, policy, auth) && Under([call], policy, auth)
    ensures Bounded(Apply(e, call), s, policy, auth)
  {
    assert [call][0] == call;
    ApplyConsistent(e, call);
    CapStep(e, call, s, policy, auth);
  }

  lemma {:induction false} AlwaysBounded(calls: seq<Call>, s: SessionId, policy: ElevationPolicy, auth: AuthPolicy)
    requires Under(calls, policy, auth)
    ensures Bounded(After(EMPTY, calls), s, policy, auth)
  {
    if calls == [] {
      assert OpenFor(EMPTY, s) == {};
    } else {
      var n := |calls| - 1;
      AlwaysBounded(calls[..n], s, policy, auth);
      BoundedStep(After(EMPTY, calls[..n]), calls[n], s, policy, auth);
    }
  }

  /** Closing prompts never buys a guess. */
  lemma ClosePotential(e: Elevation, ids: set<RequestId>, s: SessionId, policy: ElevationPolicy, auth: AuthPolicy)
    requires |OpenFor(e, s)| <= policy.maxPending
    ensures Potential(Close(e, ids), s, policy, auth) <= Potential(e, s, policy, auth)
  {
    OpenForAfterClose(e, ids, s);
  }

  lemma AttemptPotential(e: Elevation, call: Call, s: SessionId, policy: ElevationPolicy, auth: AuthPolicy)
    requires Bounded(e, s, policy, auth) && call.CAttempt? && call.auth == auth
    requires !Resets(e, call, s)
    ensures Potential(Apply(e, call), s, policy, auth) + (if FailsOn(e, call, s) then 1 else 0)
         <= Potential(e, s, policy, auth)
  {
    if call.id in e.pending {
      var t := e.pending[call.id].session;
      var checked := Guessed(e, t, call.accepted, auth, call.now);
      assert OpenFor(checked, s) == OpenFor(e, s);
      if t != s {
        assert GuessesOf(checked, s) == GuessesOf(e, s);
        ClosePotential(checked, {call.id}, s, policy, auth);
      } else {
        assert call.id in OpenFor(e, s);
        OpenForAfterClose(checked, {call.id}, s);
        assert |OpenFor(e, s) - {call.id}| == |OpenFor(e, s)| - 1;
      }
    }
  }

  lemma BeginPotential(e: Elevation, call: Call, s: SessionId, policy: ElevationPolicy, auth: AuthPolicy)
    requires Bounded(e, s, policy, auth) && call.CBegin? && call.policy == policy && call.auth == auth
    ensures Potential(Apply(e, call), s, policy, auth) <= Potential(e, s, policy, auth)
  {
    if BeginOutcome(e, call.session, policy, auth).Opened? {
      var p := Prompt(call.session, call.compositor, call.requester);
      OpenForAfterBegin(e, s, e.nextId + 1, p);
      OpenForSame(e.(pending := e.pending[e.nextId + 1 := p]), Apply(e, call), s);
      hide OpenFor;
    }
  }

  lemma ClearPotential(e: Elevation, now: Instant, s: SessionId, policy: ElevationPolicy, auth: AuthPolicy)
    requires s !in ExpiredLockouts(e, now)
    ensures Potential(ClearLockouts(e, now), s, policy, auth) == Potential(e, s, policy, auth)
  {
    assert OpenFor(ClearLockouts(e, now), s) == OpenFor(e, s);
    assert GuessesOf(ClearLockouts(e, now), s) == GuessesOf(e, s);
  }

  /** Every call pays for the wrong guess it makes out of the potential. */
  lemma PotentialStep(e: Elevation, call: Call, s: SessionId, policy: ElevationPolicy, auth: AuthPolicy)
    requires Bounded(e, s, policy, auth) && Under([call], policy, auth)
    requires !Resets(e, call, s)
    ensures Potential(Apply(e, call), s, policy, auth) + (if FailsOn(e, call, s) then 1 else 0)
         <= Potential(e, s, policy, auth)
  {
    hide Potential; hide Begin; hide Attempt; hide Close; hide ClearLockouts;
    assert [call][0] == call;
    match call
    case CBegin(_, _, _, _, _, _) => BeginPotential(e, call, s, policy, auth);
    case CAttempt(_, _, _, _) => AttemptPotential(e, call, s, policy, auth);
    case CCancel(id) => ClosePotential(e, {id}, s, policy, auth);
    case CClearLockouts(now) => ClearPotential(e, now, s, policy, auth);
    case CExpire(now) => ClosePotential(e, ExpiredPrompts(e, now), s, policy, auth);
    case CAbandonSession(t) => ClosePotential(e, OpenFor(e, t), s, policy, auth);
    case CAbandonConnection(c) => ClosePotential(e, Touching(e, c), s, policy, auth);
  }

  lemma {:induction false} PotentialPays(e: Elevation, window: seq<Call>, s: SessionId, policy: ElevationPolicy,
                                         auth: AuthPolicy)
    requires Bounded(e, s, policy, auth) && Under(window, policy, auth) && NoReset(e, window, s)
    ensures Bounded(After(e, window), s, policy, auth)
    ensures Failed(e, window, s) + Potential(After(e, window), s, policy, auth) <= Potential(e, s, policy, auth)
  {
    hide Resets; hide Potential; hide Bounded; hide Apply; hide FailsOn;
    if window != [] {
      var n := |window| - 1;
      forall k | 0 <= k < n ensures !Resets(After(e, window[..n][..k]), window[..n][k], s) {
        assert window[..n][..k] == window[..k];
      }
      PotentialPays(e, window[..n], s, policy, auth);
      BoundedStep(After(e, window[..n]), window[n], s, policy, auth);
      PotentialStep(After(e, window[..n]), window[n], s, policy, auth);
    }
  }

  /** From any reachable state, however prompts are opened, cancelled or abandoned
      in between, at most (attempt limit + prompt cap - 1) wrong guesses are
      checked on a session before it next succeeds or its lockout runs out. */
  lemma GuessBound(history: seq<Call>, window: seq<Call>, s: SessionId, policy: ElevationPolicy, auth: AuthPolicy)
    requires Under(history, policy, auth) && Under(window, policy, auth)
    requires NoReset(After(EMPTY, history), window, s)
    ensures Failed(After(EMPTY, history), window, s) <= Budget(auth) + policy.maxPending - 1
  {
    AlwaysBounded(history, s, policy, auth);
    PotentialPays(After(EMPTY, history), window, s, policy, auth);
  }

  // ---- the bound is met --------------------------------------------------------

  lemma AfterFirst(e: Elevation, call: Call, rest: seq<Call>)
    ensures After(e, [call] + rest) == After(Apply(e, call), rest)
  {
    AfterSnoc(e, [], call);
    assert [] + [call] == [call];
    AfterAppend(e, [call], rest);
  }

  lemma NoResetFirst(e: Elevation, call: Call, rest: seq<Call>, s: SessionId)
    requires !Resets(e, call, s) && NoReset(Apply(e, call), rest, s)
    ensures NoReset(e, [call] + rest, s)
  {
    hide Apply; hide Resets;
    var all := [call] + rest;
    forall k | 0 <= k < |all| ensures !Resets(After(e, all[..k]), all[k], s) {
      if k > 0 {
        assert all[..k] == [call] + rest[..k - 1];
        AfterFirst(e, call, rest[..k - 1]);
      }
    }
  }

  lemma {:induction false} FailedFirst(e: Elevation, call: Call, rest: seq<Call>, s: SessionId)
    ensures Failed(e, [call] + rest, s) == (if FailsOn(e, call, s) then 1 else 0) + Failed(Apply(e, call), rest, s)
    decreases |rest|
  {
    hide Apply; hide FailsOn;
    var all := [call] + rest;
    var n := |all| - 1;
    if rest == [] {
      assert all[..n] == [];
    } else {
      assert all[..n] == [call] + rest[..n - 1];
      FailedFirst(e, call, rest[..n - 1], s);
      AfterFirst(e, call, rest[..n - 1]);
    }
  }

  /** Every call is a wrong answer, given at time 0, to a prompt for `s` that is open then. */
  ghost predicate AllGuesses(e: Elevation, window: seq<Call>, s: SessionId, auth: AuthPolicy) {
    forall k :: 0 <= k < |window| ==> GuessAt(e, window, s, auth, k)
  }

  predicate GuessAt(e: Elevation, window: seq<Call>, s: SessionId, auth: AuthPolicy, k: nat)
    requires k < |window|
  {
    && window[k].CAttempt? && window[k] == CAttempt(window[k].id, false, auth, 0)
    && FailsOn(After(e, window[..k]), window[k], s)
  }

  lemma GuessesFirst(e: Elevation, call: Call, rest: seq<Call>, s: SessionId, auth: AuthPolicy)
    requires call.CAttempt? && call == CAttempt(call.id, false, auth, 0) && FailsOn(e, call, s)
    requires AllGuesses(Apply(e, call), rest, s, auth)
    ensures AllGuesses(e, [call] + rest, s, auth)
  {
    hide Apply; hide FailsOn;
    var all := [call] + rest;
    forall k | 0 <= k < |all| ensures GuessAt(e, all, s, auth, k) {
      if k > 0 {
        assert GuessAt(Apply(e, call), rest, s, auth, k - 1);
        assert all[..k] == [call] + rest[..k - 1];
        AfterFirst(e, call, rest[..k - 1]);
      }
    }
  }

  /** From any state with a prompt open for `s`, wrong answers alone can use up
      everything the open prompts allow. */
  lemma {:induction false} Exhaust(e: Elevation, s: SessionId, policy: ElevationPolicy,
                                   auth: AuthPolicy) returns (window: seq<Call>)
    requires OpenFor(e, s) != {}
    ensures Under(window, policy, auth) && NoReset(e, window, s)
    ensures Failed(e, window, s) == GuessesLeft(e, s, auth) + |OpenFor(e, s)| - 1
    ensures AllGuesses(e, window, s, auth)
    decreases |OpenFor(e, s)|, GuessesLeft(e, s, auth)
  {
    var id :| id in OpenFor(e, s);
    var call := CAttempt(id, false, auth, 0);
    var next := Apply(e, call);
    var checked := Guessed(e, s, false, auth, 0);
    assert OpenFor(checked, s) == OpenFor(e, s);
    OpenForAfterClose(checked, {id}, s);
    assert |OpenFor(e, s) - {id}| == |OpenFor(e, s)| - 1;
    if OpenFor(next, s) == {} {
      window := [];
    } else {
      window := Exhaust(next, s, policy, auth);
    }
    NoResetFirst(e, call, window, s);
    FailedFirst(e, call, window, s);
    GuessesFirst(e, call, window, s, auth);
    window := [call] + window;
  }

  /** `n` prompts opened one after another for the same session. */
  lemma {:induction false} OpenMany(n: nat, s: SessionId, policy: ElevationPolicy,
                                    auth: AuthPolicy) returns (calls: seq<Call>)
    requires n <= policy.maxPending
    ensures Under(calls, policy, auth)
    ensures |OpenFor(After(EMPTY, calls), s)| == n && GuessesOf(After(EMPTY, calls), s) == Guesses(false, 0)
  {
    if n == 0 {
      calls := [];
      assert OpenFor(EMPTY, s) == {};
    } else {
      calls := OpenMany(n - 1, s, policy, auth);
      var e := After(EMPTY, calls);
      AlwaysConsistent(calls);
      var call := CBegin(s, 0, 0, policy, auth, 0);
      AfterSnoc(EMPTY, calls, call);
      OpenForAfterBegin(e, s, e.nextId + 1, Prompt(s, 0, 0));
      assert OpenFor(Apply(e, call), s) == OpenFor(e.(pending := e.pending[e.nextId + 1 := Prompt(s, 0, 0)]), s);
      assert e.nextId + 1 !in OpenFor(e, s);
      calls := calls + [call];
    }
  }

  /** The bound cannot be lowered: whenever at least one prompt may be open, some
      history reaches a state from which exactly that many wrong guesses are
      checked. A lockout does not close the prompts already open. */
  lemma GuessBoundIsTight(s: SessionId, policy: ElevationPolicy, auth: AuthPolicy)
    returns (history: seq<Call>, window: seq<Call>)
    requires policy.maxPending >= 1
    ensures Under(history, policy, auth) && Under(window, policy, auth)
    ensures NoReset(After(EMPTY, history), window, s)
    ensures Failed(After(EMPTY, history), window, s) == Budget(auth) + policy.maxPending - 1
  {
    history := OpenMany(policy.maxPending, s, policy, auth);
    window := Exhaust(After(EMPTY, history), s, policy, auth);
  }

  /** From here on some wrong guess on `s` is checked before it is next forgiven. */
  ghost predicate StillGuessable(e: Elevation, s: SessionId, policy: ElevationPolicy, auth: AuthPolicy) {
    exists window :: Under(window, policy, auth) && NoReset(e, window, s) && Failed(e, window, s) > 0
  }

  /** A lockout stops the guessing if and only if no prompt is open for the session. */
  lemma LockoutStopsGuessing(history: seq<Call>, s: SessionId, policy: ElevationPolicy, auth: AuthPolicy)
    requires Under(history, policy, auth) && IsLockedOut(After(EMPTY, history), s)
    ensures var e := After(EMPTY, history);
            StillGuessable(e, s, policy, auth) <==> OpenFor(e, s) != {}
  {
    var e := After(EMPTY, history);
    AlwaysBounded(history, s, policy, auth);
    hide After; hide Failed; hide NoReset; hide Under;
    if OpenFor(e, s) != {} {
      var window := Exhaust(e, s, policy, auth);
      assert |OpenFor(e, s)| > 0 && Failed(e, window, s) > 0;
    } else {
      forall window | Under(window, policy, auth) && NoReset(e, window, s) ensures Failed(e, window, s) == 0 {
        PotentialPays(e, window, s, policy, auth);
      }
    }
  }

  /** Cancelling one prompt neither forgives nor costs the others a guess: a wrong
      answer to any of them locks out exactly when it would have without the cancel,
      which is when it reaches the limit. */
  lemma CancelDoesNotForgive(e: Elevation, cancelled: RequestId, id: RequestId, auth: AuthPolicy)
    requires id in e.pending && id != cancelled
    ensures var after := Apply(e, CCancel(cancelled));
            && AttemptOutcome(after, id, false, auth) == AttemptOutcome(e, id, false, auth)
            && AttemptOutcome(after, id, false, auth).Some?
            && (AttemptOutcome(after, id, false, auth).value.outcome.LockedOut? <==>
                  GuessesOf(e, e.pending[id].session).attempts + 1 >= Budget(auth))
  {
  }

  /** Ask, guess wrong, ask again and cancel, ask a third time: the sequence at
      src/elevation/manager.rs:460-484. */
  function CancelBetween(s: SessionId, c: ConnId, r: ConnId, policy: ElevationPolicy, auth: AuthPolicy,
                         now: Instant): seq<Call> {
    [CBegin(s, c, r, policy, auth, now), CAttempt(1, false, auth, now),
     CBegin(s, c, r + 1, policy, auth, now), CCancel(2),
     CBegin(s, c, r + 2, policy, auth, now)]
  }

  /** For every limit and cap that let the sequence run, the third prompt opens, and a
      wrong answer to it locks out if and only if the limit is two, which is the limit
      that sequence uses while expecting a plain failure. */
  lemma CancelBetweenGuesses(s: SessionId, c: ConnId, r: ConnId, policy: ElevationPolicy, auth: AuthPolicy,
                             now: Instant)
    requires auth.maxAttempts >= 2 && policy.maxPending >= 2
    ensures var e := After(EMPTY, CancelBetween(s, c, r, policy, auth, now));
            && 3 in e.pending && e.pending[3] == Prompt(s, c, r + 2)
            && AttemptOutcome(e, 3, false, auth) == Some(Resolution(Prompt(s, c, r + 2),
                 if auth.maxAttempts == 2 then LockedOut(auth.lockout) else Failure(auth.maxAttempts - 2),
                 auth.maxAttempts == 2))
  {
    var calls := CancelBetween(s, c, r, policy, auth, now);
    var e1 := Apply(EMPTY, calls[0]);
    var e2 := Apply(e1, calls[1]);
    var e3 := Apply(e2, calls[2]);
    var e4 := Apply(e3, calls[3]);
    assert OpenFor(EMPTY, s) == {};
    assert OpenFor(e2, s) == {1};
    assert OpenFor(e4, s) == {1};
    hide Apply; hide AttemptOutcome;
    AfterFive(calls);
  }

  lemma AfterFive(calls: seq<Call>)
    requires |calls| == 5
    ensures After(EMPTY, calls)
         == Apply(Apply(Apply(Apply(Apply(EMPTY, calls[0]), calls[1]), calls[2]), calls[3]), calls[4])
  {
    hide Apply;
    assert calls[..5] == calls;
    forall k | 0 <= k < 5 ensures After(EMPTY, calls[..k + 1]) == Apply(After(EMPTY, calls[..k]), calls[k]) {
      assert calls[..k + 1] == calls[..k] + [calls[k]];
      AfterSnoc(EMPTY, calls[..k], calls[k]);
    }
    assert After(EMPTY, calls[..0]) == EMPTY;
    assert After(EMPTY, calls[..1 + 1]) == Apply(After(EMPTY, calls[..1]), calls[1]);
    assert After(EMPTY, calls[..3 + 1]) == Apply(After(EMPTY, calls[..3]), calls[3]);
  }

  // ---- the lockout window ------------------------------------------------------

  /** The call is a check that locks session `s` out. */
  predicate LocksOut(e: Elevation, call: Call, s: SessionId) {
    FailsOn(e, call, s) && GuessesOf(e, s).attempts + 1 >= Budget(call.auth)
  }

  /** Call `k` is the latest to lock `s` out, and no sweep since has come at or
      after the end of the lockout it started. */
  predicate LockedOutBy(calls: seq<Call>, s: SessionId, k: nat)
    requires k < |calls|
  {
    && LockingOut(calls, s, k)
    && forall j :: k < j < |calls| ==> !LockingOut(calls, s, j) && !SweepsLockout(calls[j], calls[k])
  }

  predicate LockingOut(calls: seq<Call>, s: SessionId, k: nat)
    requires k < |calls|
  {
    LocksOut(After(EMPTY, calls[..k]), calls[k], s)
  }

  /** `call` is a lockout sweep made at or past the end of the lockout that `guess` started. */
  predicate SweepsLockout(call: Call, guess: Call) {
    call.CClearLockouts? && guess.CAttempt? && call.now >= guess.now + guess.auth.lockout
  }

  lemma LockedOutByPrefix(calls: seq<Call>, s: SessionId, k: nat)
    requires k < |calls| - 1
    ensures LockedOutBy(calls, s, k) <==>
              var n := |calls| - 1;
              && LockedOutBy(calls[..n], s, k)
              && !LocksOut(After(EMPTY, calls[..n]), calls[n], s)
              && !SweepsLockout(calls[n], calls[k])
  {
    hide After; hide LocksOut; hide SweepsLockout;
    var n := |calls| - 1;
    forall j: nat | j < n ensures LockingOut(calls[..n], s, j) <==> LockingOut(calls, s, j) {
      assert calls[..n][..j] == calls[..j];
    }
    assert LockingOut(calls, s, n) <==> LocksOut(After(EMPTY, calls[..n]), calls[n], s);
  }

  /** What one call does to the lockout timer of session `s`. */
  lemma LockoutStep(e: Elevation, call: Call, s: SessionId)
    ensures var e' := Apply(e, call);
      if LocksOut(e, call, s) then
        s in e'.lockoutExpiry && e'.lockoutExpiry[s] == call.now + call.auth.lockout
      else if call.CClearLockouts? && s in e.lockoutExpiry && call.now >= e.lockoutExpiry[s] then
        s !in e'.lockoutExpiry && GuessesOf(e', s) == Guesses(false, 0)
      else
        && (s in e'.lockoutExpiry <==> s in e.lockoutExpiry)
        && (s in e.lockoutExpiry ==> e'.lockoutExpiry[s] == e.lockoutExpiry[s])
  {
  }

  /** The lockout window is exact. After any history, a new prompt for `s` is
      refused as locked out precisely when some check locked it out and no sweep
      has come at or past the end of the latest such lockout. */
  lemma {:induction false} LockoutWindow(calls: seq<Call>, s: SessionId, policy: ElevationPolicy, auth: AuthPolicy)
    ensures BeginOutcome(After(EMPTY, calls), s, policy, auth).RefusedLockedOut?
       <==> exists k: nat :: k < |calls| && LockedOutBy(calls, s, k)
  {
    AlwaysConsistent(calls);
    LockoutTimer(calls, s);
  }

  /** The timer of `s` runs exactly while some check has it locked out, and until
      the end of that lockout. */
  ghost predicate Timed(e: Elevation, calls: seq<Call>, s: SessionId) {
    && (s in e.lockoutExpiry <==> exists k: nat :: k < |calls| && LockedOutBy(calls, s, k))
    && (forall k: nat :: k < |calls| && LockedOutBy(calls, s, k) ==>
          s in e.lockoutExpiry && calls[k].CAttempt? && e.lockoutExpiry[s] == calls[k].now + calls[k].auth.lockout)
  }

  lemma {:induction false} LockoutTimer(calls: seq<Call>, s: SessionId)
    ensures Timed(After(EMPTY, calls), calls, s)
  {
    if calls != [] {
      LockoutTimer(calls[..|calls| - 1], s);
      TimedStep(calls, s);
    }
  }

  lemma TimedStep(calls: seq<Call>, s: SessionId)
    requires calls != []
    requires var n := |calls| - 1;
             Timed(After(EMPTY, calls[..n]), calls[..n], s)
    ensures Timed(After(EMPTY, calls), calls, s)
  {
    hide After; hide Apply; hide LocksOut; hide LockedOutBy;
    var n := |calls| - 1;
    var before := After(EMPTY, calls[..n]);
    assert calls == calls[..n] + [calls[n]];
    AfterSnoc(EMPTY, calls[..n], calls[n]);
    LockoutStep(before, calls[n], s);
    LockoutTimerLast(calls, s);
    if LocksOut(before, calls[n], s) { LocksByCheck(before, calls[n], s); }
  }

  lemma LocksByCheck(e: Elevation, call: Call, s: SessionId)
    requires LocksOut(e, call, s)
    ensures call.CAttempt?
  {
  }

  lemma LockoutTimerLast(calls: seq<Call>, s: SessionId)
    requires calls != []
    ensures var n := |calls| - 1;
            && (LockedOutBy(calls, s, n) <==> LocksOut(After(EMPTY, calls[..n]), calls[n], s))
            && forall k: nat :: k < n ==>
                 (LockedOutBy(calls, s, k) <==>
                    && LockedOutBy(calls[..n], s, k)
                    && !LocksOut(After(EMPTY, calls[..n]), calls[n], s)
                    && !SweepsLockout(calls[n], calls[k]))
  {
    hide LocksOut; hide SweepsLockout; hide After;
    var n := |calls| - 1;
    assert LockedOutBy(calls, s, n) <==> LocksOut(After(EMPTY, calls[..n]), calls[n], s);
    forall k: nat | k < n
      ensures LockedOutBy(calls, s, k) <==>
                && LockedOutBy(calls[..n], s, k)
                && !LocksOut(After(EMPTY, calls[..n]), calls[n], s)
                && !SweepsLockout(calls[n], calls[k])
    {
      LockedOutByPrefix(calls, s, k);
    }
  }
}
