/** What every history of calls on the elevation manager guarantees. */
module ElevationTheorems {
  import opened Common
  import opened Authentication
  import opened ElevationModel

  // ---- what every call keeps ------------------------------------------------

  /** Timers and tables agree: an open prompt has exactly one deadline, ids were
      handed out by the counter, and the sessions flagged as locked out are
      exactly those with a running lockout timer. */
  ghost predicate Consistent(e: Elevation) {
    && e.pending.Keys == e.promptExpiry.Keys
    && (forall id :: id in e.pending ==> 1 <= id <= e.nextId)
    && (forall s :: IsLockedOut(e, s) <==> s in e.lockoutExpiry)
  }

  lemma ApplyConsistent(e: Elevation, call: Call)
    requires Consistent(e)
    ensures Consistent(Apply(e, call))
  {
  }

  lemma {:induction false} AlwaysConsistent(calls: seq<Call>)
    ensures Consistent(After(EMPTY, calls))
  {
    if calls != [] {
      AlwaysConsistent(calls[..|calls| - 1]);
      ApplyConsistent(After(EMPTY, calls[..|calls| - 1]), calls[|calls| - 1]);
    }
  }

  // ---- prompts: fresh ids, fixed deadlines ------------------------------------

  /** Does this call end prompt `id` in state `e`, other than by running out of time? */
  predicate Ends(e: Elevation, call: Call, id: RequestId) {
    match call
    case CAttempt(i, accepted, auth, now) =>
      var r := AttemptOutcome(e, i, accepted, auth);
      i == id && r.Some? && r.value.terminal
    case CCancel(i) => i == id
    case CAbandonSession(s) => id in OpenFor(e, s)
    case CAbandonConnection(c) => id in Touching(e, c)
    case _ => false
  }

  /** Is this call a timeout sweep made at or after `deadline`? */
  predicate SweepsPast(call: Call, deadline: Instant) {
    call.CExpire? && call.now >= deadline
  }

  /** One call: a prompt leaves the table exactly when the call ends it or sweeps
      past its deadline, and until then nothing about it changes. */
  lemma PromptStep(e: Elevation, call: Call, id: RequestId)
    requires Consistent(e) && id in e.pending
    ensures id !in Apply(e, call).pending <==> Ends(e, call, id) || SweepsPast(call, e.promptExpiry[id])
    ensures id in Apply(e, call).pending ==>
              && Apply(e, call).pending[id] == e.pending[id]
              && Apply(e, call).promptExpiry[id] == e.promptExpiry[id]
  {
  }

  /** Ids are never reused: once handed out and gone, an id stays gone. */
  lemma {:induction false} IdsNeverReused(e: Elevation, calls: seq<Call>, id: RequestId)
    requires Consistent(e) && id <= e.nextId
    ensures Consistent(After(e, calls)) && e.nextId <= After(e, calls).nextId
    ensures id in After(e, calls).pending ==> id in e.pending
  {
    if calls != [] {
      var n := |calls| - 1;
      IdsNeverReused(e, calls[..n], id);
      ApplyConsistent(After(e, calls[..n]), calls[n]);
      hide Consistent;
      FreshStep(After(e, calls[..n]), calls[n], id);
      hide Apply;
    }
  }

  lemma FreshStep(e: Elevation, call: Call, id: RequestId)
    requires id <= e.nextId
    ensures e.nextId <= Apply(e, call).nextId
    ensures id in Apply(e, call).pending ==> id in e.pending
  {
    hide Verdict;
  }

  /** Call number `k` of the history is what removed prompt `id`, opened in `e`. */
  predicate EndedAt(e: Elevation, calls: seq<Call>, id: RequestId, deadline: Instant, k: nat)
    requires k < |calls|
  {
    Ends(After(e, calls[..k]), calls[k], id) || SweepsPast(calls[k], deadline)
  }

  lemma EndedAtPrefix(e: Elevation, calls: seq<Call>, n: nat, id: RequestId, deadline: Instant, k: nat)
    requires k < n <= |calls|
    ensures EndedAt(e, calls[..n], id, deadline, k) <==> EndedAt(e, calls, id, deadline, k)
  {
    assert calls[..n][..k] == calls[..k];
  }

  /** The life of a prompt over any history: it is gone at the end exactly when
      some call ended it or some sweep came at or past the deadline it was opened
      with. Wrong guesses in between neither extend nor shorten it. */
  lemma {:induction false} PromptLifetime(e: Elevation, calls: seq<Call>, id: RequestId)
    requires Consistent(e) && id in e.pending
    ensures id in After(e, calls).pending ==>
              && After(e, calls).pending[id] == e.pending[id]
              && After(e, calls).promptExpiry.Keys == After(e, calls).pending.Keys
              && After(e, calls).promptExpiry[id] == e.promptExpiry[id]
    ensures id !in After(e, calls).pending <==>
              exists k: nat :: k < |calls| && EndedAt(e, calls, id, e.promptExpiry[id], k)
  {
    if calls != [] {
      var n := |calls| - 1;
      PromptLifetime(e, calls[..n], id);
      IdsNeverReused(e, calls[..n], id);
      forall k: nat | k < n
        ensures EndedAt(e, calls[..n], id, e.promptExpiry[id], k) <==> EndedAt(e, calls, id, e.promptExpiry[id], k)
      {
        EndedAtPrefix(e, calls, n, id, e.promptExpiry[id], k);
      }
      PromptLastCall(After(e, calls[..n]), calls[n], id, e);
      assert EndedAt(e, calls, id, e.promptExpiry[id], n)
          <==> Ends(After(e, calls[..n]), calls[n], id) || SweepsPast(calls[n], e.promptExpiry[id]);
      if id !in After(e, calls[..n]).pending {
        var k: nat :| k < n && EndedAt(e, calls[..n], id, e.promptExpiry[id], k);
        assert EndedAt(e, calls, id, e.promptExpiry[id], k);
      }
    }
  }

  lemma PromptLastCall(now: Elevation, call: Call, id: RequestId, origin: Elevation)
    requires Consistent(now) && Consistent(origin) && id in origin.pending && origin.nextId <= now.nextId
    requires id in now.pending ==>
               now.pending[id] == origin.pending[id] && now.promptExpiry[id] == origin.promptExpiry[id]
    ensures Consistent(Apply(now, call))
    ensures id !in now.pending ==> id !in Apply(now, call).pending
    ensures id in now.pending ==>
              (id !in Apply(now, call).pending <==> Ends(now, call, id) || SweepsPast(call, origin.promptExpiry[id]))
    ensures id in Apply(now, call).pending ==>
              && Apply(now, call).pending[id] == origin.pending[id]
              && Apply(now, call).promptExpiry[id] == origin.promptExpiry[id]
  {
    ApplyConsistent(now, call);
    if id in now.pending { PromptStep(now, call, id); }
  }

  // ---- the cap on open prompts --------------------------------------------------

  /** Every `begin` and every check in the history ran under these settings. */
  predicate Under(calls: seq<Call>, policy: ElevationPolicy, auth: AuthPolicy) {
    forall k :: 0 <= k < |calls| ==>
      && (calls[k].CBegin? ==> calls[k].policy == policy && calls[k].auth == auth)
      && (calls[k].CAttempt? ==> calls[k].auth == auth)
  }

  /** What the cap counts: the open prompts of that session, all of them and no others. */
  lemma OpenForExactly(e: Elevation, s: SessionId, id: RequestId)
    ensures id in OpenFor(e, s) <==> id in e.pending && e.pending[id].session == s
  {
  }

  lemma OpenForAfterBegin(e: Elevation, s: SessionId, id: RequestId, p: Prompt)
    requires id !in e.pending
    ensures OpenFor(e.(pending := e.pending[id := p]), s)
         == if p.session == s then OpenFor(e, s) + {id} else OpenFor(e, s)
  {
  }

  lemma OpenForAfterClose(e: Elevation, ids: set<RequestId>, s: SessionId)
    ensures OpenFor(Close(e, ids), s) == OpenFor(e, s) - ids
    ensures |OpenFor(Close(e, ids), s)| <= |OpenFor(e, s)|
  {
    assert OpenFor(Close(e, ids), s) == OpenFor(e, s) - ids;
    SubsetSize(OpenFor(e, s) - ids, OpenFor(e, s));
  }

  lemma CapStep(e: Elevation, call: Call, s: SessionId, policy: ElevationPolicy, auth: AuthPolicy)
    requires Consistent(e) && Under([call], policy, auth)
    requires |OpenFor(e, s)| <= policy.maxPending
    ensures |OpenFor(Apply(e, call), s)| <= policy.maxPending
  {
    hide Begin; hide Attempt; hide OpenFor; hide Close;
    assert [call][0] == call;
    match call
    case CBegin(t, c, r, _, _, now) => CapBegin(e, call, s);
    case CAttempt(id, accepted, _, now) => CapAttempt(e, call, s);
    case CCancel(id) => OpenForAfterClose(e, {id}, s);
    case CClearLockouts(now) => OpenForSame(e, Apply(e, call), s);
    case CExpire(now) => OpenForAfterClose(e, ExpiredPrompts(e, now), s);
    case CAbandonSession(t) => OpenForAfterClose(e, OpenFor(e, t), s);
    case CAbandonConnection(c) => OpenForAfterClose(e, Touching(e, c), s);
  }

  lemma OpenForSame(e: Elevation, e': Elevation, s: SessionId)
    requires e'.pending == e.pending
    ensures OpenFor(e', s) == OpenFor(e, s)
  {
  }

  lemma CapBegin(e: Elevation, call: Call, s: SessionId)
    requires Consistent(e) && call.CBegin? && |OpenFor(e, s)| <= call.policy.maxPending
    ensures |OpenFor(Apply(e, call), s)| <= call.policy.maxPending
  {
    if BeginOutcome(e, call.session, call.policy, call.auth).Opened? {
      var p := Prompt(call.session, call.compositor, call.requester);
      var opened_ := e.(pending := e.pending[e.nextId + 1 := p]);
      OpenForAfterBegin(e, s, e.nextId + 1, p);
      OpenForSame(opened_, Apply(e, call), s);
      hide OpenFor;
    }
  }

  lemma CapAttempt(e: Elevation, call: Call, s: SessionId)
    requires call.CAttempt?
    ensures |OpenFor(Apply(e, call), s)| <= |OpenFor(e, s)|
  {
    if call.id in e.pending {
      hide OpenFor; hide Verdict;
      var checked := Guessed(e, e.pending[call.id].session, call.accepted, call.auth, call.now);
      OpenForSame(e, checked, s);
      OpenForAfterClose(checked, {call.id}, s);
    }
  }

  /** No session ever has more prompts open than the configured cap. */
  lemma {:induction false} CapHolds(calls: seq<Call>, s: SessionId, policy: ElevationPolicy, auth: AuthPolicy)
    requires Under(calls, policy, auth)
    ensures |OpenFor(After(EMPTY, calls), s)| <= policy.maxPending
  {
    if calls == [] {
      assert OpenFor(EMPTY, s) == {};
    } else {
      var n := |calls| - 1;
      CapHolds(calls[..n], s, policy, auth);
      AlwaysConsistent(calls[..n]);
      CapStep(After(EMPTY, calls[..n]), calls[n], s, policy, auth);
    }
  }
}
