/** What holds at every moment the power backend is called. */
module PowerSafety {
  import opened Common
  import opened Authentication
  import opened Messages
  import opened DaemonModel
  import opened Histories
  import E = ElevationModel
  import L = LockModel
  import I = IdleModel
  import S = SessionModel
  import T = SeatModel

  /** The machine is suspended only when nothing blocks it and, if it is meant to
      lock first and locking is possible, with every session locked; it goes down
      only when nothing blocks that and nobody is logged in. */
  predicate Prepared(entry: Entry) {
    entry.PowerCall? ==>
      match entry.kind
      case ToSuspend =>
        && !L.Blocks(entry.locks, L.InhibitSuspend)
        && (entry.policy.lockOnSuspend && L.MayLock(entry.locks, entry.policy) ==>
              forall s :: s in entry.live ==> L.IsLocked(entry.locks, s))
      case _ =>
        !L.Blocks(entry.locks, L.InhibitShutdown) && entry.live == {}
  }

  ghost predicate AllPrepared(log: seq<Entry>) {
    forall k :: 0 <= k < |log| ==> Prepared(log[k]) && Waited(log, k)
  }

  /** The applications that asked for a delay got it: just before the machine goes
      down, or before the compositors are told and it is suspended. */
  predicate Waited(log: seq<Entry>, k: nat)
    requires k < |log|
  {
    var what := if log[k].PowerCall? && log[k].kind.ToSuspend? then L.InhibitSuspend else L.InhibitShutdown;
    log[k].PowerCall? && L.Delays(log[k].locks, what) ==>
      var j := if log[k].kind.ToSuspend? then k - 2 else k - 1;
      0 <= j && log[j] == Paused(log[k].kind, log[k].grace)
  }

  lemma WaitedLater(log: seq<Entry>, longer: seq<Entry>, k: nat)
    requires k < |log| && log <= longer
    ensures Waited(longer, k) <==> Waited(log, k)
  {
    hide L.Delays;
  }

  lemma ReadyMore(log: seq<Entry>, longer: seq<Entry>)
    requires AllPrepared(log) && log <= longer
    requires forall k :: |log| <= k < |longer| ==> Prepared(longer[k]) && Waited(longer, k)
    ensures AllPrepared(longer)
  {
    hide Prepared; hide Waited;
    forall k | 0 <= k < |longer| ensures Prepared(longer[k]) && Waited(longer, k) {
      if k < |log| {
        assert longer[k] == log[k];
        WaitedLater(log, longer, k);
      }
    }
  }

  lemma SuspendedReady(d: State, l: L.Locks)
    requires !L.Blocks(d.locks, L.InhibitSuspend)
    requires l == if d.settings.lock.lockOnSuspend
                  then L.Apply(d.locks, L.CLock(d.sessions.live.Keys, d.settings.lock)) else d.locks
    ensures Prepared(PowerCall(ToSuspend, d.sessions.live.Keys, l, d.settings.lock, d.settings.grace))
    ensures L.Delays(l, L.InhibitSuspend) == L.Delays(d.locks, L.InhibitSuspend)
  {
    assert l.inhibitors == d.locks.inhibitors;
    assert !L.Blocks(l, L.InhibitSuspend);
    if d.settings.lock.lockOnSuspend && L.MayLock(l, d.settings.lock) {
      assert L.MayLock(d.locks, d.settings.lock);
      forall s | s in d.sessions.live.Keys ensures L.IsLocked(l, s) {
        assert s in l.locks;
      }
    }
  }

  lemma PreparedSuspend(d: State, w: World)
    requires AllPrepared(d.log)
    ensures AllPrepared(OnSuspend(d, w).0.log)
  {
    hide L.Apply; hide L.Blocks; hide L.Delays; hide Prepared; hide AllPrepared;
    if !L.Blocks(d.locks, L.InhibitSuspend) {
      var call := L.CLock(d.sessions.live.Keys, d.settings.lock);
      var l := if d.settings.lock.lockOnSuspend then L.Apply(d.locks, call) else d.locks;
      var entry := PowerCall(ToSuspend, d.sessions.live.Keys, l, d.settings.lock, d.settings.grace);
      SuspendedReady(d, l);
      var told := Broadcast(S.Compositors(d.sessions), PrepareForSleep, d.registry);
      NotPower(told);
      NotPower(Paused(ToSuspend, d.settings.grace));
      var waited := Pause(d, ToSuspend).log;
      assert OnSuspend(d, w).0.log == waited + [told, entry];
      ReadyMore(d.log, waited + [told, entry]);
    }
  }

  /** A suspend changes nothing exactly when something blocks it, and never opens a
      lock. */
  lemma SuspendRefusal(d: State, w: World)
    ensures OnSuspend(d, w).0 == d <==> L.Blocks(d.locks, L.InhibitSuspend)
    ensures forall s :: L.IsLocked(d.locks, s) ==> L.IsLocked(OnSuspend(d, w).0.locks, s)
  {
    hide L.Blocks;
    assert !L.Blocks(d.locks, L.InhibitSuspend) ==> |OnSuspend(d, w).0.log| > |d.log|;
  }

  /** A reboot or power-off changes nothing exactly when something blocks it, and
      otherwise leaves nobody logged in. */
  lemma PowerDownRefusal(d: State, kind: PowerKind, w: World)
    ensures OnPowerDown(d, kind, w).0 == d <==> L.Blocks(d.locks, L.InhibitShutdown)
    ensures !L.Blocks(d.locks, L.InhibitShutdown) ==> OnPowerDown(d, kind, w).0.sessions.live == map[]
  {
    hide L.Blocks;
    assert !L.Blocks(d.locks, L.InhibitShutdown) ==> |OnPowerDown(d, kind, w).0.log| > |d.log|;
  }

  lemma NotPower(entry: Entry)
    requires !entry.PowerCall?
    ensures Prepared(entry)
  {
  }

  lemma PreparedDown(d: State, kind: PowerKind, w: World)
    requires AllPrepared(d.log) && !kind.ToSuspend?
    ensures AllPrepared(OnPowerDown(d, kind, w).0.log)
  {
    hide L.Blocks; hide L.Delays; hide AllPrepared;
    if !L.Blocks(d.locks, L.InhibitShutdown) {
      var entry := PowerCall(kind, {}, d.locks, d.settings.lock, d.settings.grace);
      assert S.Remove(d.sessions, d.sessions.live.Keys).live.Keys == {};
      var waited := Pause(d, kind).log;
      assert OnPowerDown(d, kind, w).0.log == waited + [entry];
      ReadyMore(d.log, waited + [entry]);
    }
  }

  /** A log continued without calling the backend. */
  ghost predicate NoPower(log: seq<Entry>, longer: seq<Entry>) {
    log <= longer && forall k :: |log| <= k < |longer| ==> !longer[k].PowerCall?
  }

  lemma NoPowerPrepared(log: seq<Entry>, longer: seq<Entry>)
    requires AllPrepared(log) && NoPower(log, longer)
    ensures AllPrepared(longer)
  {
    ReadyMore(log, longer);
  }

  lemma {:induction false} NotifyNoPower(d: State, abandoned: seq<E.Abandoned>, reason: Reason)
    ensures NoPower(d.log, NotifyAbandoned(d, abandoned, reason).log)
    decreases |abandoned|
  {
    if abandoned != [] {
      var a := abandoned[0];
      var told := Reply(Push(d, a.prompt.compositor, HideElevationPrompt(a.id)),
                        a.prompt.requester, AuthResult(AuthOutcome.Error(reason)), Postponed(a.id));
      NotifyNoPower(told, abandoned[1..], reason);
    }
  }

  lemma AbandonNoPower(d: State, call: E.Call, ids: set<RequestId>, reason: Reason, order: seq<RequestId>)
    requires ids <= d.elevation.pending.Keys
    ensures NoPower(d.log, Abandon(d, call, ids, reason, order).log)
  {
    NotifyNoPower(CallElevation(d, call), Listed(d.elevation, ids, order), reason);
  }

  lemma {:induction false} PreparedChanges(d: State, changes: seq<I.Change>, w: World)
    requires AllPrepared(d.log)
    ensures AllPrepared(ApplyChanges(d, changes, w).log)
    decreases |changes|
  {
    if changes != [] {
      var next := ApplyChange(d, changes[0], w);
      assert AllPrepared(next.log) by {
        hide AllPrepared; hide L.Apply; hide OnSuspend;
        if changes[0].stage.SuspendRequested? { PreparedSuspend(d, w); } else { NoPowerPrepared(d.log, next.log); }
      }
      PreparedChanges(next, changes[1..], w);
    }
  }

  lemma StartNoPower(d: State, conn: ConnId, s: SessionId, action: ElevationAction, w: World)
    ensures NoPower(d.log, StartElevation(d, conn, s, action, w).0.log)
  {
    hide E.Apply; hide E.BeginOutcome;
  }

  lemma ResolveNoPower(d: State, id: RequestId, r: E.Resolution)
    ensures NoPower(d.log, Resolve(d, id, r).log)
  {
  }

  lemma RespondNoPower(d: State, id: RequestId, answer: Answer, w: World)
    ensures NoPower(d.log, OnRespondElevation(d, id, answer, w).0.log)
  {
    hide E.Apply; hide E.AttemptOutcome; hide Resolve;
    if id in d.elevation.pending {
      match answer
      case Decline => ResolveNoPower(CallElevation(d, E.CCancel(id)), id, E.CancelOutcome(d.elevation, id).value);
      case Password =>
        var s := d.elevation.pending[id].session;
        if s in d.sessions.live {
          var checked := Log(d, Checked(s, d.sessions.live[s].userName, w.accepts, Some(id), d.authenticator));
          AttemptSome(d.elevation, id, w.accepts, d.settings.elevationAuth);
          ResolveNoPower(CallElevation(checked, E.CAttempt(id, w.accepts, d.settings.elevationAuth, w.now)), id,
                         E.AttemptOutcome(d.elevation, id, w.accepts, d.settings.elevationAuth).value);
        }
    }
  }

  lemma AttemptSome(e: E.Elevation, id: RequestId, accepted: bool, auth: AuthPolicy)
    requires id in e.pending
    ensures E.AttemptOutcome(e, id, accepted, auth).Some?
  {
  }

  lemma LockNoPower(d: State, s: SessionId, reason: LockReason)
    ensures NoPower(d.log, LockAndShow(d, s, reason).log)
  {
    hide L.Apply; hide S.Transition; hide L.MayLock;
  }

  lemma UnlockNoPower(d: State, s: SessionId, userName: string, w: World)
    ensures NoPower(d.log, OnUnlock(d, s, userName, w).0.log)
  {
    hide L.Apply; hide S.Transition; hide L.UnlockOutcome; hide L.LockOf;
  }

  lemma RegisterNoPower(d: State, conn: ConnId, s: SessionId)
    ensures NoPower(d.log, OnRegisterCompositor(d, conn, s).0.log)
  {
    hide S.Transition; hide S.Update; hide L.IsLocked;
  }

  lemma TerminateNoPower(d: State, s: SessionId, w: World)
    ensures NoPower(d.log, OnTerminateSession(d, s, w).0.log)
  {
    hide Abandon;
    if s in d.sessions.live {
      var ended := d.(sessions := S.Remove(d.sessions, {s}), seats := T.Detach(d.seats, s));
      AbandonNoPower(ended, E.CAbandonSession(s), E.OpenFor(d.elevation, s), SessionEnded, w.promptOrder);
    }
  }

  lemma DispatchNoPower(d: State, conn: ConnId, request: Request, w: World)
    requires !request.Suspend? && !request.Reboot? && !request.PowerOff?
    ensures NoPower(d.log, Dispatch(d, conn, request, w).0.log)
  {
    hide L.Apply; hide I.Apply; hide LockAndShow; hide OnUnlock; hide OnRegisterCompositor; hide StartElevation;
    hide OnRespondElevation; hide OnTerminateSession;
    match request
    case RequestElevation(s, action) => StartNoPower(d, conn, s, action, w);
    case RespondElevation(id, answer) => RespondNoPower(d, id, answer, w);
    case LockSession(s) => LockNoPower(d, s, Manual);
    case Unlock(s, userName) => UnlockNoPower(d, s, userName, w);
    case RegisterCompositor(s) => RegisterNoPower(d, conn, s);
    case TerminateSession(s) => TerminateNoPower(d, s, w);
    case _ =>
  }

  lemma PreparedStep(d: State, input: Input)
    requires AllPrepared(d.log)
    ensures AllPrepared(Step(d, input).log)
  {
    hide Abandon; hide Dispatch; hide ApplyChanges; hide AllPrepared; hide L.Apply; hide OnSuspend; hide OnPowerDown;
    match input
    case Disconnected(conn, w) =>
      var gone := d.(registry := d.registry - {conn}, sessions := S.DropConnection(d.sessions, conn));
      AbandonNoPower(gone, E.CAbandonConnection(conn), E.Touching(d.elevation, conn), ConnectionDropped, w.promptOrder);
      NoPowerPrepared(d.log, Step(d, input).log);
    case Tick(w) =>
      var a := CallIdle(d, I.CTick(w.now, d.settings.idle));
      var changes := Listing(w.changeOrder, I.Changes(d.idle, w.now, d.settings.idle));
      PreparedChanges(a, changes, w);
      var c := CallElevation(CallLocks(ApplyChanges(a, changes, w), L.CSweep(w.now)), E.CClearLockouts(w.now));
      AbandonNoPower(c, E.CExpire(w.now), E.Overdue(c.elevation, w.now), TimedOut, w.promptOrder);
      NoPowerPrepared(c.log, Step(d, input).log);
    case Command(conn, uid, request, w) =>
      if Authorize(d, conn, uid, request, w.account).Some? {
        NoPowerPrepared(d.log, Step(d, input).log);
      } else {
        PreparedDispatch(d, conn, request, w);
        NoPowerPrepared(Dispatch(d, conn, request, w).0.log, Step(d, input).log);
      }
    case _ =>
  }

  lemma PreparedDispatch(d: State, conn: ConnId, request: Request, w: World)
    requires AllPrepared(d.log)
    ensures AllPrepared(Dispatch(d, conn, request, w).0.log)
  {
    hide AllPrepared; hide OnSuspend; hide OnPowerDown;
    match request
    case Suspend => PreparedSuspend(d, w);
    case Reboot => PreparedDown(d, ToReboot, w);
    case PowerOff => PreparedDown(d, ToPowerOff, w);
    case _ =>
      DispatchNoPower(d, conn, request, w);
      hide Dispatch;
      NoPowerPrepared(d.log, Dispatch(d, conn, request, w).0.log);
  }

  /** In every run, every call of the power backend finds the daemon prepared for
      it, whether a client or the idle timer asked. */
  lemma {:induction false} AlwaysPrepared(settings: Settings, service: Option<Uid>, inputs: seq<Input>)
    ensures AllPrepared(Run(Boot(settings, service), inputs).log)
  {
    hide Step;
    if inputs != [] {
      var n := |inputs| - 1;
      AlwaysPrepared(settings, service, inputs[..n]);
      PreparedStep(Run(Boot(settings, service), inputs[..n]), inputs[n]);
    }
  }
}
