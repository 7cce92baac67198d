/** The screen lock over whole daemon runs: only a password opens it, and what
    the session record says never contradicts it. */
module LockSafety {
  import opened Common
  import opened Authentication
  import opened Messages
  import opened DaemonModel
  import opened Histories
  import E = ElevationModel
  import L = LockModel
  import LT = LockTheorems
  import I = IdleModel
  import S = SessionModel
  import T = SeatModel

  // ---- how each step moves the locks -----------------------------------------------------

  /** No lock that was closed in `l` is open in `l'`. */
  ghost predicate OnlyCloses(l: L.Locks, l': L.Locks) {
    forall s :: L.IsLocked(l, s) ==> L.IsLocked(l', s)
  }

  lemma CallOnlyCloses(l: L.Locks, call: L.Call)
    requires !call.CUnlock?
    ensures OnlyCloses(l, L.Apply(l, call))
  {
    forall s | L.IsLocked(l, s) ensures L.IsLocked(L.Apply(l, call), s) {
      LT.UnlockedOnlyByPassword(l, call, s);
    }
  }

  lemma LockOnlyCloses(d: State, s: SessionId, reason: LockReason)
    ensures OnlyCloses(d.locks, LockAndShow(d, s, reason).locks)
  {
    CallOnlyCloses(d.locks, L.CLock({s}, d.settings.lock));
  }

  lemma SuspendOnlyCloses(d: State, w: World)
    ensures OnlyCloses(d.locks, OnSuspend(d, w).0.locks)
  {
    CallOnlyCloses(d.locks, L.CLock(d.sessions.live.Keys, d.settings.lock));
  }

  lemma {:induction false} ChangesOnlyClose(d: State, changes: seq<I.Change>, w: World)
    ensures OnlyCloses(d.locks, ApplyChanges(d, changes, w).locks)
    decreases |changes|
  {
    if changes != [] {
      var next := ApplyChange(d, changes[0], w);
      assert OnlyCloses(d.locks, next.locks) by {
        hide OnlyCloses;
        var active := ActiveOn(d.seats, changes[0].seat);
        StaysClosed(d.locks);
        if changes[0].stage.LockRequested? && active.Some? { LockOnlyCloses(d, active.value, Idling); }
        if changes[0].stage.SuspendRequested? { SuspendOnlyCloses(d, w); }
      }
      ChangesOnlyClose(next, changes[1..], w);
    }
  }

  lemma StaysClosed(l: L.Locks)
    ensures OnlyCloses(l, l)
  {
  }

  lemma TickOnlyCloses(d: State, w: World)
    ensures OnlyCloses(d.locks, HandleTick(d, w).locks)
  {
    hide Abandon; hide ApplyChanges;
    var a := CallIdle(d, I.CTick(w.now, d.settings.idle));
    var changes := Listing(w.changeOrder, I.Changes(d.idle, w.now, d.settings.idle));
    var b := ApplyChanges(a, changes, w);
    ChangesOnlyClose(a, changes, w);
    CallOnlyCloses(b.locks, L.CSweep(w.now));
    var c := CallElevation(CallLocks(b, L.CSweep(w.now)), E.CClearLockouts(w.now));
    GrewAbandon(c, E.CExpire(w.now), E.Overdue(c.elevation, w.now), TimedOut, w.promptOrder);
  }

  lemma TerminateSameLocks(d: State, s: SessionId, w: World)
    ensures OnTerminateSession(d, s, w).0.locks == d.locks
  {
    hide Abandon;
    if s in d.sessions.live {
      var ended := d.(sessions := S.Remove(d.sessions, {s}), seats := T.Detach(d.seats, s));
      GrewAbandon(ended, E.CAbandonSession(s), E.OpenFor(d.elevation, s), SessionEnded, w.promptOrder);
    }
  }

  lemma DispatchOnlyCloses(d: State, conn: ConnId, request: Request, w: World)
    requires !request.Unlock?
    ensures OnlyCloses(d.locks, Dispatch(d, conn, request, w).0.locks)
  {
    hide OnlyCloses; hide OnTerminateSession; hide LockAndShow; hide OnSuspend; hide L.Apply;
    StaysClosed(d.locks);
    match request
    case TerminateSession(s) => TerminateSameLocks(d, s, w);
    case LockSession(s) => LockOnlyCloses(d, s, Manual);
    case Suspend => SuspendOnlyCloses(d, w);
    case Inhibit(inhibitor) => CallOnlyCloses(d.locks, L.CInhibit(inhibitor));
    case ReleaseInhibit(id) => CallOnlyCloses(d.locks, L.CRelease(id));
    case _ =>
  }

  // ---- only a password opens a lock -----------------------------------------------------------

  /** The step is an authorized unlock request naming `s`, made while it is not
      locked out, whose password the authenticator accepts. */
  predicate OpensLock(d: State, input: Input, s: SessionId) {
    && input.Command? && input.request.Unlock? && input.request.session == s
    && Authorize(d, input.conn, input.uid, input.request, input.world.account).None?
    && L.LockOf(d.locks, s).state.Locked?
    && input.world.accepts
  }

  /** A locked session is unlocked by exactly those steps; nothing else the daemon
      ever does clears a lock. */
  lemma OpenedOnlyByPassword(d: State, input: Input, s: SessionId)
    requires L.IsLocked(d.locks, s)
    ensures !L.IsLocked(Step(d, input).locks, s) <==> OpensLock(d, input, s)
    ensures OpensLock(d, input, s) ==>
            Checked(s, input.request.userName, true, None, d.authenticator) in Step(d, input).log
  {
    hide Abandon; hide Dispatch; hide HandleTick;
    match input
    case Disconnected(conn, w) =>
      var gone := d.(registry := d.registry - {conn}, sessions := S.DropConnection(d.sessions, conn));
      GrewAbandon(gone, E.CAbandonConnection(conn), E.Touching(d.elevation, conn), ConnectionDropped, w.promptOrder);
    case Command(conn, uid, request, w) =>
      if request.Unlock? {
        UnlockMoves(d, conn, request, w, s);
      } else {
        DispatchOnlyCloses(d, conn, request, w);
      }
    case Tick(w) => TickOnlyCloses(d, w);
    case _ =>
  }

  lemma UnlockMoves(d: State, conn: ConnId, request: Request, w: World, s: SessionId)
    requires L.IsLocked(d.locks, s) && request.Unlock?
    ensures var d' := Dispatch(d, conn, request, w).0;
            && (!L.IsLocked(d'.locks, s) <==> request.session == s && L.LockOf(d.locks, s).state.Locked? && w.accepts)
            && (!L.IsLocked(d'.locks, s) ==> Checked(s, request.userName, true, None, d.authenticator) in d'.log)
  {
    LT.UnlockedOnlyByPassword(d.locks, L.CUnlock(request.session, w.accepts, d.settings.unlockAuth, w.now), s);
    if request.session == s && w.accepts && L.LockOf(d.locks, s).state.Locked? {
      var entry := Checked(s, request.userName, true, None, d.authenticator);
      assert (d.log + [entry])[|d.log|] == entry;
    }
  }

  /** The name checked is the one in the request. A request with any other name that
      is accepted opens the session all the same, and the check on record names the
      session's own user exactly when the request does. */
  lemma OpensUnderAnyName(d: State, input: Input, s: SessionId)
    requires OpensLock(d, input, s) && s in d.sessions.live
    ensures !L.IsLocked(Step(d, input).locks, s)
    ensures |d.log| < |Step(d, input).log|
    ensures Step(d, input).log[|d.log|] == Checked(s, input.request.userName, true, None, d.authenticator)
    ensures forall k :: |d.log| < k < |Step(d, input).log| ==> !Step(d, input).log[k].Checked?
    ensures (forall k :: |d.log| <= k < |Step(d, input).log| && Step(d, input).log[k].Checked?
               ==> Step(d, input).log[k].userName == d.sessions.live[s].userName)
       <==> input.request.userName == d.sessions.live[s].userName
  {
    hide Step;
    OpenedOnlyByPassword(d, input, s);
    OpeningLog(d, input, s);
  }

  lemma OpeningLog(d: State, input: Input, s: SessionId)
    requires OpensLock(d, input, s)
    ensures |d.log| < |Step(d, input).log|
    ensures Step(d, input).log[|d.log|] == Checked(s, input.request.userName, true, None, d.authenticator)
    ensures forall k :: |d.log| < k < |Step(d, input).log| ==> !Step(d, input).log[k].Checked?
  {
    hide L.Apply; hide Authorize; hide L.UnlockOutcome;
  }

  /** Over any run: a session locked at the start and unlocked at the end went
      through such a step. */
  lemma {:induction false} StaysLocked(d: State, inputs: seq<Input>, s: SessionId)
    requires L.IsLocked(d.locks, s) && !L.IsLocked(Run(d, inputs).locks, s)
    ensures exists k :: 0 <= k < |inputs| && OpensLock(Run(d, inputs[..k]), inputs[k], s)
  {
    hide Step; hide OpensLock; hide L.IsLocked;
    var n := |inputs| - 1;
    var before := Run(d, inputs[..n]);
    if L.IsLocked(before.locks, s) {
      OpenedOnlyByPassword(before, inputs[n], s);
    } else {
      StaysLocked(d, inputs[..n], s);
      var k :| 0 <= k < n && OpensLock(Run(d, inputs[..n][..k]), inputs[..n][k], s);
      assert inputs[..n][..k] == inputs[..k];
    }
  }

  // ---- the session record agrees with the lock --------------------------------------------------

  predicate AgreesOn(ctx: S.Context, l: L.Locks, s: SessionId) {
    && (ctx.state.Starting? || ctx.state.Active? || ctx.state.Locked?)
    && (ctx.state.Locked? ==> L.IsLocked(l, s))
  }

  /** A session recorded as Locked really is locked. The converse fails; the exact
      condition is in the module on lock records. */
  ghost predicate Agrees(r: S.Sessions, l: L.Locks) {
    forall s :: s in r.live ==> AgreesOn(r.live[s], l, s)
  }

  lemma AgreesCloser(r: S.Sessions, l: L.Locks, l': L.Locks)
    requires Agrees(r, l) && OnlyCloses(l, l')
    ensures Agrees(r, l')
  {
  }

  lemma AgreesLock(d: State, s: SessionId, reason: LockReason)
    requires Agrees(d.sessions, d.locks)
    ensures Agrees(LockAndShow(d, s, reason).sessions, LockAndShow(d, s, reason).locks)
  {
    LockOnlyCloses(d, s, reason);
    var d' := LockAndShow(d, s, reason);
    if L.MayLock(d.locks, d.settings.lock) {
      assert s in d'.locks.locks && L.IsLocked(d'.locks, s);
    }
  }

  lemma AgreesUnlock(d: State, s: SessionId, userName: string, w: World)
    requires Agrees(d.sessions, d.locks)
    ensures Agrees(OnUnlock(d, s, userName, w).0.sessions, OnUnlock(d, s, userName, w).0.locks)
  {
    var call := L.CUnlock(s, w.accepts, d.settings.unlockAuth, w.now);
    UnlockElsewhere(d.locks, call);
    hide L.Apply; hide L.UnlockOutcome; hide L.LockOf;
  }

  /** A password tried on one session leaves the others alone, and unless it is
      accepted does not open that one either. */
  lemma UnlockElsewhere(l: L.Locks, call: L.Call)
    requires call.CUnlock?
    ensures forall t :: t != call.session ==> L.IsLocked(L.Apply(l, call), t) == L.IsLocked(l, t)
    ensures !L.UnlockOutcome(l, call.session, call.accepted, call.auth).Success? && L.IsLocked(l, call.session)
            ==> L.IsLocked(L.Apply(l, call), call.session)
  {
    assert forall t :: t != call.session ==> L.LockOf(L.Apply(l, call), t) == L.LockOf(l, t);
  }

  lemma {:induction false} AgreesChanges(d: State, changes: seq<I.Change>, w: World)
    requires Agrees(d.sessions, d.locks)
    ensures Agrees(ApplyChanges(d, changes, w).sessions, ApplyChanges(d, changes, w).locks)
    decreases |changes|
  {
    if changes != [] {
      var next := ApplyChange(d, changes[0], w);
      assert Agrees(next.sessions, next.locks) by {
        hide Agrees; hide LockAndShow;
        var active := ActiveOn(d.seats, changes[0].seat);
        if changes[0].stage.LockRequested? && active.Some? { AgreesLock(d, active.value, Idling); }
        if changes[0].stage.SuspendRequested? {
          SuspendOnlyCloses(d, w);
          AgreesCloser(d.sessions, d.locks, next.locks);
        }
      }
      AgreesChanges(next, changes[1..], w);
    }
  }

  lemma AgreesTick(d: State, w: World)
    requires Agrees(d.sessions, d.locks)
    ensures Agrees(HandleTick(d, w).sessions, HandleTick(d, w).locks)
  {
    hide Abandon; hide ApplyChanges; hide Agrees; hide OnlyCloses;
    var a := CallIdle(d, I.CTick(w.now, d.settings.idle));
    var changes := Listing(w.changeOrder, I.Changes(d.idle, w.now, d.settings.idle));
    var b := ApplyChanges(a, changes, w);
    AgreesChanges(a, changes, w);
    CallOnlyCloses(b.locks, L.CSweep(w.now));
    AgreesCloser(b.sessions, b.locks, L.Apply(b.locks, L.CSweep(w.now)));
    var c := CallElevation(CallLocks(b, L.CSweep(w.now)), E.CClearLockouts(w.now));
    GrewAbandon(c, E.CExpire(w.now), E.Overdue(c.elevation, w.now), TimedOut, w.promptOrder);
  }

  lemma AgreesTerminate(d: State, s: SessionId, w: World)
    requires Agrees(d.sessions, d.locks)
    ensures Agrees(OnTerminateSession(d, s, w).0.sessions, d.locks)
  {
    hide Abandon;
    if s in d.sessions.live {
      var ended := d.(sessions := S.Remove(d.sessions, {s}), seats := T.Detach(d.seats, s));
      GrewAbandon(ended, E.CAbandonSession(s), E.OpenFor(d.elevation, s), SessionEnded, w.promptOrder);
    }
  }

  lemma AgreesRecords(d: State, conn: ConnId, request: Request, w: World)
    requires Agrees(d.sessions, d.locks)
    requires request.CreateSession? || request.RegisterCompositor? || request.Reboot? || request.PowerOff?
    ensures Agrees(Dispatch(d, conn, request, w).0.sessions, Dispatch(d, conn, request, w).0.locks)
  {
    hide L.IsLocked;
  }

  lemma AgreesDispatch(d: State, conn: ConnId, request: Request, w: World)
    requires Agrees(d.sessions, d.locks)
    ensures Agrees(Dispatch(d, conn, request, w).0.sessions, Dispatch(d, conn, request, w).0.locks)
  {
    hide Agrees; hide OnTerminateSession; hide LockAndShow; hide OnUnlock; hide OnSuspend; hide OnCreateSession;
    hide OnRegisterCompositor; hide OnPowerDown;
    match request
    case TerminateSession(s) =>
      AgreesTerminate(d, s, w);
      TerminateSameLocks(d, s, w);
    case LockSession(s) => AgreesLock(d, s, Manual);
    case Unlock(s, userName) => AgreesUnlock(d, s, userName, w);
    case Suspend =>
      SuspendOnlyCloses(d, w);
      SuspendSameSessions(d, w);
      AgreesCloser(d.sessions, d.locks, OnSuspend(d, w).0.locks);
    case Inhibit(inhibitor) =>
      CallOnlyCloses(d.locks, L.CInhibit(inhibitor));
      AgreesCloser(d.sessions, d.locks, L.Apply(d.locks, L.CInhibit(inhibitor)));
    case ReleaseInhibit(id) =>
      CallOnlyCloses(d.locks, L.CRelease(id));
      AgreesCloser(d.sessions, d.locks, L.Apply(d.locks, L.CRelease(id)));
    case CreateSession(_, _, _) => AgreesRecords(d, conn, request, w);
    case RegisterCompositor(_) => AgreesRecords(d, conn, request, w);
    case Reboot => AgreesRecords(d, conn, request, w);
    case PowerOff => AgreesRecords(d, conn, request, w);
    case _ =>
  }

  lemma SuspendSameSessions(d: State, w: World)
    ensures OnSuspend(d, w).0.sessions == d.sessions
  {
  }

  lemma AgreesStep(d: State, input: Input)
    requires Agrees(d.sessions, d.locks)
    ensures Agrees(Step(d, input).sessions, Step(d, input).locks)
  {
    hide Abandon; hide Dispatch; hide HandleTick;
    match input
    case Disconnected(conn, w) =>
      var gone := d.(registry := d.registry - {conn}, sessions := S.DropConnection(d.sessions, conn));
      GrewAbandon(gone, E.CAbandonConnection(conn), E.Touching(d.elevation, conn), ConnectionDropped, w.promptOrder);
    case Command(conn, uid, request, w) => AgreesDispatch(d, conn, request, w);
    case Tick(w) => AgreesTick(d, w);
    case _ =>
  }

  /** In every run the coarse and the fine lock state agree in this direction. */
  lemma {:induction false} AlwaysAgrees(settings: Settings, service: Option<Uid>, inputs: seq<Input>)
    ensures var d := Run(Boot(settings, service), inputs);
            Agrees(d.sessions, d.locks)
  {
    hide Step;
    if inputs != [] {
      var n := |inputs| - 1;
      AlwaysAgrees(settings, service, inputs[..n]);
      AgreesStep(Run(Boot(settings, service), inputs[..n]), inputs[n]);
    }
  }

  /** So in every run a compositor that registers finds the session recorded exactly
      as it is, Locked or Active, whatever a crash left behind, and is told to show
      the lock screen in the first case. */
  lemma RegisterRestores(settings: Settings, service: Option<Uid>, inputs: seq<Input>, conn: ConnId, s: SessionId)
    requires s in Run(Boot(settings, service), inputs).sessions.live
    ensures var d := Run(Boot(settings, service), inputs);
            var d' := OnRegisterCompositor(d, conn, s).0;
            && s in d'.sessions.live && d'.sessions.live[s].compositor == Some(conn)
            && d'.sessions.live[s].state == (if L.IsLocked(d.locks, s) then S.Locked else S.Active)
            && d'.locks == d.locks
            && d'.log == d.log + if L.IsLocked(d.locks, s)
                 then [Pushed(conn, ShowLockScreen(s, Manual), conn in d.registry)] else []
  {
    AlwaysAgrees(settings, service, inputs);
    hide Run;
    var d := Run(Boot(settings, service), inputs);
    assert AgreesOn(d.sessions.live[s], d.locks, s);
  }

  /** And a successful unlock of a live session leaves it Active and not locked. */
  lemma UnlockActivates(settings: Settings, service: Option<Uid>, inputs: seq<Input>, s: SessionId, userName: string,
                        w: World)
    requires s in Run(Boot(settings, service), inputs).sessions.live
    requires OnUnlock(Run(Boot(settings, service), inputs), s, userName, w).1 == AuthResult(Success)
    ensures var d' := OnUnlock(Run(Boot(settings, service), inputs), s, userName, w).0;
            s in d'.sessions.live && d'.sessions.live[s].state == S.Active && !L.IsLocked(d'.locks, s)
  {
    AlwaysAgrees(settings, service, inputs);
    hide Run;
    var d := Run(Boot(settings, service), inputs);
    assert AgreesOn(d.sessions.live[s], d.locks, s);
  }

  /** A suspend would lock every session without telling the records. */
  predicate SuspendLocks(d: State) {
    !L.Blocks(d.locks, L.InhibitSuspend) && d.settings.lock.lockOnSuspend && L.MayLock(d.locks, d.settings.lock)
  }

  /** One way the converse fails: after a suspend a session is locked while its record
      still says Active. */
  lemma SuspendLeavesRecords(d: State, w: World, s: SessionId)
    requires s in d.sessions.live && d.sessions.live[s].state == S.Active
    requires SuspendLocks(d)
    ensures var d' := OnSuspend(d, w).0;
            L.IsLocked(d'.locks, s) && s in d'.sessions.live && d'.sessions.live[s].state == S.Active
  {
    assert s in OnSuspend(d, w).0.locks.locks;
  }
}
