/** The daemon itself: one object that owns the managers and handles one input at
    a time, proved step by step against the state machine. */
module Daemons {
  import opened Common
  import opened Authentication
  import opened Messages
  import D = DaemonModel
  import E = ElevationModel
  import L = LockModel
  import S = SessionModel
  import T = SeatModel
  import I = IdleModel
  import opened ElevationManagers
  import opened LockManagers
  import opened SessionManagers
  import opened SeatManagers
  import opened IdleDetectors
  import opened Timers

  /** Which connections still have an outbox. */
  class ConnRegistry {
    var outboxes: set<ConnId>

    constructor ()
      ensures outboxes == {}
    {
      outboxes := {};
    }

    method Register(conn: ConnId)
      modifies this
      ensures outboxes == old(outboxes) + {conn}
    {
      outboxes := outboxes + {conn};
    }

    method Unregister(conn: ConnId)
      modifies this
      ensures outboxes == old(outboxes) - {conn}
    {
      outboxes := outboxes - {conn};
    }
  }

  /** Notifications in the order the manager reported them are the model's
      notifications for that order. */
  lemma ReportsAreListed(torn: seq<E.Abandoned>, e: E.Elevation, ids: set<RequestId>)
    requires ids <= e.pending.Keys && Reports(torn, e.pending, ids)
    ensures D.Listed(e, ids, IdsOf(torn)) == torn
  {
    assert Listing(IdsOf(torn), ids) == IdsOf(torn);
  }

  /** `seen` is `w` with the orders the hash maps turned out to be walked in. */
  ghost predicate SameAnswers(w: D.World, seen: D.World) {
    seen == w.(promptOrder := seen.promptOrder, changeOrder := seen.changeOrder, owner := seen.owner)
  }

  class Daemon {
    var settings: D.Settings
    var authenticator: string
    const sessions: SessionManager
    const seats: SeatManager
    const locks: LockManager
    const idle: IdleDetector
    const registry: ConnRegistry
    const elevation: ElevationManager
    var exiting: bool
    // the record the theorems read
    ghost var log: seq<Entry>
    ghost var lockCalls: seq<L.Call>
    ghost var elevationCalls: seq<E.Call>
    ghost var idleCalls: seq<I.Call>

    ghost function Parts(): set<object> {
      {this, sessions, seats, locks, locks.inhibitors, locks.timeouts,
       idle, idle.tracker, registry, elevation, elevation.timeouts}
    }

    ghost function Model(): D.State
      reads Parts()
    {
      D.State(settings, elevation.requesterUid, authenticator, sessions.Model(), seats.seats, locks.Model(),
              idle.Model(), elevation.Model(), registry.outboxes, exiting, log, lockCalls, elevationCalls, idleCalls)
    }

    constructor (settings: D.Settings, service: Option<Uid>)
      ensures Model() == D.Boot(settings, service) && fresh(Parts() - {this})
    {
      this.settings := settings;
      authenticator := settings.authService;
      sessions := new SessionManager();
      seats := new SeatManager();
      locks := new LockManager();
      idle := new IdleDetector();
      registry := new ConnRegistry();
      elevation := new ElevationManager(service);
      exiting := false;
      log, lockCalls, elevationCalls, idleCalls := [], [], [], [];
      new;
      seats.EnsureSeat(settings.defaultSeat);
    }

    // ---- sending -----------------------------------------------------------------------

    method SendEvent(conn: ConnId, event: Event)
      modifies this`log
      ensures Model() == D.Push(old(Model()), conn, event)
    {
      log := log + [Pushed(conn, event, conn in registry.outboxes)];
    }

    method SendEventTo(conn: Option<ConnId>, event: Event)
      modifies this`log
      ensures Model() == D.PushTo(old(Model()), conn, event)
    {
      if conn.Some? {
        SendEvent(conn.value, event);
      }
    }

    method SendResponse(conn: ConnId, response: Response, ghost settles: Settles)
      modifies this`log
      ensures Model() == D.Reply(old(Model()), conn, response, settles)
    {
      log := log + [Replied(conn, response, settles, conn in registry.outboxes)];
    }

    method CompositorOf(s: SessionId) returns (conn: Option<ConnId>)
      ensures conn == S.CompositorOf(Model().sessions, s)
    {
      conn := if s in sessions.sessions then sessions.sessions[s].compositor else None;
    }

    // ---- elevation ---------------------------------------------------------------------

    method NotifyAbandoned(torn: seq<E.Abandoned>, reason: Reason)
      modifies this`log
      ensures Model() == D.NotifyAbandoned(old(Model()), torn, reason)
    {
      for i := 0 to |torn|
        invariant D.NotifyAbandoned(Model(), torn[i..], reason) == D.NotifyAbandoned(old(Model()), torn, reason)
      {
        var a := torn[i];
        assert torn[i..][0] == a && torn[i..][1..] == torn[i + 1..];
        SendEvent(a.prompt.compositor, HideElevationPrompt(a.id));
        SendResponse(a.prompt.requester, AuthResult(AuthOutcome.Error(reason)), Postponed(a.id));
      }
    }

    method StartElevation(conn: ConnId, s: SessionId, action: ElevationAction, w: D.World) returns (r: Option<Response>)
      modifies Parts()
      ensures (Model(), r) == D.StartElevation(old(Model()), conn, s, action, w)
    {
      hide E.Apply; hide E.BeginOutcome;
      if !action.wellFormed { return Some(Failed(Unsupported)); }
      if !settings.elevation.enabled { return Some(Failed(Unsupported)); }
      if s !in sessions.sessions { return Some(Failed(UnknownSession(s))); }
      var ctx := sessions.sessions[s];
      if ctx.userName in w.noPassword {
        return Some(AuthResult(AuthOutcome.Error(NoPasswordConfigured)));
      }
      if ctx.compositor.None? { return Some(Failed(Unsupported)); }
      var compositor := ctx.compositor.value;
      var begun := elevation.Begin(s, compositor, conn, settings.elevation, settings.elevationAuth, w.now);
      ghost var call := E.CBegin(s, compositor, conn, settings.elevation, settings.elevationAuth, w.now);
      elevationCalls := elevationCalls + [call];
      match begun {
        case RefusedLockedOut(secs) => return Some(AuthResult(AuthOutcome.LockedOut(secs)));
        case RefusedTooMany => return Some(Failed(PermissionDenied));
        case Opened(id) =>
          SendEvent(compositor, ShowElevationPrompt(id, s, action));
          return None;
      }
    }

    method Resolve(id: RequestId, r: E.Resolution)
      modifies this`log
      ensures Model() == D.Resolve(old(Model()), id, r)
    {
      SendEvent(r.prompt.compositor, ElevationFeedback(id, r.outcome));
      if r.terminal {
        SendEvent(r.prompt.compositor, HideElevationPrompt(id));
        SendResponse(r.prompt.requester, AuthResult(r.outcome), Postponed(id));
      }
    }

    method RespondElevation(id: RequestId, answer: Answer, w: D.World) returns (r: Response)
      modifies Parts()
      ensures (Model(), r) == D.OnRespondElevation(old(Model()), id, answer, w)
    {
      hide E.Apply; hide D.Resolve;
      if id !in elevation.pending { return Failed(UnknownElevationRequest(id)); }
      var s := elevation.pending[id].session;
      var resolved: Option<E.Resolution>;
      match answer {
        case Decline =>
          resolved := elevation.Cancel(id);
          elevationCalls := elevationCalls + [E.CCancel(id)];
        case Password =>
          if s !in sessions.sessions { return Failed(UnknownSession(s)); }
          log := log + [Checked(s, sessions.sessions[s].userName, w.accepts, Some(id), authenticator)];
          resolved := elevation.Attempt(id, w.accepts, settings.elevationAuth, w.now);
          elevationCalls := elevationCalls + [E.CAttempt(id, w.accepts, settings.elevationAuth, w.now)];
      }
      Resolve(id, resolved.value);
      return AuthResult(resolved.value.outcome);
    }

    // ---- sessions ------------------------------------------------------------------------

    method CreateSession(seatId: Option<SeatId>, sessionType: Option<string>, w: D.World) returns (r: Response)
      modifies Parts()
      ensures (Model(), r) == D.OnCreateSession(old(Model()), seatId, sessionType, w)
    {
      hide T.Attach; hide D.KindOf;
      if w.account.None? { return Failed(UnknownUser); }
      var account := w.account.value;
      var seat := if seatId.Some? then seatId.value else settings.defaultSeat;
      var kind := D.KindOf(sessionType, settings.defaultType);
      var created := sessions.CreateSession(account.uid, account.name, seat, kind, settings.sessionLimit, w.homeReady);
      match created {
        case RefusedTooMany => return Failed(PermissionDenied);
        case RefusedNotReady => return Failed(Io);
        case Created(id) =>
          seats.AttachSession(seat, id);
          if !kind.Tty? {
            TrySpawn(id, w.spawned);
          } else {
            assert sessions.sessions == sessions.sessions[id := sessions.sessions[id]];
          }
          return OneSession(D.Info(id, sessions.sessions[id]));
      }
    }

    /** Record the compositor process, if spawning it worked. */
    method TrySpawn(s: SessionId, spawned: Option<Pid>)
      modifies sessions
      ensures s in old(sessions.sessions) ==>
                sessions.Model() == S.Update(old(sessions.Model()), s, D.Spawned(old(sessions.sessions)[s], spawned))
      ensures s !in old(sessions.sessions) ==> sessions.Model() == old(sessions.Model())
    {
      if s in sessions.sessions {
        if spawned.Some? {
          sessions.Put(s, sessions.sessions[s].(process := spawned));
        } else {
          assert sessions.sessions == sessions.sessions[s := sessions.sessions[s]];
        }
      }
    }

    method TerminateSession(s: SessionId, w: D.World) returns (r: Response, ghost seen: D.World)
      modifies Parts()
      ensures SameAnswers(w, seen)
      ensures (Model(), r) == D.OnTerminateSession(old(Model()), s, seen)
    {
      hide E.Apply; hide D.NotifyAbandoned; hide D.Listed; hide IdsOf;
      seen := w;
      var ok := sessions.TerminateSession(s);
      if !ok {
        assert sessions.sessions == old(sessions.sessions);
        return Failed(UnknownSession(s)), w;
      }
      seats.DetachSession(s);
      ghost var e := elevation.Model();
      var torn := elevation.AbandonSession(s);
      elevationCalls := elevationCalls + [E.CAbandonSession(s)];
      ReportsAreListed(torn, e, E.OpenFor(e, s));
      seen := w.(promptOrder := IdsOf(torn));
      NotifyAbandoned(torn, SessionEnded);
      r := Ok;
    }

    method RegisterCompositor(conn: ConnId, s: SessionId) returns (r: Response)
      modifies Parts()
      ensures (Model(), r) == D.OnRegisterCompositor(old(Model()), conn, s)
    {
      if s !in sessions.sessions { return Failed(UnknownSession(s)); }
      sessions.Put(s, sessions.sessions[s].(compositor := Some(conn)));
      var locked := locks.IsLocked(s);
      if locked {
        sessions.Transition(s, S.Locked);
        SendEvent(conn, ShowLockScreen(s, Manual));
      } else {
        sessions.Transition(s, S.Active);
      }
      return Ok;
    }

    method SwitchSession(seat: SeatId, s: SessionId) returns (r: Response)
      modifies Parts()
      ensures (Model(), r) == D.OnSwitchSession(old(Model()), seat, s)
    {
      var switched := seats.SwitchActive(seat, s);
      match switched {
        case UnknownSeat => return Failed(SessionError.UnknownSeat);
        case NotOnSeat => return Failed(UnknownSession(s));
        case SwitchedFrom(_) =>
          var compositor := CompositorOf(s);
          SendEventTo(compositor, SessionActivated(seat, s));
          return Ok;
      }
    }

    // ---- locking ----------------------------------------------------------------------------

    method LockAndShow(s: SessionId, reason: LockReason) returns (ok: bool)
      modifies Parts()
      ensures ok == L.MayLock(old(Model()).locks, old(settings).lock)
      ensures Model() == D.LockAndShow(old(Model()), s, reason)
    {
      ok := locks.Lock(s, settings.lock);
      lockCalls := lockCalls + [L.CLock({s}, settings.lock)];
      if ok {
        var compositor := CompositorOf(s);
        sessions.Transition(s, S.Locked);
        SendEventTo(compositor, ShowLockScreen(s, reason));
      }
    }

    method SkipsLock(s: SessionId, w: D.World) returns (skip: bool)
      ensures skip == D.SkipsLock(Model(), s, w)
    {
      skip := s in sessions.sessions && sessions.sessions[s].userName in w.noPassword;
    }

    method LockSession(s: SessionId, w: D.World) returns (r: Response)
      modifies Parts()
      ensures (Model(), r) == D.OnLockSession(old(Model()), s, w)
    {
      var skip := SkipsLock(s, w);
      if skip { return Failed(Unsupported); }
      var ok := LockAndShow(s, Manual);
      if ok { return Ok; }
      return Failed(if settings.lock.enabled then PermissionDenied else Unsupported);
    }

    /** Ask the lock manager, noting the check if there is one. */
    method TryPassword(s: SessionId, userName: string, w: D.World) returns (outcome: AuthOutcome)
      modifies this`log, this`lockCalls, locks, locks.timeouts
      ensures outcome == L.UnlockOutcome(old(Model()).locks, s, w.accepts, settings.unlockAuth)
      ensures var d := old(Model());
              var call := L.CUnlock(s, w.accepts, settings.unlockAuth, w.now);
              Model() == D.CallLocks(D.Guess(d, s, userName, w.accepts), call)
    {
      hide L.Apply; hide L.UnlockOutcome;
      if !L.LockOf(locks.Model(), s).state.LockedOut? {
        log := log + [Checked(s, userName, w.accepts, None, authenticator)];
      }
      outcome := locks.AttemptUnlock(s, w.accepts, settings.unlockAuth, w.now);
      lockCalls := lockCalls + [L.CUnlock(s, w.accepts, settings.unlockAuth, w.now)];
    }

    method Unlock(s: SessionId, userName: string, w: D.World) returns (r: Response)
      modifies Parts()
      ensures (Model(), r) == D.OnUnlock(old(Model()), s, userName, w)
    {
      hide L.Apply; hide L.UnlockOutcome; hide L.LockOf; hide S.Transition; hide D.PushTo;
      var outcome := TryPassword(s, userName, w);
      var compositor := CompositorOf(s);
      if outcome.Success? {
        sessions.Transition(s, S.Active);
        SendEventTo(compositor, HideLockScreen(s));
      } else {
        SendEventTo(compositor, AuthFeedback(s, outcome));
      }
      return AuthResult(outcome);
    }

    // ---- power --------------------------------------------------------------------------------

    method CallBackend(kind: PowerKind)
      modifies this`log
      ensures Model() == D.CallBackend(old(Model()), kind)
    {
      log := log + [PowerCall(kind, sessions.sessions.Keys, locks.Model(), settings.lock, settings.grace)];
    }

    /** Wait out the grace period if some application asked for a delay. */
    method Pause(kind: PowerKind)
      modifies this`log
      ensures Model() == D.Pause(old(Model()), kind)
    {
      var delayers := locks.inhibitors.Delayers(D.Holding(kind));
      assert L.Delays(Model().locks, D.Holding(kind)) <==> delayers != {} by {
        if delayers != {} {
          var id :| id in delayers;
          assert id in Model().locks.inhibitors;
        }
        if L.Delays(Model().locks, D.Holding(kind)) {
          var held := Model().locks.inhibitors;
          var id :| id in held && held[id].what == D.Holding(kind) && held[id].mode == L.Delay;
          assert id in delayers;
        }
      }
      if delayers != {} {
        log := log + [Paused(kind, settings.grace)];
      }
    }

    /** Engage the lock of every live session in turn, if the policy says so, and
        tell its compositor to prepare; `told` is who was told. */
    method LockEveryone() returns (told: map<SessionId, ConnId>)
      modifies locks
      ensures told == S.Compositors(sessions.Model())
      ensures locks.Model() == if settings.lock.lockOnSuspend
                then L.Apply(old(locks.Model()), L.CLock(sessions.sessions.Keys, settings.lock))
                else old(locks.Model())
    {
      ghost var before := locks.Model();
      var unseen := sessions.sessions.Keys;
      ghost var done: set<SessionId> := {};
      told := map[];
      EngageNobody(before, settings.lock);
      while unseen != {}
        invariant unseen + done == sessions.sessions.Keys && unseen !! done
        invariant told == Told(sessions.Model(), done)
        invariant locks.Model() == if settings.lock.lockOnSuspend then L.Engage(before, done, settings.lock) else before
        decreases unseen
      {
        var s :| s in unseen;
        if settings.lock.lockOnSuspend {
          var _ := locks.Lock(s, settings.lock);
          EngageOneMore(before, done, s, settings.lock);
        }
        var compositor := sessions.sessions[s].compositor;
        if compositor.Some? {
          told := told[s := compositor.value];
        }
        unseen, done := unseen - {s}, done + {s};
      }
      assert done == sessions.sessions.Keys;
    }

    method Suspend(w: D.World) returns (r: Response)
      modifies Parts()
      ensures (Model(), r) == D.OnSuspend(old(Model()), w)
    {
      var blocked := locks.inhibitors.Blocks(L.InhibitSuspend);
      assert blocked == L.Blocks(Model().locks, L.InhibitSuspend);
      if blocked { return Failed(PermissionDenied); }
      Pause(ToSuspend);
      var told := LockEveryone();
      if settings.lock.lockOnSuspend {
        lockCalls := lockCalls + [L.CLock(sessions.sessions.Keys, settings.lock)];
      }
      log := log + [Broadcast(told, PrepareForSleep, registry.outboxes)];
      CallBackend(ToSuspend);
      return D.PowerResult(w);
    }

    method PowerDown(kind: PowerKind, w: D.World) returns (r: Response)
      modifies Parts()
      ensures (Model(), r) == D.OnPowerDown(old(Model()), kind, w)
    {
      var blocked := locks.inhibitors.Blocks(L.InhibitShutdown);
      assert blocked == L.Blocks(Model().locks, L.InhibitShutdown);
      if blocked { return Failed(PermissionDenied); }
      Pause(kind);
      sessions.TerminateAll();
      CallBackend(kind);
      return D.PowerResult(w);
    }

    // ---- commands --------------------------------------------------------------------------------

    method ReportActivity(seat: SeatId, now: Instant)
      modifies this`idleCalls, idle, idle.tracker
      ensures Model() == D.CallIdle(old(Model()), I.CActivity(seat, now))
    {
      hide I.Apply;
      idle.RecordActivity(seat, now);
      idleCalls := idleCalls + [I.CActivity(seat, now)];
    }

    method Inhibit(inhibitor: L.Inhibitor) returns (id: nat)
      modifies this`lockCalls, locks.inhibitors
      ensures Model() == D.CallLocks(old(Model()), L.CInhibit(inhibitor))
      ensures id == old(Model()).locks.nextInhibitor + 1
    {
      hide L.Apply;
      id := locks.AddInhibitor(inhibitor);
      lockCalls := lockCalls + [L.CInhibit(inhibitor)];
    }

    method ReleaseInhibit(id: nat) returns (found: bool)
      modifies this`lockCalls, locks.inhibitors
      ensures Model() == D.CallLocks(old(Model()), L.CRelease(id))
      ensures found <==> id in old(Model()).locks.inhibitors
    {
      hide L.Apply;
      found := locks.ReleaseInhibitor(id);
      lockCalls := lockCalls + [L.CRelease(id)];
    }

    /** The commands that only read. */
    method Query(request: Request) returns (r: Response)
      requires request.ListSessions? || request.SessionStatus? || request.ListInhibitors?
      ensures forall conn, w :: (Model(), Some(r)) == D.Dispatch(Model(), conn, request, w)
    {
      match request {
        case ListSessions => r := SessionList(set s | s in sessions.sessions :: D.Info(s, sessions.sessions[s]));
        case SessionStatus(s) =>
          if s in sessions.sessions {
            r := OneSession(D.Info(s, sessions.sessions[s]));
          } else {
            r := Failed(UnknownSession(s));
          }
        case ListInhibitors => r := InhibitorList(locks.inhibitors.inhibitors);
      }
    }

    method Dispatch(conn: ConnId, request: Request, w: D.World) returns (r: Option<Response>, ghost seen: D.World)
      modifies Parts()
      ensures SameAnswers(w, seen)
      ensures (Model(), r) == D.Dispatch(old(Model()), conn, request, seen)
    {
      hide Model; hide D.OnCreateSession; hide D.OnTerminateSession; hide D.OnRegisterCompositor; hide D.OnLockSession;
      hide D.OnUnlock; hide D.OnSwitchSession; hide D.OnSuspend; hide D.OnPowerDown; hide D.OnRespondElevation;
      hide D.StartElevation;
      hide D.CallIdle; hide D.CallLocks;
      seen := w;
      var now: Response;
      match request {
        case CreateSession(_, seatId, sessionType) => now := CreateSession(seatId, sessionType, w);
        case TerminateSession(s) => now, seen := TerminateSession(s, w);
        case RegisterCompositor(s) => now := RegisterCompositor(conn, s);
        case LockSession(s) => now := LockSession(s, w);
        case Unlock(s, userName) => now := Unlock(s, userName, w);
        case SwitchSession(seat, s) => now := SwitchSession(seat, s);
        case Suspend => now := Suspend(w);
        case Reboot => now := PowerDown(ToReboot, w);
        case PowerOff => now := PowerDown(ToPowerOff, w);
        case RespondElevation(id, answer) => now := RespondElevation(id, answer, w);
        case RequestElevation(s, action) =>
          r := StartElevation(conn, s, action, w);
          return;
        case ReportActivity(seat) =>
          ReportActivity(seat, w.now);
          now := Ok;
        case Inhibit(inhibitor) =>
          var id := Inhibit(inhibitor);
          now := InhibitGranted(id);
        case ReleaseInhibit(id) =>
          var found := ReleaseInhibit(id);
          now := if found then Ok else Failed(UnknownInhibitor);
        case _ => now := Query(request);
      }
      r := Some(now);
    }

    method Authorize(conn: ConnId, uid: Uid, request: Request,
                     account: Option<D.Account>) returns (refused: Option<SessionError>)
      ensures refused == D.Authorize(Model(), conn, uid, request, account)
    {
      refused := D.Allowed(S.Sessions(sessions.sessions, sessions.nextId), elevation.requesterUid, elevation.pending,
                           conn, uid, request, account);
    }

    method Finish(r: Option<Response>, conn: ConnId)
      modifies this`log
      ensures Model() == D.Finish((old(Model()), r), conn)
    {
      if r.Some? {
        SendResponse(conn, r.value, Current);
      } else {
        log := log + [PutOff(conn, elevation.nextId)];
      }
    }

    method HandleCommand(conn: ConnId, uid: Uid, request: Request, w: D.World) returns (ghost seen: D.World)
      modifies Parts()
      ensures SameAnswers(w, seen)
      ensures Model() == D.HandleCommand(old(Model()), conn, uid, request, seen)
    {
      hide D.Dispatch; hide D.Authorize; hide D.Finish; hide Model; hide D.Reply;
      seen := w;
      var refused := Authorize(conn, uid, request, w.account);
      if refused.Some? {
        SendResponse(conn, Failed(refused.value), Current);
        return;
      }
      var r;
      r, seen := Dispatch(conn, request, w);
      Finish(r, conn);
    }

    // ---- the other inputs -------------------------------------------------------------------------

    method HandleDisconnect(conn: ConnId, w: D.World) returns (ghost seen: D.World)
      modifies Parts()
      ensures SameAnswers(w, seen)
      ensures Model() == D.HandleDisconnect(old(Model()), conn, seen)
    {
      hide E.Apply; hide D.NotifyAbandoned; hide D.Listed; hide IdsOf;
      registry.Unregister(conn);
      sessions.ForgetConnection(conn);
      ghost var e := elevation.Model();
      var torn := elevation.AbandonConnection(conn);
      elevationCalls := elevationCalls + [E.CAbandonConnection(conn)];
      ReportsAreListed(torn, e, E.Touching(e, conn));
      seen := w.(promptOrder := IdsOf(torn));
      NotifyAbandoned(torn, ConnectionDropped);
    }

    method ApplyChange(change: I.Change, w: D.World)
      modifies Parts()
      ensures Model() == D.ApplyChange(old(Model()), change, w)
    {
      var active := seats.ActiveSession(change.seat);
      match change.stage {
        case StageActive =>
        case Dimmed =>
          if active.Some? {
            var compositor := CompositorOf(active.value);
            SendEventTo(compositor, Dim(change.seat));
          }
        case LockRequested =>
          if settings.lock.lockOnIdle && active.Some? {
            var skip := SkipsLock(active.value, w);
            if !skip {
              var _ := LockAndShow(active.value, Idling);
            }
          }
        case SuspendRequested =>
          var _ := Suspend(w);
      }
    }

    method ApplyChanges(changes: seq<I.Change>, w: D.World)
      modifies Parts()
      ensures Model() == D.ApplyChanges(old(Model()), changes, w)
    {
      for i := 0 to |changes|
        invariant D.ApplyChanges(Model(), changes[i..], w) == D.ApplyChanges(old(Model()), changes, w)
      {
        assert changes[i..][0] == changes[i] && changes[i..][1..] == changes[i + 1..];
        ApplyChange(changes[i], w);
      }
    }

    method SweepTimers(w: D.World) returns (ghost order: seq<RequestId>)
      modifies Parts()
      ensures Model() == D.SweepTimers(old(Model()), w.(promptOrder := order))
    {
      hide L.Apply; hide E.Apply; hide D.NotifyAbandoned; hide D.Listed; hide IdsOf; hide E.ExpiredPrompts;
      locks.SweepLockouts(w.now);
      lockCalls := lockCalls + [L.CSweep(w.now)];
      elevation.ClearExpiredLockouts(w.now);
      elevationCalls := elevationCalls + [E.CClearLockouts(w.now)];
      ghost var e := elevation.Model();
      var torn := elevation.ExpirePending(w.now);
      elevationCalls := elevationCalls + [E.CExpire(w.now)];
      ReportsAreListed(torn, e, E.Overdue(e, w.now));
      order := IdsOf(torn);
      NotifyAbandoned(torn, TimedOut);
    }

    method OnIdleTick(w: D.World) returns (ghost seen: D.World)
      modifies Parts()
      ensures SameAnswers(w, seen)
      ensures Model() == D.HandleTick(old(Model()), seen)
    {
      hide D.ApplyChanges; hide D.SweepTimers; hide I.Apply; hide I.Changes;
      var policy := settings.idle;
      var changes := idle.Tick(w.now, policy);
      idleCalls := idleCalls + [I.CTick(w.now, policy)];
      ghost var ticked := Model();
      assert ticked == D.CallIdle(old(Model()), I.CTick(w.now, policy));
      ApplyChanges(changes, w);
      ghost var order := SweepTimers(w);
      seen := w.(promptOrder := order, changeOrder := changes);
      ChangesIgnoreOrder(ticked, changes, w, seen);
      SweepIgnoresChanges(D.ApplyChanges(ticked, changes, w), w.(promptOrder := order), seen);
      assert Listing(changes, I.Changes(old(Model()).idle, w.now, policy)) == changes;
    }

    method HandleCompositorExit(pid: Pid, w: D.World) returns (ghost seen: D.World)
      modifies Parts()
      ensures SameAnswers(w, seen)
      ensures Model() == D.HandleChildExit(old(Model()), pid, seen)
    {
      hide D.Restarted;
      var found := sessions.FindByProcess(pid);
      if found.None? {
        return w;
      }
      var s := found.value;
      seen := w.(owner := s);
      var stale := sessions.sessions[s].compositor;
      if stale.Some? {
        registry.Unregister(stale.value);
      }
      Relaunch(s, w.spawned);
    }

    /** Clear the dead compositor out, fall back to Starting, and start another, or a
        plain terminal once it has been restarted too often. */
    method Relaunch(s: SessionId, spawned: Option<Pid>)
      requires s in sessions.sessions
      modifies sessions
      ensures var ctx := old(sessions.sessions)[s];
              sessions.Model() == S.Update(old(sessions.Model()), s, D.Restarted(ctx, settings.maxRestarts, spawned))
    {
      var ctx := sessions.sessions[s];
      sessions.Put(s, ctx.(process := None, compositor := None));
      sessions.Transition(s, S.Starting);
      ghost var moved := ctx.(process := None, compositor := None, state := S.Moved(ctx.state, S.Starting));
      assert sessions.sessions == old(sessions.sessions)[s := moved];
      if ctx.restarts < settings.maxRestarts {
        sessions.Put(s, sessions.sessions[s].(restarts := ctx.restarts + 1));
      }
      TrySpawn(s, spawned);
    }

    /** One input, whole. `seen` is the same input with the orders in which the hash
        maps happened to be walked filled in. */
    method Handle(input: D.Input) returns (ghost seen: D.Input)
      modifies Parts()
      ensures Model() == D.Step(old(Model()), seen)
      ensures SameInput(input, seen)
    {
      hide D.HandleDisconnect; hide D.HandleCommand; hide D.HandleTick; hide D.HandleChildExit;
      seen := input;
      ghost var world: D.World;
      match input {
        case Connected(conn) => registry.Register(conn);
        case Disconnected(conn, w) =>
          world := HandleDisconnect(conn, w);
          seen := D.Disconnected(conn, world);
        case Command(conn, uid, request, w) =>
          world := HandleCommand(conn, uid, request, w);
          seen := D.Command(conn, uid, request, world);
        case Tick(w) =>
          world := OnIdleTick(w);
          seen := D.Tick(world);
        case ChildExit(pid, w) =>
          world := HandleCompositorExit(pid, w);
          seen := D.ChildExit(pid, world);
        case Reload(fresh_, service) =>
          settings := fresh_;
          authenticator := fresh_.authService;
          elevation.SetRequesterUid(service);
        case Terminate =>
          sessions.TerminateAll();
          exiting := true;
      }
    }

    method HandleAll(batch: seq<D.Input>) returns (ghost seen: seq<D.Input>)
      modifies Parts()
      ensures Model() == D.Run(old(Model()), seen)
      ensures SameInputs(batch, seen)
    {
      hide D.Step; hide Model; hide SameInput;
      seen := [];
      for i := 0 to |batch|
        invariant Model() == D.Run(old(Model()), seen)
        invariant SameInputs(batch[..i], seen)
      {
        ghost var last := Handle(batch[i]);
        D.RunSnoc(old(Model()), seen, last);
        seen := seen + [last];
        assert batch[..i + 1] == batch[..i] + [batch[i]];
      }
      assert batch[..|batch|] == batch;
    }

    /** The event loop: batch after batch until, between two of them, the daemon is
        found to be exiting. What it has done then is a run of the state machine on
        the inputs of the batches it took. */
    method Serve(batches: seq<seq<D.Input>>) returns (taken: nat, ghost seen: seq<D.Input>)
      modifies Parts()
      ensures taken <= |batches| && SameInputs(Joined(batches[..taken]), seen)
      ensures Model() == D.Run(old(Model()), seen)
      ensures taken < |batches| ==> Model().exiting
      ensures forall k :: 0 <= k < taken ==> StillServing(old(Model()), batches, k, seen)
    {
      hide D.Run; hide SameInput;
      ghost var start := old(Model());
      taken, seen := 0, [];
      D.RunNone(start);
      while taken < |batches| && !exiting
        invariant taken <= |batches| && SameInputs(Joined(batches[..taken]), seen)
        invariant Model() == D.Run(start, seen)
        invariant forall k :: 0 <= k < taken ==> StillServing(start, batches, k, seen)
      {
        ghost var more := HandleAll(batches[taken]);
        JoinedSnoc(batches, taken);
        D.RunAppend(start, seen, more);
        SameInputsAppend(Joined(batches[..taken]), seen, batches[taken], more);
        StillServingMore(start, batches, taken, seen, more);
        taken, seen := taken + 1, seen + more;
      }
    }
  }

  /** `seen` is the input with the orders in which the hash maps were walked filled in. */
  ghost predicate SameInput(input: D.Input, seen: D.Input) {
    match input
    case Disconnected(c, w) => seen.Disconnected? && seen.conn == c && SameAnswers(w, seen.world)
    case Command(c, uid, request, w) =>
      seen.Command? && seen.conn == c && seen.uid == uid && seen.request == request && SameAnswers(w, seen.world)
    case Tick(w) => seen.Tick? && SameAnswers(w, seen.world)
    case ChildExit(pid, w) => seen.ChildExit? && seen.pid == pid && SameAnswers(w, seen.world)
    case _ => seen == input
  }

  ghost predicate SameInputs(inputs: seq<D.Input>, seen: seq<D.Input>) {
    |seen| == |inputs| && forall k :: 0 <= k < |inputs| ==> SameInput(inputs[k], seen[k])
  }

  lemma SameInputsAppend(a: seq<D.Input>, a': seq<D.Input>, b: seq<D.Input>, b': seq<D.Input>)
    requires SameInputs(a, a') && SameInputs(b, b')
    ensures SameInputs(a + b, a' + b')
  {
    hide SameInput;
  }

  ghost function Joined(batches: seq<seq<D.Input>>): seq<D.Input> {
    if batches == [] then [] else Joined(batches[..|batches| - 1]) + batches[|batches| - 1]
  }

  lemma JoinedSnoc(batches: seq<seq<D.Input>>, k: nat)
    requires k < |batches|
    ensures Joined(batches[..k + 1]) == Joined(batches[..k]) + batches[k]
  {
    assert batches[..k + 1][..k] == batches[..k];
  }

  /** After the first `k` batches, the daemon was not exiting. */
  ghost predicate StillServing(start: D.State, batches: seq<seq<D.Input>>, k: nat, seen: seq<D.Input>)
    requires k <= |batches|
  {
    var n := |Joined(batches[..k])|;
    n <= |seen| && !D.Run(start, seen[..n]).exiting
  }

  lemma StillServingMore(start: D.State, batches: seq<seq<D.Input>>, taken: nat, seen: seq<D.Input>, more: seq<D.Input>)
    requires taken < |batches| && |seen| == |Joined(batches[..taken])|
    requires !D.Run(start, seen).exiting
    requires forall k :: 0 <= k < taken ==> StillServing(start, batches, k, seen)
    ensures forall k :: 0 <= k < taken + 1 ==> StillServing(start, batches, k, seen + more)
  {
    hide D.Run; hide Joined;
    forall k | 0 <= k < taken + 1 ensures StillServing(start, batches, k, seen + more) {
      var n := |Joined(batches[..k])|;
      if k < taken {
        assert StillServing(start, batches, k, seen);
        assert (seen + more)[..n] == seen[..n];
      } else {
        assert (seen + more)[..n] == seen;
      }
    }
  }

  /** What a stage change does depends on the world's answers, not on the order in
      which maps are walked. */
  lemma {:induction false} ChangesIgnoreOrder(d: D.State, changes: seq<I.Change>, w: D.World, seen: D.World)
    requires SameAnswers(w, seen)
    ensures D.ApplyChanges(d, changes, seen) == D.ApplyChanges(d, changes, w)
    decreases |changes|
  {
    if changes != [] {
      assert D.ApplyChange(d, changes[0], seen) == D.ApplyChange(d, changes[0], w);
      ChangesIgnoreOrder(D.ApplyChange(d, changes[0], w), changes[1..], w, seen);
    }
  }

  lemma SweepIgnoresChanges(d: D.State, w: D.World, seen: D.World)
    requires seen.now == w.now && seen.promptOrder == w.promptOrder
    ensures D.SweepTimers(d, seen) == D.SweepTimers(d, w)
  {
  }

  /** The compositors of the sessions in `done`. */
  ghost function Told(r: S.Sessions, done: set<SessionId>): map<SessionId, ConnId> {
    map s | s in done && s in r.live && r.live[s].compositor.Some? :: r.live[s].compositor.value
  }

  lemma EngageNobody(l: L.Locks, policy: L.LockPolicy)
    ensures L.Engage(l, {}, policy) == l
  {
    assert L.Engage(l, {}, policy).locks == l.locks;
  }

  lemma EngageKeepsInhibitors(l: L.Locks, ids: set<SessionId>, policy: L.LockPolicy)
    ensures L.Engage(l, ids, policy).inhibitors == l.inhibitors
    ensures L.MayLock(L.Engage(l, ids, policy), policy) == L.MayLock(l, policy)
  {
  }

  lemma EngagedAt(l: L.Locks, ids: set<SessionId>, policy: L.LockPolicy)
    requires L.MayLock(l, policy)
    ensures var l' := L.Engage(l, ids, policy);
            && l' == l.(locks := l'.locks) && l'.locks.Keys == l.locks.Keys + ids
            && (forall t :: t in l'.locks ==>
                  l'.locks[t] == if t in ids then L.SessionLock(L.Locked, L.LockOf(l, t).attempts) else l.locks[t])
            && (forall t :: L.LockOf(l', t).attempts == L.LockOf(l, t).attempts)
  {
  }

  /** Locking a set and then one more is locking them together. */
  lemma EngageOneMore(l: L.Locks, done: set<SessionId>, s: SessionId, policy: L.LockPolicy)
    ensures L.Engage(L.Engage(l, done, policy), {s}, policy) == L.Engage(l, done + {s}, policy)
  {
    EngageKeepsInhibitors(l, done, policy);
    if L.MayLock(l, policy) {
      hide L.MayLock; hide L.Engage; hide L.LockOf;
      EngagedAt(l, done, policy);
      EngagedAt(L.Engage(l, done, policy), {s}, policy);
      EngagedAt(l, done + {s}, policy);
      assert L.Engage(L.Engage(l, done, policy), {s}, policy).locks == L.Engage(l, done + {s}, policy).locks;
    }
  }
}
