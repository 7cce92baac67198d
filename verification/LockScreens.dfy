/** What is on the screen: the lock screen last shown to, or taken from, a session's
    compositor is what the session's record says. */
module LockScreens {
  import opened Common
  import opened Authentication
  import opened Messages
  import opened DaemonModel
  import opened Histories
  import opened Authority
  import opened Observables
  import opened ObservableSteps
  import opened LockSafety
  import opened LockRecords
  import Registry
  import L = LockModel
  import I = IdleModel
  import S = SessionModel
  import T = SeatModel

  // ---- the state of a session's record -------------------------------------------------------

  ghost predicate Locks(d: State, input: Input, s: SessionId) {
    LocksFor(d, input, s, Manual) || LocksFor(d, input, s, Idling)
  }

  predicate Opens(d: State, input: Input, s: SessionId) {
    TriesPassword(d, input, s) && UnlockResult(d, s, input.world) == Success
  }

  ghost predicate Crashes(d: State, input: Input, s: SessionId) {
    input.ChildExit? && OwnerOf(d.sessions, input.pid, input.world.owner) == Some(s)
  }

  /** The state a session that lives through a step is in afterwards: as its lock says
      when a compositor registers, Locked when it is locked, Active when a password is
      accepted, Starting when its compositor dies, and otherwise what it was. */
  ghost function NextState(d: State, input: Input, s: SessionId): S.SessionState
    requires s in d.sessions.live
  {
    if Asked(d, input, RegisterCompositor(s)) then if L.IsLocked(d.locks, s) then S.Locked else S.Active
    else if Locks(d, input, s) then S.Locked
    else if Opens(d, input, s) then S.Active
    else if Crashes(d, input, s) then S.Starting
    else d.sessions.live[s].state
  }

  lemma TickState(d: State, w: World, s: SessionId)
    requires s in d.sessions.live && AgreesOn(d.sessions.live[s], d.locks, s)
    ensures s in HandleTick(d, w).sessions.live
    ensures HandleTick(d, w).sessions.live[s].state == NextState(d, Tick(w), s)
  {
    hide HandleTick; hide L.IsLocked; hide L.Blocks; hide Entitled; hide I.Changes;
    TickMoves(d, w, s);
    var changes := Listing(w.changeOrder, TickChanges(d, w));
    assert forall c :: c in changes <==> c in (set x | x in changes);
    if LocksFor(d, Tick(w), s, Idling) {
      var seat :| Changes(d, Tick(w), seat, I.LockRequested) && Foremost(d, seat, s);
      assert I.Change(seat, I.LockRequested) in changes && IdleLocks(d, I.Change(seat, I.LockRequested), w, s);
    }
    if AnyLocks(d, changes, w, s) {
      var c :| c in changes && IdleLocks(d, c, w, s);
      assert Changes(d, Tick(w), c.seat, I.LockRequested);
    }
  }

  lemma UnlockState(d: State, s: SessionId, name: string, w: World)
    requires s in d.sessions.live && AgreesOn(d.sessions.live[s], d.locks, s)
    ensures var d' := OnUnlock(d, s, name, w).0;
            && s in d'.sessions.live
            && d'.sessions.live[s].state
               == if UnlockResult(d, s, w) == Success then S.Active else d.sessions.live[s].state
  {
    hide L.Apply;
  }

  lemma RegisterState(d: State, conn: ConnId, s: SessionId)
    requires s in d.sessions.live && AgreesOn(d.sessions.live[s], d.locks, s)
    ensures var d' := OnRegisterCompositor(d, conn, s).0;
            && s in d'.sessions.live
            && d'.sessions.live[s].state == if L.IsLocked(d.locks, s) then S.Locked else S.Active
  {
    hide L.IsLocked;
  }

  lemma CommandState(d: State, input: Input, s: SessionId)
    requires input.Command? && Asked(d, input, input.request)
    requires Registry.Numbered(d.sessions) && s in d.sessions.live && AgreesOn(d.sessions.live[s], d.locks, s)
    requires s in Dispatch(d, input.conn, input.request, input.world).0.sessions.live
    ensures Dispatch(d, input.conn, input.request, input.world).0.sessions.live[s].state == NextState(d, input, s)
  {
    hide Registry.Numbered; hide L.IsLocked; hide L.Blocks; hide Entitled; hide OnTerminateSession; hide OnSuspend;
    hide OnPowerDown; hide OnUnlock; hide OnRegisterCompositor; hide LockAndShow; hide OnSwitchSession;
    hide UnlockResult;
    var conn, request, w := input.conn, input.request, input.world;
    if request.Suspend? {
      SuspendMoves(d, w, s);
    } else if request.Reboot? || request.PowerOff? {
      DownKeepsNobody(d, if request.Reboot? then ToReboot else ToPowerOff, w, s);
    } else if Target(request) != Some(s) {
      DispatchKeeps(d, conn, request, w, s);
      hide Dispatch;
    } else {
      match request
      case TerminateSession(_) => Registry.TerminateSessions(d, s, w);
      case RegisterCompositor(_) => RegisterState(d, conn, s);
      case LockSession(_) => LockMoves(d, s, Manual, w, s);
      case Unlock(_, name) => UnlockState(d, s, name, w);
      case SwitchSession(seat, _) => SwitchKeeps(d, seat, s, s);
      case SessionStatus(_) =>
    }
  }

  /** For every reachable state, every input and every session that lives through it. */
  lemma StateExactly(d: State, input: Input, s: SessionId)
    requires Registry.Numbered(d.sessions) && s in d.sessions.live && AgreesOn(d.sessions.live[s], d.locks, s)
    requires s in Step(d, input).sessions.live
    ensures Step(d, input).sessions.live[s].state == NextState(d, input, s)
  {
    hide HandleTick; hide Dispatch; hide HandleDisconnect; hide Registry.Numbered; hide L.IsLocked; hide L.Blocks;
    hide Authorize; hide UnlockResult;
    match input
    case Disconnected(conn, w) => Registry.DisconnectSessions(d, conn, w);
    case Tick(w) => TickState(d, w, s);
    case Command(conn, uid, request, w) =>
      PolicyExactly(d, conn, uid, request, w.account);
      hide Entitled;
      if Entitled(d, conn, uid, request, w.account) { CommandState(d, input, s); }
    case _ =>
  }

  // ---- a session's compositor -------------------------------------------------------------------

  /** The compositor of a session that lives through a step: whoever registers, nobody
      once that connection drops or the process behind it dies, and otherwise who it was. */
  ghost function NextCompositor(d: State, input: Input, s: SessionId): Option<ConnId>
    requires s in d.sessions.live
  {
    var c := d.sessions.live[s].compositor;
    if Asked(d, input, RegisterCompositor(s)) then Some(input.conn)
    else if input.Disconnected? && c == Some(input.conn) then None
    else if Crashes(d, input, s) then None
    else c
  }

  lemma {:induction false} ChangesCompositor(d: State, changes: seq<I.Change>, w: World, s: SessionId)
    ensures S.CompositorOf(ApplyChanges(d, changes, w).sessions, s) == S.CompositorOf(d.sessions, s)
    decreases |changes|
  {
    hide ApplyChange; hide S.CompositorOf;
    if changes != [] {
      ChangeSameAround(d, changes[0], w);
      ChangesCompositor(ApplyChange(d, changes[0], w), changes[1..], w, s);
    }
  }

  lemma TickCompositor(d: State, w: World, s: SessionId)
    ensures S.CompositorOf(HandleTick(d, w).sessions, s) == S.CompositorOf(d.sessions, s)
  {
    hide ApplyChanges; hide SweepTimers; hide S.CompositorOf;
    var a := CallIdle(d, I.CTick(w.now, d.settings.idle));
    var changes := Listing(w.changeOrder, I.Changes(d.idle, w.now, d.settings.idle));
    ChangesCompositor(a, changes, w, s);
    SweepKeepsLocked(ApplyChanges(a, changes, w), w, s);
  }

  lemma OwnCompositor(d: State, conn: ConnId, request: Request, w: World, s: SessionId)
    requires s in d.sessions.live && Target(request) == Some(s) && !request.TerminateSession?
    ensures S.CompositorOf(Dispatch(d, conn, request, w).0.sessions, s)
         == if request.RegisterCompositor? then Some(conn) else d.sessions.live[s].compositor
  {
    hide L.Apply; hide L.IsLocked; hide L.UnlockOutcome; hide L.Blocks; hide T.Switch; hide T.SwitchOutcome;
    hide S.Moved;
  }

  lemma CommandCompositor(d: State, conn: ConnId, request: Request, w: World, s: SessionId)
    requires Registry.Numbered(d.sessions) && s in d.sessions.live
    requires s in Dispatch(d, conn, request, w).0.sessions.live
    ensures Dispatch(d, conn, request, w).0.sessions.live[s].compositor
         == if request == RegisterCompositor(s) then Some(conn) else d.sessions.live[s].compositor
  {
    hide Registry.Numbered; hide OnTerminateSession; hide OnSuspend; hide OnPowerDown; hide OnUnlock;
    hide OnRegisterCompositor; hide LockAndShow; hide OnSwitchSession;
    if request.Suspend? {
      SuspendSameSessions(d, w);
    } else if request.Reboot? || request.PowerOff? {
      DownKeepsNobody(d, if request.Reboot? then ToReboot else ToPowerOff, w, s);
    } else if Target(request) != Some(s) {
      DispatchKeeps(d, conn, request, w, s);
      hide Dispatch;
    } else if request.TerminateSession? {
      Registry.TerminateSessions(d, s, w);
    } else {
      OwnCompositor(d, conn, request, w, s);
      hide Dispatch;
    }
  }

  lemma CompositorExactly(d: State, input: Input, s: SessionId)
    requires Registry.Numbered(d.sessions) && s in d.sessions.live && s in Step(d, input).sessions.live
    ensures Step(d, input).sessions.live[s].compositor == NextCompositor(d, input, s)
  {
    hide HandleTick; hide Dispatch; hide HandleDisconnect; hide Registry.Numbered; hide Authorize;
    match input
    case Disconnected(conn, w) => Registry.DisconnectSessions(d, conn, w);
    case Tick(w) => TickCompositor(d, w, s);
    case Command(conn, uid, request, w) =>
      PolicyExactly(d, conn, uid, request, w.account);
      hide Entitled;
      if Entitled(d, conn, uid, request, w.account) { CommandCompositor(d, conn, request, w, s); }
    case _ =>
  }

  // ---- what is on the screen ---------------------------------------------------------------------

  datatype Screen = Blank | LockShown | LockHidden

  ghost predicate Shows(d: State, d': State, s: SessionId, c: ConnId) {
    exists reason, delivered :: Pushed(c, ShowLockScreen(s, reason), delivered) in New(d.log, d'.log)
  }

  ghost predicate Hides(d: State, d': State, s: SessionId, c: ConnId) {
    exists delivered :: Pushed(c, HideLockScreen(s), delivered) in New(d.log, d'.log)
  }

  /** The last lock-screen event for `s` that its present compositor has been sent since
      it registered, step by step. */
  ghost function ScreenOf(boot: State, inputs: seq<Input>, s: SessionId): Screen {
    if inputs == [] then Blank
    else
      var n := |inputs| - 1;
      var d, d' := Run(boot, inputs[..n]), Run(boot, inputs);
      var c := S.CompositorOf(d'.sessions, s);
      if c.None? then Blank
      else if Shows(d, d', s, c.value) then LockShown
      else if Hides(d, d', s, c.value) then LockHidden
      else if Asked(d, inputs[n], RegisterCompositor(s)) then Blank
      else ScreenOf(boot, inputs[..n], s)
  }

  lemma ShowsExactly(d: State, input: Input, s: SessionId, c: ConnId)
    ensures Shows(d, Step(d, input), s, c) <==>
              || (DisplayedOn(d, s, c) && Locks(d, input, s))
              || (&& Asked(d, input, RegisterCompositor(s)) && input.conn == c && s in d.sessions.live
                  && L.IsLocked(d.locks, s))
  {
    hide Step; hide New; hide LocksFor; hide L.IsLocked; hide Entitled;
    var there := c in Outboxes(d, input);
    StepExactly(d, input, Pushed(c, ShowLockScreen(s, Manual), there));
    StepExactly(d, input, Pushed(c, ShowLockScreen(s, Idling), there));
    if Shows(d, Step(d, input), s, c) {
      var reason, delivered :| Pushed(c, ShowLockScreen(s, reason), delivered) in New(d.log, Step(d, input).log);
      StepExactly(d, input, Pushed(c, ShowLockScreen(s, reason), delivered));
      assert reason == Manual || reason == Idling;
    }
  }

  lemma HidesExactly(d: State, input: Input, s: SessionId, c: ConnId)
    ensures Hides(d, Step(d, input), s, c) <==> DisplayedOn(d, s, c) && Opens(d, input, s)
  {
    hide Step; hide New; hide UnlockResult; hide TriesPassword;
    var there := c in Outboxes(d, input);
    StepExactly(d, input, Pushed(c, HideLockScreen(s), true));
    StepExactly(d, input, Pushed(c, HideLockScreen(s), false));
    if DisplayedOn(d, s, c) && Opens(d, input, s) {
      assert Pushed(c, HideLockScreen(s), there) in New(d.log, Step(d, input).log);
    }
  }

  /** A session with a compositor is Active or Locked, and its lock screen is up exactly
      when it is Locked. */
  ghost predicate ScreenRight(d: State, screen: Screen, s: SessionId) {
    s in d.sessions.live && d.sessions.live[s].compositor.Some? ==>
      && (d.sessions.live[s].state.Active? || d.sessions.live[s].state.Locked?)
      && (screen.LockShown? <==> d.sessions.live[s].state.Locked?)
  }

  /** The step taken by itself: what it leaves on the screen. */
  ghost function NextScreen(d: State, input: Input, screen: Screen, s: SessionId): Screen {
    var d' := Step(d, input);
    var c := S.CompositorOf(d'.sessions, s);
    if c.None? then Blank
    else if Shows(d, d', s, c.value) then LockShown
    else if Hides(d, d', s, c.value) then LockHidden
    else if Asked(d, input, RegisterCompositor(s)) then Blank
    else screen
  }

  lemma ScreenStep(d: State, input: Input, screen: Screen, s: SessionId)
    requires Registry.Numbered(d.sessions) && Agrees(d.sessions, d.locks) && ScreenRight(d, screen, s)
    ensures ScreenRight(Step(d, input), NextScreen(d, input, screen, s), s)
  {
    hide Step; hide Shows; hide Hides; hide Registry.Numbered; hide L.IsLocked; hide Locks; hide Opens; hide Entitled;
    var d' := Step(d, input);
    if s in d'.sessions.live && d'.sessions.live[s].compositor.Some? {
      var c := d'.sessions.live[s].compositor.value;
      if s in d.sessions.live {
        assert AgreesOn(d.sessions.live[s], d.locks, s);
        StateExactly(d, input, s);
        CompositorExactly(d, input, s);
        ShowsExactly(d, input, s, c);
        HidesExactly(d, input, s, c);
        OneAtATime(d, input, s);
      } else {
        BornStep(d, input, s);
        BornDark(d, input, s);
      }
    }
  }

  lemma OneAtATime(d: State, input: Input, s: SessionId)
    ensures !(Locks(d, input, s) && Opens(d, input, s))
    ensures Asked(d, input, RegisterCompositor(s)) ==> !Locks(d, input, s) && !Opens(d, input, s)
    ensures Crashes(d, input, s) ==> !Locks(d, input, s) && !Opens(d, input, s)
  {
  }

  /** A session logs in without a compositor. */
  lemma BornDark(d: State, input: Input, s: SessionId)
    requires Registry.Numbered(d.sessions) && s !in d.sessions.live && s in Step(d, input).sessions.live
    ensures Step(d, input).sessions.live[s].compositor == None
  {
    hide HandleTick; hide HandleDisconnect; hide OnCreateSession; hide OnTerminateSession;
    match input
    case Disconnected(conn, w) => Registry.DisconnectSessions(d, conn, w);
    case Tick(w) => Registry.SameTick(d, w);
    case Command(conn, uid, request, w) =>
      if request.CreateSession? {
        Registry.CreateEffect(d, request.seatId, request.sessionType, w);
      } else if request.TerminateSession? {
        Registry.TerminateSessions(d, request.session, w);
      } else if request.Reboot? || request.PowerOff? {
        Registry.DownSessions(d, conn, request, w);
        hide Dispatch;
      } else {
        Registry.SameDispatch(d, conn, request, w);
        hide Dispatch;
      }
    case _ =>
  }

  /** In every run, of every session with a registered compositor: the last lock-screen
      event that compositor has been sent since it registered is a Show if and only if the
      session's record says Locked. */
  lemma {:induction false} ScreensAgree(settings: Settings, service: Option<Uid>, inputs: seq<Input>, s: SessionId)
    ensures var boot := Boot(settings, service);
            ScreenRight(Run(boot, inputs), ScreenOf(boot, inputs, s), s)
  {
    hide Step; hide ScreenRight; hide Shows; hide Hides;
    var boot := Boot(settings, service);
    if inputs == [] {
      BootScreen(settings, service, s);
    } else {
      var n := |inputs| - 1;
      ScreensAgree(settings, service, inputs[..n], s);
      AlwaysAgrees(settings, service, inputs[..n]);
      Registry.IdentityLasts(boot, inputs[..n]);
      ScreenStep(Run(boot, inputs[..n]), inputs[n], ScreenOf(boot, inputs[..n], s), s);
    }
  }

  lemma BootScreen(settings: Settings, service: Option<Uid>, s: SessionId)
    ensures ScreenRight(Boot(settings, service), Blank, s)
  {
  }
}
