/** Session records, exactly: how one comes to be, and what a step makes of it. */
module Records {
  import opened Common
  import opened Authentication
  import opened Messages
  import opened DaemonModel
  import opened Histories
  import opened Authority
  import opened Observables
  import opened ObservableSteps
  import opened LockSafety
  import opened LockRecords
  import opened LockScreens
  import Registry
  import L = LockModel
  import I = IdleModel
  import S = SessionModel
  import T = SeatModel

  // ---- logging in ---------------------------------------------------------------------------

  /** The step logs in a session under the id `s`: someone entitled to asks, the account
      exists, is below its limit and has a home, and `s` is the next id. */
  predicate Welcomes(d: State, input: Input, s: SessionId) {
    && input.Command? && input.request.CreateSession? && Asked(d, input, input.request)
    && input.world.account.Some? && Below(d, input.world.account.value.uid) && input.world.homeReady
    && s == d.sessions.nextId
  }

  /** The record of a session that has just logged in as asked: who and where it is for,
      of which type, Starting, with no compositor yet, and with a process unless it is a
      terminal. */
  predicate Fresh(d: State, request: Request, w: World, ctx: S.Context)
    requires request.CreateSession? && w.account.Some?
  {
    && ctx.uid == w.account.value.uid && ctx.userName == w.account.value.name
    && (request.seatId.Some? ==> ctx.seat == request.seatId.value)
    && (request.seatId.None? ==> ctx.seat == d.settings.defaultSeat)
    && (request.sessionType == Some("x11") ==> ctx.kind == S.X11)
    && (request.sessionType == Some("tty") ==> ctx.kind == S.Tty)
    && (request.sessionType !in {Some("x11"), Some("tty")} ==> ctx.kind == d.settings.defaultType)
    && ctx.state == S.Starting && ctx.compositor == None && ctx.restarts == 0
    && ctx.process == if ctx.kind == S.Tty then None else w.spawned
  }

  lemma CreateFresh(d: State, request: Request, w: World)
    requires request.CreateSession? && w.account.Some? && Below(d, w.account.value.uid) && w.homeReady
    ensures var d' := OnCreateSession(d, request.seatId, request.sessionType, w).0;
            var s := d.sessions.nextId;
            && s in d'.sessions.live && Fresh(d, request, w, d'.sessions.live[s])
            && Registry.OnSeat(d'.seats, d'.sessions.live[s].seat, s)
  {
    hide S.OwnedBy; hide Info; hide SessionsOf;
    SessionsOfOwned(d, w.account.value.uid);
  }

  /** A session comes to life exactly when one is welcomed, and then with a fresh record,
      on the seat it names. */
  lemma LoginExactly(d: State, input: Input, s: SessionId)
    requires Registry.Numbered(d.sessions) && s !in d.sessions.live
    ensures s in Step(d, input).sessions.live <==> Welcomes(d, input, s)
    ensures Welcomes(d, input, s) ==>
              && s in Step(d, input).sessions.live
              && Fresh(d, input.request, input.world, Step(d, input).sessions.live[s])
              && Registry.OnSeat(Step(d, input).seats, Step(d, input).sessions.live[s].seat, s)
  {
    hide HandleTick; hide HandleDisconnect; hide OnCreateSession; hide Authorize; hide Fresh; hide Registry.OnSeat;
    hide Registry.Numbered; hide S.OwnedBy; hide OnTerminateSession; hide SessionsOf;
    BornStep(d, input, s);
    if input.Command? && input.world.account.Some? { SessionsOfOwned(d, input.world.account.value.uid); }
    if input.Command? {
      PolicyExactly(d, input.conn, input.uid, input.request, input.world.account);
      if Welcomes(d, input, s) { CreateFresh(d, input.request, input.world); }
    }
  }

  /** An id is spent exactly when a login gets past the limit, whether or not the home is
      then ready for it. */
  predicate SpendsId(d: State, input: Input) {
    && input.Command? && input.request.CreateSession? && Asked(d, input, input.request)
    && input.world.account.Some? && Below(d, input.world.account.value.uid)
  }

  lemma IdsSpentExactly(d: State, input: Input)
    ensures Step(d, input).sessions.nextId == d.sessions.nextId + if SpendsId(d, input) then 1 else 0
  {
    hide HandleTick; hide HandleDisconnect; hide Dispatch; hide Authorize; hide S.OwnedBy;
    match input
    case Disconnected(conn, w) => Registry.DisconnectSessions(d, conn, w);
    case Tick(w) => Registry.SameTick(d, w);
    case Command(conn, uid, request, w) =>
      PolicyExactly(d, conn, uid, request, w.account);
      CommandIds(d, conn, request, w);
    case _ =>
  }

  lemma CommandIds(d: State, conn: ConnId, request: Request, w: World)
    ensures var spends := request.CreateSession? && w.account.Some? && Below(d, w.account.value.uid);
            Dispatch(d, conn, request, w).0.sessions.nextId == d.sessions.nextId + if spends then 1 else 0
  {
    hide OnCreateSession; hide OnTerminateSession; hide S.OwnedBy;
    if request.CreateSession? {
      CreateIds(d, request, w);
    } else if request.TerminateSession? {
      Registry.TerminateSessions(d, request.session, w);
    } else if request.Reboot? || request.PowerOff? {
      Registry.DownSessions(d, conn, request, w);
      hide Dispatch;
    } else {
      Registry.SameDispatch(d, conn, request, w);
      hide Dispatch;
    }
  }

  lemma CreateIds(d: State, request: Request, w: World)
    requires request.CreateSession?
    ensures OnCreateSession(d, request.seatId, request.sessionType, w).0.sessions.nextId
         == d.sessions.nextId + if w.account.Some? && Below(d, w.account.value.uid) then 1 else 0
  {
    hide S.OwnedBy; hide T.Attach; hide Info; hide KindOf; hide SessionsOf;
    if w.account.Some? { SessionsOfOwned(d, w.account.value.uid); }
  }

  /** In every run, nobody but root brings a session of another user's to life: after
      whatever a client sends, a session that was not there before belongs to the client,
      or the client is root. */
  lemma LoginsAreOwn(settings: Settings, service: Option<Uid>, inputs: seq<Input>, input: Input, s: SessionId)
    ensures var d := Run(Boot(settings, service), inputs);
            s !in d.sessions.live && s in Step(d, input).sessions.live ==>
              && input.Command? && input.request.CreateSession?
              && (input.uid == 0 || Step(d, input).sessions.live[s].uid == input.uid)
  {
    hide Run; hide Step; hide S.OwnedBy;
    Registry.IdentityLasts(Boot(settings, service), inputs);
    var d := Run(Boot(settings, service), inputs);
    if s !in d.sessions.live { LoginExactly(d, input, s); }
  }

  /** And for anyone but root a login is let through exactly when the account exists and
      is theirs. */
  lemma LoginPolicy(d: State, conn: ConnId, uid: Uid, request: Request, account: Option<Account>)
    requires uid != 0 && request.CreateSession?
    ensures Authorize(d, conn, uid, request, account).None? <==> account.Some? && account.value.uid == uid
  {
    PolicyExactly(d, conn, uid, request, account);
  }

  // ---- living on -----------------------------------------------------------------------------

  /** Only the state and the compositor may differ. */
  ghost predicate SameCore(r: S.Sessions, r': S.Sessions, s: SessionId) {
    && s in r.live && s in r'.live
    && r'.live[s] == r.live[s].(state := r'.live[s].state, compositor := r'.live[s].compositor)
  }

  lemma {:induction false} ChangesCore(d: State, changes: seq<I.Change>, w: World, s: SessionId)
    requires s in d.sessions.live
    ensures SameCore(d.sessions, ApplyChanges(d, changes, w).sessions, s)
    decreases |changes|
  {
    hide ApplyChange;
    if changes != [] {
      ChangeCore(d, changes[0], w, s);
      ChangesCore(ApplyChange(d, changes[0], w), changes[1..], w, s);
    }
  }

  lemma ChangeCore(d: State, change: I.Change, w: World, s: SessionId)
    requires s in d.sessions.live
    ensures SameCore(d.sessions, ApplyChange(d, change, w).sessions, s)
  {
    hide L.Apply; hide L.Blocks; hide L.Delays; hide S.Compositors; hide S.Moved;
  }

  lemma TickCore(d: State, w: World, s: SessionId)
    requires s in d.sessions.live
    ensures SameCore(d.sessions, HandleTick(d, w).sessions, s)
  {
    hide ApplyChanges; hide SweepTimers;
    var a := CallIdle(d, I.CTick(w.now, d.settings.idle));
    var changes := Listing(w.changeOrder, I.Changes(d.idle, w.now, d.settings.idle));
    ChangesCore(a, changes, w, s);
    SweepKeepsLocked(ApplyChanges(a, changes, w), w, s);
  }

  lemma OwnCore(d: State, conn: ConnId, request: Request, w: World, s: SessionId)
    requires s in d.sessions.live && Target(request) == Some(s) && !request.TerminateSession?
    ensures SameCore(d.sessions, Dispatch(d, conn, request, w).0.sessions, s)
  {
    hide OnUnlock; hide OnRegisterCompositor; hide LockAndShow; hide OnSwitchSession; hide L.Blocks;
    match request
    case Unlock(_, name) => UnlockCore(d, s, name, w);
    case RegisterCompositor(_) => RegisterCore(d, conn, s);
    case LockSession(_) => LockCore(d, s, Manual);
    case SwitchSession(seat, _) => SwitchKeeps(d, seat, s, s);
    case SessionStatus(_) =>
  }

  lemma UnlockCore(d: State, s: SessionId, name: string, w: World)
    requires s in d.sessions.live
    ensures SameCore(d.sessions, OnUnlock(d, s, name, w).0.sessions, s)
  {
    hide L.Apply; hide L.UnlockOutcome; hide L.LockOf; hide S.Moved;
  }

  lemma RegisterCore(d: State, conn: ConnId, s: SessionId)
    requires s in d.sessions.live
    ensures SameCore(d.sessions, OnRegisterCompositor(d, conn, s).0.sessions, s)
  {
    hide L.IsLocked; hide S.Moved;
  }

  lemma LockCore(d: State, s: SessionId, reason: LockReason)
    requires s in d.sessions.live
    ensures SameCore(d.sessions, LockAndShow(d, s, reason).sessions, s)
  {
    hide L.Apply; hide L.MayLock; hide S.Moved;
  }

  lemma CommandCore(d: State, conn: ConnId, request: Request, w: World, s: SessionId)
    requires Registry.Numbered(d.sessions) && s in d.sessions.live
    requires s in Dispatch(d, conn, request, w).0.sessions.live
    ensures SameCore(d.sessions, Dispatch(d, conn, request, w).0.sessions, s)
  {
    hide Registry.Numbered; hide OnTerminateSession; hide OnSuspend; hide OnPowerDown; hide OnUnlock;
    hide OnRegisterCompositor; hide LockAndShow; hide OnSwitchSession;
    if request.Suspend? {
      SuspendSameSessions(d, w);
    } else if request.Reboot? || request.PowerOff? {
      DownKeepsNobody(d, if request.Reboot? then ToReboot else ToPowerOff, w, s);
    } else if Target(request) != Some(s) {
      DispatchKeeps(d, conn, request, w, s);
      hide Dispatch;
    } else if request.TerminateSession? {
      Registry.TerminateSessions(d, s, w);
    } else {
      OwnCore(d, conn, request, w, s);
      hide Dispatch;
    }
  }

  lemma StepCore(d: State, input: Input, s: SessionId)
    requires Registry.Numbered(d.sessions) && s in d.sessions.live && s in Step(d, input).sessions.live
    requires !input.ChildExit?
    ensures SameCore(d.sessions, Step(d, input).sessions, s)
  {
    hide HandleTick; hide Dispatch; hide HandleDisconnect; hide Registry.Numbered; hide Authorize;
    match input
    case Disconnected(conn, w) => Registry.DisconnectSessions(d, conn, w);
    case Tick(w) => TickCore(d, w, s);
    case Command(conn, uid, request, w) =>
      if Authorize(d, conn, uid, request, w.account).None? { CommandCore(d, conn, request, w, s); }
    case _ =>
  }

  /** The record of a session that lives through a step: its state and its compositor as
      said elsewhere; when its process dies, whatever was started in its place, and one
      more restart up to the limit; and nothing else changes. */
  ghost function NextRecord(d: State, input: Input, s: SessionId): S.Context
    requires s in d.sessions.live
  {
    var ctx := d.sessions.live[s].(state := NextState(d, input, s), compositor := NextCompositor(d, input, s));
    if !Crashes(d, input, s) then ctx
    else
      ctx.(process := input.world.spawned,
           restarts := if ctx.restarts < d.settings.maxRestarts then ctx.restarts + 1 else ctx.restarts)
  }

  /** In every run, for every session that lives through the next step. */
  lemma RecordExactly(settings: Settings, service: Option<Uid>, inputs: seq<Input>, input: Input, s: SessionId)
    ensures var d := Run(Boot(settings, service), inputs);
            s in d.sessions.live && s in Step(d, input).sessions.live ==>
              Step(d, input).sessions.live[s] == NextRecord(d, input, s)
  {
    hide Run; hide Step; hide NextState; hide NextCompositor; hide AgreesOn;
    var d := Run(Boot(settings, service), inputs);
    AlwaysAgrees(settings, service, inputs);
    Registry.IdentityLasts(Boot(settings, service), inputs);
    if s in d.sessions.live && s in Step(d, input).sessions.live {
      StateExactly(d, input, s);
      CompositorExactly(d, input, s);
      if input.ChildExit? { CrashCore(d, input, s); } else { StepCore(d, input, s); }
    }
  }

  lemma CrashCore(d: State, input: Input, s: SessionId)
    requires input.ChildExit? && s in d.sessions.live && s in Step(d, input).sessions.live
    ensures var ctx, ctx' := d.sessions.live[s], Step(d, input).sessions.live[s];
            var restarts := if ctx.restarts < d.settings.maxRestarts then ctx.restarts + 1 else ctx.restarts;
            ctx' == if !Crashes(d, input, s) then ctx
                    else ctx'.(uid := ctx.uid, userName := ctx.userName, seat := ctx.seat, kind := ctx.kind,
                               process := input.world.spawned, restarts := restarts)
  {
  }
}
