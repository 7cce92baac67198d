/** The daemon as a state machine: one step per message, timer tick, signal or
    child exit. Everything outside it (PAM, the password file, spawning, the
    power backend, hash-map order) comes in with the step. */
module DaemonModel {
  import opened Common
  import opened Authentication
  import opened Messages
  import E = ElevationModel
  import L = LockModel
  import S = SessionModel
  import T = SeatModel
  import I = IdleModel

  datatype Settings = Settings(
    defaultSeat: SeatId,
    defaultType: S.SessionType,
    sessionLimit: nat,
    maxRestarts: nat,
    authService: string,
    lock: L.LockPolicy,
    unlockAuth: AuthPolicy,
    idle: I.IdlePolicy,
    elevation: E.ElevationPolicy,
    elevationAuth: AuthPolicy,
    elevationService: string,
    grace: Duration)

  datatype State = State(
    settings: Settings,
    service: Option<Uid>,
    // the PAM service of the one authenticator the daemon holds
    authenticator: string,
    sessions: S.Sessions,
    seats: T.Seats,
    locks: L.Locks,
    idle: I.Idle,
    elevation: E.Elevation,
    registry: set<ConnId>,
    exiting: bool,
    // the record: everything sent or asked of the outside, and every call made
    // on the three managers whose histories the theorems speak about
    log: seq<Entry>,
    lockCalls: seq<L.Call>,
    elevationCalls: seq<E.Call>,
    idleCalls: seq<I.Call>)

  function Boot(settings: Settings, service: Option<Uid>): State {
    State(settings, service, settings.authService, S.NO_SESSIONS, map[settings.defaultSeat := T.VACANT],
          L.NOTHING_LOCKED, I.NO_ACTIVITY, E.EMPTY, {}, false, [], [], [], [])
  }

  datatype Account = Account(uid: Uid, name: string)

  /** The world's answers during one step. */
  datatype World = World(
    now: Instant,
    noPassword: set<string>,
    accepts: bool,
    account: Option<Account>,
    homeReady: bool,
    spawned: Option<Pid>,
    backendOk: bool,
    promptOrder: seq<RequestId>,
    changeOrder: seq<I.Change>,
    owner: SessionId)

  datatype Input =
    | Connected(conn: ConnId)
    | Disconnected(conn: ConnId, world: World)
    | Command(conn: ConnId, uid: Uid, request: Request, world: World)
    | Tick(world: World)
    | ChildExit(pid: Pid, world: World)
    | Reload(settings: Settings, service: Option<Uid>)
    | Terminate

  // ---- recording ---------------------------------------------------------------

  function Log(d: State, entry: Entry): State {
    d.(log := d.log + [entry])
  }

  function Push(d: State, conn: ConnId, event: Event): State {
    Log(d, Pushed(conn, event, conn in d.registry))
  }

  function PushTo(d: State, conn: Option<ConnId>, event: Event): State {
    if conn.Some? then Push(d, conn.value, event) else d
  }

  function Reply(d: State, conn: ConnId, response: Response, settles: Settles): State {
    Log(d, Replied(conn, response, settles, conn in d.registry))
  }

  function CallLocks(d: State, call: L.Call): State {
    d.(locks := L.Apply(d.locks, call), lockCalls := d.lockCalls + [call])
  }

  function CallElevation(d: State, call: E.Call): State {
    d.(elevation := E.Apply(d.elevation, call), elevationCalls := d.elevationCalls + [call])
  }

  function CallIdle(d: State, call: I.Call): State {
    d.(idle := I.Apply(d.idle, call), idleCalls := d.idleCalls + [call])
  }

  // ---- who may ask for what ------------------------------------------------------

  function Owns(r: S.Sessions, uid: Uid, s: SessionId): Option<SessionError> {
    if s !in r.live then Some(UnknownSession(s))
    else if r.live[s].uid == uid then None
    else Some(PermissionDenied)
  }

  /** The central policy decision: `None` when the request may proceed. */
  function Allowed(r: S.Sessions, service: Option<Uid>, pending: map<RequestId, E.Prompt>,
                   conn: ConnId, uid: Uid, request: Request, account: Option<Account>): Option<SessionError>
  {
    if uid == 0 then None
    else
      match request
      case CreateSession(_, _, _) =>
        if account.Some? && account.value.uid == uid then None else Some(PermissionDenied)
      case TerminateSession(s) => Owns(r, uid, s)
      case RegisterCompositor(s) => Owns(r, uid, s)
      case SessionStatus(s) => Owns(r, uid, s)
      case LockSession(s) => Owns(r, uid, s)
      case SwitchSession(_, s) => Owns(r, uid, s)
      case Unlock(s, _) => Owns(r, uid, s)
      case RequestElevation(_, _) => if service == Some(uid) then None else Some(PermissionDenied)
      case RespondElevation(id, _) =>
        if id in pending && pending[id].compositor == conn then None else Some(UnknownElevationRequest(id))
      case _ => None
  }

  function Authorize(d: State, conn: ConnId, uid: Uid, request: Request,
                     account: Option<Account>): Option<SessionError> {
    Allowed(d.sessions, d.service, d.elevation.pending, conn, uid, request, account)
  }

  // ---- elevation -------------------------------------------------------------------

  /** Tell both sides of each torn-down prompt that it is over. */
  function NotifyAbandoned(d: State, abandoned: seq<E.Abandoned>, reason: Reason): State
    decreases |abandoned|
  {
    if abandoned == [] then d
    else
      var a := abandoned[0];
      var told := Reply(Push(d, a.prompt.compositor, HideElevationPrompt(a.id)),
                        a.prompt.requester, AuthResult(AuthOutcome.Error(reason)), Postponed(a.id));
      NotifyAbandoned(told, abandoned[1..], reason)
  }

  ghost function Listed(e: E.Elevation, ids: set<RequestId>, order: seq<RequestId>): (listed: seq<E.Abandoned>)
    requires ids <= e.pending.Keys
    ensures |listed| == |Listing(order, ids)|
    ensures forall k :: 0 <= k < |listed| ==>
              Listing(order, ids)[k] in e.pending
              && listed[k] == E.Abandoned(Listing(order, ids)[k], e.pending[Listing(order, ids)[k]])
  {
    var listing := Listing(order, ids);
    seq(|listing|, k requires 0 <= k < |listing| =>
      assert listing[k] in (set x | x in listing);
      E.Abandoned(listing[k], e.pending[listing[k]]))
  }

  /** One abandoning call and the notifications it leads to. `ids` are the open
      prompts it removes. */
  ghost function Abandon(d: State, call: E.Call, ids: set<RequestId>, reason: Reason, order: seq<RequestId>): State
    requires ids <= d.elevation.pending.Keys
  {
    NotifyAbandoned(CallElevation(d, call), Listed(d.elevation, ids, order), reason)
  }

  function StartElevation(d: State, conn: ConnId, s: SessionId, action: ElevationAction,
                          w: World): (State, Option<Response>) {
    if !action.wellFormed then (d, Some(Failed(Unsupported)))
    else if !d.settings.elevation.enabled then (d, Some(Failed(Unsupported)))
    else if s !in d.sessions.live then (d, Some(Failed(UnknownSession(s))))
    else if d.sessions.live[s].userName in w.noPassword then
      (d, Some(AuthResult(AuthOutcome.Error(NoPasswordConfigured))))
    else if d.sessions.live[s].compositor.None? then (d, Some(Failed(Unsupported)))
    else
      var compositor := d.sessions.live[s].compositor.value;
      var call := E.CBegin(s, compositor, conn, d.settings.elevation, d.settings.elevationAuth, w.now);
      var called := CallElevation(d, call);
      match E.BeginOutcome(d.elevation, s, d.settings.elevation, d.settings.elevationAuth)
      case Opened(id) => (Push(called, compositor, ShowElevationPrompt(id, s, action)), None)
      case RefusedLockedOut(secs) => (called, Some(AuthResult(AuthOutcome.LockedOut(secs))))
      case RefusedTooMany => (called, Some(Failed(PermissionDenied)))
  }

  /** Feedback to the prompt's compositor, and once it is over, the dismissal and
      the reply the requester has been waiting for. */
  function Resolve(d: State, id: RequestId, r: E.Resolution): State {
    var told := Push(d, r.prompt.compositor, ElevationFeedback(id, r.outcome));
    if !r.terminal then told
    else
      var hidden := Push(told, r.prompt.compositor, HideElevationPrompt(id));
      Reply(hidden, r.prompt.requester, AuthResult(r.outcome), Postponed(id))
  }

  function OnRespondElevation(d: State, id: RequestId, answer: Answer, w: World): (State, Response) {
    if id !in d.elevation.pending then (d, Failed(UnknownElevationRequest(id)))
    else
      var s := d.elevation.pending[id].session;
      match answer
      case Decline =>
        var r := E.CancelOutcome(d.elevation, id).value;
        (Resolve(CallElevation(d, E.CCancel(id)), id, r), AuthResult(r.outcome))
      case Password =>
        if s !in d.sessions.live then (d, Failed(UnknownSession(s)))
        else
          var r := E.AttemptOutcome(d.elevation, id, w.accepts, d.settings.elevationAuth).value;
          var checked := Log(d, Checked(s, d.sessions.live[s].userName, w.accepts, Some(id), d.authenticator));
          var called := CallElevation(checked, E.CAttempt(id, w.accepts, d.settings.elevationAuth, w.now));
          (Resolve(called, id, r), AuthResult(r.outcome))
  }

  // ---- sessions ----------------------------------------------------------------------

  function Info(id: SessionId, ctx: S.Context): SessionInfo {
    SessionInfo(id, ctx.uid, ctx.userName, ctx.seat, ctx.kind, ctx.state, ctx.state.Locked?)
  }

  function KindOf(asked: Option<string>, default: S.SessionType): S.SessionType {
    if asked == Some("x11") then S.X11 else if asked == Some("tty") then S.Tty else default
  }

  function Spawned(ctx: S.Context, pid: Option<Pid>): S.Context {
    if pid.Some? then ctx.(process := pid) else ctx
  }

  function OnCreateSession(d: State, seatId: Option<SeatId>, sessionType: Option<string>, w: World): (State, Response) {
    if w.account.None? then (d, Failed(UnknownUser))
    else
      var account := w.account.value;
      var seat := if seatId.Some? then seatId.value else d.settings.defaultSeat;
      var kind := KindOf(sessionType, d.settings.defaultType);
      var limit := d.settings.sessionLimit;
      var created := d.(sessions := S.Create(d.sessions, account.uid, account.name, seat, kind, limit, w.homeReady));
      match S.CreateOutcome(d.sessions, account.uid, d.settings.sessionLimit, w.homeReady)
      case RefusedTooMany => (created, Failed(PermissionDenied))
      case RefusedNotReady => (created, Failed(Io))
      case Created(id) =>
        var ctx := if kind.Tty? then created.sessions.live[id] else Spawned(created.sessions.live[id], w.spawned);
        (created.(seats := T.Attach(d.seats, seat, id), sessions := S.Update(created.sessions, id, ctx)),
         OneSession(Info(id, ctx)))
  }

  ghost function OnTerminateSession(d: State, s: SessionId, w: World): (State, Response) {
    if s !in d.sessions.live then (d, Failed(UnknownSession(s)))
    else
      var ended := d.(sessions := S.Remove(d.sessions, {s}), seats := T.Detach(d.seats, s));
      (Abandon(ended, E.CAbandonSession(s), E.OpenFor(d.elevation, s), SessionEnded, w.promptOrder), Ok)
  }

  function OnRegisterCompositor(d: State, conn: ConnId, s: SessionId): (State, Response) {
    if s !in d.sessions.live then (d, Failed(UnknownSession(s)))
    else
      var claimed := d.(sessions := S.Update(d.sessions, s, d.sessions.live[s].(compositor := Some(conn))));
      if L.IsLocked(d.locks, s) then
        (Push(claimed.(sessions := S.Transition(claimed.sessions, s, S.Locked)), conn, ShowLockScreen(s, Manual)), Ok)
      else
        (claimed.(sessions := S.Transition(claimed.sessions, s, S.Active)), Ok)
  }

  function OnSwitchSession(d: State, seat: SeatId, s: SessionId): (State, Response) {
    match T.SwitchOutcome(d.seats, seat, s)
    case UnknownSeat => (d, Failed(SessionError.UnknownSeat))
    case NotOnSeat => (d, Failed(UnknownSession(s)))
    case SwitchedFrom(_) =>
      (PushTo(d.(seats := T.Switch(d.seats, seat, s)), S.CompositorOf(d.sessions, s), SessionActivated(seat, s)), Ok)
  }

  // ---- locking -------------------------------------------------------------------------

  /** Engage the lock and, if that went through, show it. */
  function LockAndShow(d: State, s: SessionId, reason: LockReason): State {
    var called := CallLocks(d, L.CLock({s}, d.settings.lock));
    if !L.MayLock(d.locks, d.settings.lock) then called
    else
      var recorded := called.(sessions := S.Transition(d.sessions, s, S.Locked));
      PushTo(recorded, S.CompositorOf(d.sessions, s), ShowLockScreen(s, reason))
  }

  predicate SkipsLock(d: State, s: SessionId, w: World) {
    s in d.sessions.live && d.sessions.live[s].userName in w.noPassword
  }

  function OnLockSession(d: State, s: SessionId, w: World): (State, Response) {
    if SkipsLock(d, s, w) then (d, Failed(Unsupported))
    else
      (LockAndShow(d, s, Manual),
       if !d.settings.lock.enabled then Failed(Unsupported)
       else if L.Blocks(d.locks, L.InhibitLock) then Failed(PermissionDenied)
       else Ok)
  }

  /** A check of a password for the lock screen, unless the session is locked out. */
  function Guess(d: State, s: SessionId, userName: string, accepts: bool): State {
    if L.LockOf(d.locks, s).state.LockedOut? then d
    else Log(d, Checked(s, userName, accepts, None, d.authenticator))
  }

  function OnUnlock(d: State, s: SessionId, userName: string, w: World): (State, Response) {
    var outcome := L.UnlockOutcome(d.locks, s, w.accepts, d.settings.unlockAuth);
    var checked := Guess(d, s, userName, w.accepts);
    var called := CallLocks(checked, L.CUnlock(s, w.accepts, d.settings.unlockAuth, w.now));
    if outcome.Success? then
      var recorded := called.(sessions := S.Transition(d.sessions, s, S.Active));
      (PushTo(recorded, S.CompositorOf(d.sessions, s), HideLockScreen(s)), AuthResult(outcome))
    else
      (PushTo(called, S.CompositorOf(d.sessions, s), AuthFeedback(s, outcome)), AuthResult(outcome))
  }

  // ---- power -----------------------------------------------------------------------------

  function CallBackend(d: State, kind: PowerKind): State {
    Log(d, PowerCall(kind, d.sessions.live.Keys, d.locks, d.settings.lock, d.settings.grace))
  }

  function PowerResult(w: World): Response {
    if w.backendOk then Ok else Failed(Io)
  }

  function Holding(kind: PowerKind): L.InhibitWhat {
    if kind.ToSuspend? then L.InhibitSuspend else L.InhibitShutdown
  }

  /** Give the applications that asked for a delay their grace period. */
  function Pause(d: State, kind: PowerKind): State {
    if L.Delays(d.locks, Holding(kind)) then Log(d, Paused(kind, d.settings.grace)) else d
  }

  function OnSuspend(d: State, w: World): (State, Response) {
    if L.Blocks(d.locks, L.InhibitSuspend) then (d, Failed(PermissionDenied))
    else
      var waited := Pause(d, ToSuspend);
      var call := L.CLock(d.sessions.live.Keys, d.settings.lock);
      var locked := if d.settings.lock.lockOnSuspend then CallLocks(waited, call) else waited;
      var told := Log(locked, Broadcast(S.Compositors(d.sessions), PrepareForSleep, d.registry));
      (CallBackend(told, ToSuspend), PowerResult(w))
  }

  function OnPowerDown(d: State, kind: PowerKind, w: World): (State, Response) {
    if L.Blocks(d.locks, L.InhibitShutdown) then (d, Failed(PermissionDenied))
    else
      var waited := Pause(d, kind);
      (CallBackend(waited.(sessions := S.Remove(d.sessions, d.sessions.live.Keys)), kind), PowerResult(w))
  }

  // ---- commands ------------------------------------------------------------------------------

  ghost function Dispatch(d: State, conn: ConnId, request: Request, w: World): (State, Option<Response>) {
    match request
    case CreateSession(_, seatId, sessionType) => Now(OnCreateSession(d, seatId, sessionType, w))
    case TerminateSession(s) => Now(OnTerminateSession(d, s, w))
    case RegisterCompositor(s) => Now(OnRegisterCompositor(d, conn, s))
    case ListSessions => (d, Some(SessionList(set s | s in d.sessions.live :: Info(s, d.sessions.live[s]))))
    case SessionStatus(s) =>
      (d, Some(if s in d.sessions.live then OneSession(Info(s, d.sessions.live[s])) else Failed(UnknownSession(s))))
    case LockSession(s) => Now(OnLockSession(d, s, w))
    case Unlock(s, userName) => Now(OnUnlock(d, s, userName, w))
    case ReportActivity(seat) => (CallIdle(d, I.CActivity(seat, w.now)), Some(Ok))
    case SwitchSession(seat, s) => Now(OnSwitchSession(d, seat, s))
    case Inhibit(inhibitor) => (CallLocks(d, L.CInhibit(inhibitor)), Some(InhibitGranted(d.locks.nextInhibitor + 1)))
    case ReleaseInhibit(id) =>
      (CallLocks(d, L.CRelease(id)), Some(if id in d.locks.inhibitors then Ok else Failed(UnknownInhibitor)))
    case ListInhibitors => (d, Some(InhibitorList(d.locks.inhibitors)))
    case Suspend => Now(OnSuspend(d, w))
    case Reboot => Now(OnPowerDown(d, ToReboot, w))
    case PowerOff => Now(OnPowerDown(d, ToPowerOff, w))
    case RequestElevation(s, action) => StartElevation(d, conn, s, action, w)
    case RespondElevation(id, answer) => Now(OnRespondElevation(d, id, answer, w))
  }

  function Now(r: (State, Response)): (State, Option<Response>) {
    (r.0, Some(r.1))
  }

  /** Answer, or note that the answer is put off until the prompt just opened is
      resolved. */
  function Finish(r: (State, Option<Response>), conn: ConnId): State {
    if r.1.Some? then Reply(r.0, conn, r.1.value, Current)
    else Log(r.0, PutOff(conn, r.0.elevation.nextId))
  }

  ghost function HandleCommand(d: State, conn: ConnId, uid: Uid, request: Request, w: World): State {
    match Authorize(d, conn, uid, request, w.account)
    case Some(e) => Reply(d, conn, Failed(e), Current)
    case None => Finish(Dispatch(d, conn, request, w), conn)
  }

  // ---- the other steps -------------------------------------------------------------------------

  ghost function HandleDisconnect(d: State, conn: ConnId, w: World): State {
    var gone := d.(registry := d.registry - {conn}, sessions := S.DropConnection(d.sessions, conn));
    Abandon(gone, E.CAbandonConnection(conn), E.Touching(d.elevation, conn), ConnectionDropped, w.promptOrder)
  }

  function ActiveOn(seats: T.Seats, seat: SeatId): Option<SessionId> {
    if seat in seats then seats[seat].active else None
  }

  function ApplyChange(d: State, change: I.Change, w: World): State {
    var active := ActiveOn(d.seats, change.seat);
    match change.stage
    case StageActive => d
    case Dimmed => if active.Some? then PushTo(d, S.CompositorOf(d.sessions, active.value), Dim(change.seat)) else d
    case LockRequested =>
      if !d.settings.lock.lockOnIdle || active.None? || SkipsLock(d, active.value, w) then d
      else LockAndShow(d, active.value, Idling)
    case SuspendRequested => OnSuspend(d, w).0
  }

  function ApplyChanges(d: State, changes: seq<I.Change>, w: World): State
    decreases |changes|
  {
    if changes == [] then d else ApplyChanges(ApplyChange(d, changes[0], w), changes[1..], w)
  }

  /** The second half of a tick: lockouts that ran out, prompts that timed out. */
  ghost function SweepTimers(d: State, w: World): State {
    var swept := CallElevation(CallLocks(d, L.CSweep(w.now)), E.CClearLockouts(w.now));
    Abandon(swept, E.CExpire(w.now), E.Overdue(swept.elevation, w.now), TimedOut, w.promptOrder)
  }

  ghost function HandleTick(d: State, w: World): State {
    var changes := Listing(w.changeOrder, I.Changes(d.idle, w.now, d.settings.idle));
    SweepTimers(ApplyChanges(CallIdle(d, I.CTick(w.now, d.settings.idle)), changes, w), w)
  }

  function Restarted(ctx: S.Context, maxRestarts: nat, spawned: Option<Pid>): S.Context {
    ctx.(process := spawned, compositor := None, state := S.Moved(ctx.state, S.Starting),
         restarts := if ctx.restarts < maxRestarts then ctx.restarts + 1 else ctx.restarts)
  }

  ghost function OwnerOf(r: S.Sessions, pid: Pid, hint: SessionId): (owner: Option<SessionId>)
    ensures owner.Some? ==> owner.value in r.live && r.live[owner.value].process == Some(pid)
    ensures owner.None? <==> forall s :: s in r.live ==> r.live[s].process != Some(pid)
  {
    if hint in r.live && r.live[hint].process == Some(pid) then Some(hint)
    else if exists s :: s in r.live && r.live[s].process == Some(pid) then
      var s :| s in r.live && r.live[s].process == Some(pid);
      Some(s)
    else None
  }

  ghost function HandleChildExit(d: State, pid: Pid, w: World): State {
    match OwnerOf(d.sessions, pid, w.owner)
    case None => d
    case Some(s) =>
      var ctx := d.sessions.live[s];
      d.(registry := if ctx.compositor.Some? then d.registry - {ctx.compositor.value} else d.registry,
         sessions := S.Update(d.sessions, s, Restarted(ctx, d.settings.maxRestarts, w.spawned)))
  }

  ghost function Step(d: State, input: Input): State {
    match input
    case Connected(conn) => d.(registry := d.registry + {conn})
    case Disconnected(conn, w) => HandleDisconnect(d, conn, w)
    case Command(conn, uid, request, w) => HandleCommand(d, conn, uid, request, w)
    case Tick(w) => HandleTick(d, w)
    case ChildExit(pid, w) => HandleChildExit(d, pid, w)
    case Reload(settings, service) =>
      d.(settings := settings, service := service, authenticator := settings.authService)
    case Terminate => d.(sessions := S.Remove(d.sessions, d.sessions.live.Keys), exiting := true)
  }

  /** The daemon after a run. */
  ghost function Run(d: State, inputs: seq<Input>): State {
    if inputs == [] then d else Step(Run(d, inputs[..|inputs| - 1]), inputs[|inputs| - 1])
  }

  lemma RunNone(d: State)
    ensures Run(d, []) == d
  {
  }

  lemma RunSnoc(d: State, inputs: seq<Input>, last: Input)
    ensures Run(d, inputs + [last]) == Step(Run(d, inputs), last)
  {
    hide Step;
    assert (inputs + [last])[..|inputs|] == inputs;
  }

  lemma RunLast(d: State, inputs: seq<Input>)
    requires inputs != []
    ensures Run(d, inputs) == Step(Run(d, inputs[..|inputs| - 1]), inputs[|inputs| - 1])
  {
  }

  lemma {:induction false} RunAppend(d: State, a: seq<Input>, b: seq<Input>)
    ensures Run(d, a + b) == Run(Run(d, a), b)
    decreases |b|
  {
    hide Step;
    if b == [] {
      assert a + b == a;
    } else {
      var n := |b| - 1;
      assert (a + b)[..|a| + n] == a + b[..n];
      RunAppend(d, a, b[..n]);
    }
  }
}
