/** Everything the daemon lets the outside see, step by step: which entries a step adds
    to the log, message by message, told from the state before it. */
module Observables {
  import opened Common
  import opened Authentication
  import opened Messages
  import opened DaemonModel
  import opened Authority
  import opened Causes
  import Registry
  import E = ElevationModel
  import L = LockModel
  import I = IdleModel
  import S = SessionModel

  // ---- what is asked for ------------------------------------------------------------------

  /** The step is this request, from someone entitled to it. */
  predicate Asked(d: State, input: Input, request: Request) {
    && input.Command? && input.request == request
    && Entitled(d, input.conn, input.uid, request, input.world.account)
  }

  /** Someone entitled to tries a password on the lock screen of `s`, under any name. */
  predicate TriesPassword(d: State, input: Input, s: SessionId) {
    input.Command? && input.request.Unlock? && input.request.session == s && Asked(d, input, input.request)
  }

  /** Someone entitled to answers prompt `id`, either way. */
  predicate AnswersPrompt(d: State, input: Input, id: RequestId) {
    input.Command? && input.request.RespondElevation? && input.request.id == id && Asked(d, input, input.request)
  }

  predicate HasPassword(d: State, s: SessionId, w: World) {
    s in d.sessions.live ==> d.sessions.live[s].userName !in w.noPassword
  }

  predicate CanLock(d: State) {
    d.settings.lock.enabled && !L.Blocks(d.locks, L.InhibitLock)
  }

  predicate LockedOutNow(d: State, s: SessionId) {
    L.LockOf(d.locks, s).state.LockedOut?
  }

  /** Connection `c` is the registered compositor of `s`. */
  predicate DisplayedOn(d: State, s: SessionId, c: ConnId) {
    s in d.sessions.live && d.sessions.live[s].compositor == Some(c)
  }

  /** `s` is the active session of the seat. */
  predicate Foremost(d: State, seat: SeatId, s: SessionId) {
    seat in d.seats && d.seats[seat].active == Some(s)
  }

  /** What becomes of a password, given the wrong ones before it. */
  function GuessOutcome(accepts: bool, attempts: nat, auth: AuthPolicy): AuthOutcome {
    if accepts then Success
    else if attempts + 1 >= Budget(auth) then LockedOut(auth.lockout)
    else Failure(Budget(auth) - attempts - 1)
  }

  function UnlockResult(d: State, s: SessionId, w: World): AuthOutcome {
    if LockedOutNow(d, s) then LockedOut(d.settings.unlockAuth.lockout)
    else GuessOutcome(w.accepts, L.LockOf(d.locks, s).attempts, d.settings.unlockAuth)
  }

  /** What becomes of an answer to the open prompt `id`; none if its session is gone and
      there is nobody's password to check. */
  function AnswerResult(d: State, id: RequestId, answer: Answer, w: World): Option<AuthOutcome>
    requires id in d.elevation.pending
  {
    var s := d.elevation.pending[id].session;
    if answer.Decline? then Some(Cancelled)
    else if s !in d.sessions.live then None
    else Some(GuessOutcome(w.accepts, E.GuessesOf(d.elevation, s).attempts, d.settings.elevationAuth))
  }

  /** A prompt may be put up for `s`, room and lockout aside. */
  predicate Promptable(d: State, s: SessionId, action: ElevationAction, w: World) {
    && action.wellFormed && d.settings.elevation.enabled
    && s in d.sessions.live && HasPassword(d, s, w) && d.sessions.live[s].compositor.Some?
  }

  function PromptsFor(d: State, s: SessionId): set<RequestId> {
    set id | id in d.elevation.pending && d.elevation.pending[id].session == s
  }

  predicate HasRoom(d: State, s: SessionId) {
    |PromptsFor(d, s)| < d.settings.elevation.maxPending
  }

  predicate Prompts(d: State, s: SessionId, action: ElevationAction, w: World) {
    Promptable(d, s, action, w) && !E.IsLockedOut(d.elevation, s) && HasRoom(d, s)
  }

  // ---- events -------------------------------------------------------------------------------

  ghost predicate Changes(d: State, input: Input, seat: SeatId, stage: I.IdleStage) {
    input.Tick? && I.Change(seat, stage) in I.Changes(d.idle, input.world.now, d.settings.idle)
  }

  /** The step locks `s` for this reason: on command, or because its seat has idled that
      long. */
  ghost predicate LocksFor(d: State, input: Input, s: SessionId, reason: LockReason) {
    && CanLock(d)
    && match reason
       case Manual => Asked(d, input, LockSession(s)) && HasPassword(d, s, input.world)
       case Idling =>
         && input.Tick? && d.settings.lock.lockOnIdle && HasPassword(d, s, input.world)
         && exists seat :: Changes(d, input, seat, I.LockRequested) && Foremost(d, seat, s)
  }

  /** The event is due on connection `c`. */
  ghost predicate DueEvent(d: State, input: Input, c: ConnId, event: Event) {
    match event
    case ShowLockScreen(s, reason) =>
      || (DisplayedOn(d, s, c) && LocksFor(d, input, s, reason))
      || (&& reason.Manual? && Asked(d, input, RegisterCompositor(s)) && input.conn == c
          && s in d.sessions.live && L.IsLocked(d.locks, s))
    case HideLockScreen(s) =>
      DisplayedOn(d, s, c) && TriesPassword(d, input, s) && UnlockResult(d, s, input.world) == Success
    case AuthFeedback(s, outcome) =>
      && DisplayedOn(d, s, c) && TriesPassword(d, input, s)
      && outcome == UnlockResult(d, s, input.world) && outcome != Success
    case Dim(seat) =>
      && Changes(d, input, seat, I.Dimmed)
      && exists s :: Foremost(d, seat, s) && DisplayedOn(d, s, c)
    case PrepareForSleep => false
    case SessionActivated(seat, s) =>
      DisplayedOn(d, s, c) && Asked(d, input, SwitchSession(seat, s)) && Registry.OnSeat(d.seats, seat, s)
    case ShowElevationPrompt(id, s, action) =>
      && DisplayedOn(d, s, c) && Asked(d, input, RequestElevation(s, action)) && Prompts(d, s, action, input.world)
      && id == d.elevation.nextId + 1
    case ElevationFeedback(id, outcome) =>
      && id in d.elevation.pending && d.elevation.pending[id].compositor == c
      && AnswersPrompt(d, input, id) && AnswerResult(d, id, input.request.answer, input.world) == Some(outcome)
    case HideElevationPrompt(id) =>
      && id in d.elevation.pending && d.elevation.pending[id].compositor == c
      && exists outcome :: Explains(d, input, id, outcome)
  }

  // ---- replies ---------------------------------------------------------------------------------

  predicate Describes(info: SessionInfo, ctx: S.Context) {
    && info.uid == ctx.uid && info.userName == ctx.userName && info.seat == ctx.seat && info.kind == ctx.kind
    && info.state == ctx.state && (info.locked <==> ctx.state == S.Locked)
  }

  function SessionsOf(d: State, uid: Uid): set<SessionId> {
    set s | s in d.sessions.live && d.sessions.live[s].uid == uid
  }

  predicate Below(d: State, uid: Uid) {
    |SessionsOf(d, uid)| < d.settings.sessionLimit
  }

  /** The newcomer is described as asked: on the seat and of the type named, the
      configured ones where none, or no such type, is. */
  predicate Newcomer(d: State, request: Request, w: World, info: SessionInfo)
    requires request.CreateSession? && w.account.Some?
  {
    && info.id == d.sessions.nextId && info.uid == w.account.value.uid && info.userName == w.account.value.name
    && (request.seatId.Some? ==> info.seat == request.seatId.value)
    && (request.seatId.None? ==> info.seat == d.settings.defaultSeat)
    && (request.sessionType == Some("x11") ==> info.kind == S.X11)
    && (request.sessionType == Some("tty") ==> info.kind == S.Tty)
    && (request.sessionType !in {Some("x11"), Some("tty")} ==> info.kind == d.settings.defaultType)
    && info.state == S.Starting && !info.locked
  }

  /** The reply owed to someone entitled to the request, if it is to be answered now. */
  ghost predicate Owed(d: State, request: Request, w: World, r: Response) {
    match r
    case Ok => OkOwed(d, request, w)
    case SessionList(infos) =>
      && request.ListSessions?
      && forall info :: info in infos <==> info.id in d.sessions.live && Describes(info, d.sessions.live[info.id])
    case OneSession(info) =>
      || (&& request.SessionStatus? && info.id == request.session && info.id in d.sessions.live
          && Describes(info, d.sessions.live[info.id]))
      || (&& request.CreateSession? && w.account.Some? && Below(d, w.account.value.uid) && w.homeReady
          && Newcomer(d, request, w, info))
    case AuthResult(outcome) => OutcomeOwed(d, request, w, outcome)
    case InhibitGranted(id) => request.Inhibit? && id == d.locks.nextInhibitor + 1
    case InhibitorList(held) => request.ListInhibitors? && held == d.locks.inhibitors
    case Failed(e) => ErrorOwed(d, request, w, e)
  }

  predicate OkOwed(d: State, request: Request, w: World) {
    match request
    case TerminateSession(s) => s in d.sessions.live
    case RegisterCompositor(s) => s in d.sessions.live
    case LockSession(s) => HasPassword(d, s, w) && CanLock(d)
    case ReportActivity(_) => true
    case SwitchSession(seat, s) => Registry.OnSeat(d.seats, seat, s)
    case ReleaseInhibit(id) => id in d.locks.inhibitors
    case Suspend => !L.Blocks(d.locks, L.InhibitSuspend) && w.backendOk
    case Reboot => !L.Blocks(d.locks, L.InhibitShutdown) && w.backendOk
    case PowerOff => !L.Blocks(d.locks, L.InhibitShutdown) && w.backendOk
    case _ => false
  }

  predicate OutcomeOwed(d: State, request: Request, w: World, outcome: AuthOutcome) {
    match request
    case Unlock(s, _) => outcome == UnlockResult(d, s, w)
    case RespondElevation(id, answer) => id in d.elevation.pending && AnswerResult(d, id, answer, w) == Some(outcome)
    case RequestElevation(s, action) =>
      || (&& outcome == AuthOutcome.Error(NoPasswordConfigured)
          && action.wellFormed && d.settings.elevation.enabled && s in d.sessions.live && !HasPassword(d, s, w))
      || (&& outcome == LockedOut(d.settings.elevationAuth.lockout)
          && Promptable(d, s, action, w) && E.IsLockedOut(d.elevation, s))
    case _ => false
  }

  /** Errors, by what they say. */
  predicate ErrorOwed(d: State, request: Request, w: World, e: SessionError) {
    match e
    case UnknownUser => request.CreateSession? && w.account.None?
    case UnknownSeat => request.SwitchSession? && request.seat !in d.seats
    case UnknownSession(s) => UnknownSessionOwed(d, request, w, s)
    case UnknownInhibitor => request.ReleaseInhibit? && request.inhibitId !in d.locks.inhibitors
    case UnknownElevationRequest(id) => request.RespondElevation? && id == request.id && id !in d.elevation.pending
    case PermissionDenied => DenialOwed(d, request, w)
    case Unsupported => UnsupportedOwed(d, request, w)
    case Io => FailureOwed(d, request, w)
  }

  predicate UnknownSessionOwed(d: State, request: Request, w: World, s: SessionId) {
    match request
    case TerminateSession(t) => s == t && s !in d.sessions.live
    case RegisterCompositor(t) => s == t && s !in d.sessions.live
    case SessionStatus(t) => s == t && s !in d.sessions.live
    case SwitchSession(seat, t) => s == t && seat in d.seats && !Registry.OnSeat(d.seats, seat, s)
    case RequestElevation(t, action) =>
      s == t && action.wellFormed && d.settings.elevation.enabled && s !in d.sessions.live
    case RespondElevation(id, answer) =>
      id in d.elevation.pending && s == d.elevation.pending[id].session && AnswerResult(d, id, answer, w) == None
    case _ => false
  }

  /** Something stands in the way: a limit, or an inhibitor. */
  predicate DenialOwed(d: State, request: Request, w: World) {
    match request
    case CreateSession(_, _, _) => w.account.Some? && !Below(d, w.account.value.uid)
    case LockSession(s) => HasPassword(d, s, w) && d.settings.lock.enabled && L.Blocks(d.locks, L.InhibitLock)
    case Suspend => L.Blocks(d.locks, L.InhibitSuspend)
    case Reboot => L.Blocks(d.locks, L.InhibitShutdown)
    case PowerOff => L.Blocks(d.locks, L.InhibitShutdown)
    case RequestElevation(s, action) =>
      Promptable(d, s, action, w) && !E.IsLockedOut(d.elevation, s) && !HasRoom(d, s)
    case _ => false
  }

  /** It cannot be done here: switched off, malformed, or no password or display for it. */
  predicate UnsupportedOwed(d: State, request: Request, w: World) {
    match request
    case LockSession(s) => !HasPassword(d, s, w) || !d.settings.lock.enabled
    case RequestElevation(s, action) =>
      || !action.wellFormed || !d.settings.elevation.enabled
      || (s in d.sessions.live && HasPassword(d, s, w) && d.sessions.live[s].compositor.None?)
    case _ => false
  }

  /** The system failed it: the home directory, or the power backend. */
  predicate FailureOwed(d: State, request: Request, w: World) {
    match request
    case CreateSession(_, _, _) => w.account.Some? && Below(d, w.account.value.uid) && !w.homeReady
    case Suspend => !L.Blocks(d.locks, L.InhibitSuspend) && !w.backendOk
    case Reboot => !L.Blocks(d.locks, L.InhibitShutdown) && !w.backendOk
    case PowerOff => !L.Blocks(d.locks, L.InhibitShutdown) && !w.backendOk
    case _ => false
  }

  // ---- every other entry ---------------------------------------------------------------------

  /** The step takes the machine down this way: a request that nothing blocks, or, to
      suspend, a seat that has idled that long. */
  ghost predicate PowersDown(d: State, input: Input, kind: PowerKind) {
    match kind
    case ToSuspend =>
      && !L.Blocks(d.locks, L.InhibitSuspend)
      && (Asked(d, input, Suspend) || exists seat :: Changes(d, input, seat, I.SuspendRequested))
    case ToReboot => !L.Blocks(d.locks, L.InhibitShutdown) && Asked(d, input, Reboot)
    case ToPowerOff => !L.Blocks(d.locks, L.InhibitShutdown) && Asked(d, input, PowerOff)
  }

  /** An application has asked for a delay before this. */
  predicate Delayed(d: State, kind: PowerKind) {
    if kind.ToSuspend? then L.Delays(d.locks, L.InhibitSuspend) else L.Delays(d.locks, L.InhibitShutdown)
  }

  ghost predicate EveryCompositor(d: State, to: map<SessionId, ConnId>) {
    && (forall s :: s in to <==> s in d.sessions.live && d.sessions.live[s].compositor.Some?)
    && (forall s :: s in to ==> DisplayedOn(d, s, to[s]))
  }

  /** The outboxes a step finds when it sends: a disconnect takes its own away first. */
  function Outboxes(d: State, input: Input): set<ConnId> {
    if input.Disconnected? then d.registry - {input.conn} else d.registry
  }

  /** The reply is due: to this request, or to one put off that this step settles. */
  ghost predicate DueReply(d: State, input: Input, c: ConnId, r: Response, settles: Settles) {
    match settles
    case Current =>
      && input.Command? && c == input.conn
      && if Entitled(d, c, input.uid, input.request, input.world.account) then Owed(d, input.request, input.world, r)
         else r == Failed(Excuse(d, input.request))
    case Postponed(id) =>
      && id in d.elevation.pending && c == d.elevation.pending[id].requester
      && r.AuthResult? && Explains(d, input, id, r.outcome)
  }

  predicate DueCheck(d: State, input: Input, s: SessionId, name: string, prompt: Option<RequestId>) {
    match prompt
    case None => Asked(d, input, Unlock(s, name)) && !LockedOutNow(d, s)
    case Some(id) =>
      && Asked(d, input, Request.RespondElevation(id, Password))
      && id in d.elevation.pending && s == d.elevation.pending[id].session
      && s in d.sessions.live && name == d.sessions.live[s].userName
  }

  /** The entry is due in this step. */
  ghost predicate Due(d: State, input: Input, entry: Entry) {
    match entry
    case Pushed(c, event, delivered) => DueEvent(d, input, c, event) && (delivered <==> c in Outboxes(d, input))
    case Replied(c, r, settles, delivered) =>
      DueReply(d, input, c, r, settles) && (delivered <==> c in Outboxes(d, input))
    case PutOff(c, id) =>
      && input.Command? && c == input.conn && id == d.elevation.nextId + 1
      && input.request.RequestElevation? && Asked(d, input, input.request)
      && Prompts(d, input.request.session, input.request.action, input.world)
    case Checked(s, name, accepted, prompt, pamService) =>
      && DueCheck(d, input, s, name, prompt)
      && pamService == d.authenticator && input.Command? && accepted == input.world.accepts
    case Broadcast(to, event, outboxes) =>
      PowersDown(d, input, ToSuspend) && event == PrepareForSleep && EveryCompositor(d, to) && outboxes == d.registry
    case Paused(kind, grace) =>
      PowersDown(d, input, kind) && Delayed(d, kind) && grace == d.settings.grace
    case PowerCall(kind, live, _, policy, grace) =>
      && PowersDown(d, input, kind) && policy == d.settings.lock && grace == d.settings.grace
      && live == if kind.ToSuspend? then d.sessions.live.Keys else {}
  }
}
