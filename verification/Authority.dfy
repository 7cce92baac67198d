/** What the central policy check is for: root may do anything, everyone else acts
    only on sessions they own. */
module Authority {
  import opened Common
  import opened Authentication
  import opened Messages
  import opened DaemonModel
  import opened Histories
  import Registry
  import LockSafety
  import EO = ExactlyOnce
  import E = ElevationModel
  import ET = ElevationTheorems
  import L = LockModel
  import LT = LockTheorems
  import I = IdleModel
  import S = SessionModel
  import T = SeatModel

  /** Session `s` is as it was: its record, its screen lock, its wrong guesses and
      its lockout timer. */
  ghost predicate Untouched(d: State, d': State, s: SessionId) {
    && s in d.sessions.live && s in d'.sessions.live
    && d'.sessions.live[s] == d.sessions.live[s]
    && SameLock(d.locks, d'.locks, s)
  }

  ghost predicate SameLock(l: L.Locks, l': L.Locks, s: SessionId) {
    && L.LockOf(l', s) == L.LockOf(l, s)
    && (s in l'.lockoutExpiry <==> s in l.lockoutExpiry)
    && (s in l.lockoutExpiry ==> l'.lockoutExpiry[s] == l.lockoutExpiry[s])
  }

  /** The session a command acts on, where it names one. */
  function Target(request: Request): Option<SessionId> {
    match request
    case TerminateSession(s) => Some(s)
    case RegisterCompositor(s) => Some(s)
    case SessionStatus(s) => Some(s)
    case LockSession(s) => Some(s)
    case SwitchSession(_, s) => Some(s)
    case Unlock(s, _) => Some(s)
    case _ => None
  }

  /** The requests anyone may make although they concern every session. */
  predicate ConcernsEveryone(request: Request) {
    request.Suspend? || request.Reboot? || request.PowerOff?
  }

  /** A request let through for someone who is not root targets one of their own
      live sessions, if it targets any. */
  lemma TargetsAreOwned(d: State, conn: ConnId, uid: Uid, request: Request, account: Option<Account>)
    requires uid != 0 && Target(request).Some?
    ensures Authorize(d, conn, uid, request, account).None? <==>
              Target(request).value in d.sessions.live && d.sessions.live[Target(request).value].uid == uid
  {
  }

  /** The policy as it is meant: root may do anything. Anyone else acts on sessions that
      are live and theirs, logs in as themselves, asks for an elevation only as the
      configured service, and answers a prompt only on the connection it was shown to;
      what names nothing of the kind is open to all. */
  predicate Entitled(d: State, conn: ConnId, uid: Uid, request: Request, account: Option<Account>) {
    || uid == 0
    || (&& (Target(request).Some? ==> Owned(d, uid, Target(request).value))
        && (request.CreateSession? ==> account.Some? && account.value.uid == uid)
        && (request.RequestElevation? ==> d.service == Some(uid))
        && (request.RespondElevation? ==> ShownOn(d, request.id, conn)))
  }

  predicate Owned(d: State, uid: Uid, s: SessionId) {
    s in d.sessions.live && d.sessions.live[s].uid == uid
  }

  predicate ShownOn(d: State, id: RequestId, conn: ConnId) {
    id in d.elevation.pending && d.elevation.pending[id].compositor == conn
  }

  /** What someone who is not entitled is told: that the prompt, or the session, does not
      exist where that may be so, and otherwise that it is not permitted. */
  function Excuse(d: State, request: Request): SessionError {
    if request.RespondElevation? then UnknownElevationRequest(request.id)
    else
      match Target(request)
      case Some(s) => if s in d.sessions.live then PermissionDenied else UnknownSession(s)
      case None => PermissionDenied
  }

  /** The policy check lets a request through if and only if its sender is entitled to
      it, and otherwise refuses it with that excuse. */
  lemma PolicyExactly(d: State, conn: ConnId, uid: Uid, request: Request, account: Option<Account>)
    ensures Authorize(d, conn, uid, request, account)
         == if Entitled(d, conn, uid, request, account) then None else Some(Excuse(d, request))
  {
  }

  // ---- each command keeps to its target ---------------------------------------------------

  lemma CreateKeeps(d: State, conn: ConnId, request: Request, w: World, s: SessionId)
    requires Registry.Numbered(d.sessions) && s in d.sessions.live && request.CreateSession?
    ensures Untouched(d, Dispatch(d, conn, request, w).0, s)
  {
    Registry.CreateEffect(d, request.seatId, request.sessionType, w);
    CreateSameLocks(d, request.seatId, request.sessionType, w);
    hide OnCreateSession;
  }

  lemma CreateSameLocks(d: State, seatId: Option<SeatId>, sessionType: Option<string>, w: World)
    ensures OnCreateSession(d, seatId, sessionType, w).0.locks == d.locks
  {
    hide T.Attach; hide S.Create;
  }

  lemma TerminateKeeps(d: State, t: SessionId, w: World, s: SessionId)
    requires s in d.sessions.live && s != t
    ensures Untouched(d, OnTerminateSession(d, t, w).0, s)
  {
    hide OnTerminateSession;
    Registry.TerminateSessions(d, t, w);
    LockSafety.TerminateSameLocks(d, t, w);
  }

  lemma RegisterKeeps(d: State, conn: ConnId, t: SessionId, s: SessionId)
    requires s in d.sessions.live && s != t
    ensures Untouched(d, OnRegisterCompositor(d, conn, t).0, s)
  {
    hide L.IsLocked; hide L.LockOf;
  }

  lemma LockKeeps(d: State, t: SessionId, w: World, s: SessionId)
    requires s in d.sessions.live && s != t
    ensures Untouched(d, OnLockSession(d, t, w).0, s)
  {
    hide L.Apply; hide L.LockOf; hide L.MayLock; hide L.Blocks;
    LT.Unconcerned(d.locks, L.CLock({t}, d.settings.lock), s);
  }

  lemma UnlockKeeps(d: State, t: SessionId, userName: string, w: World, s: SessionId)
    requires s in d.sessions.live && s != t
    ensures Untouched(d, OnUnlock(d, t, userName, w).0, s)
  {
    hide L.Apply; hide L.LockOf; hide L.UnlockOutcome;
    LT.Unconcerned(d.locks, L.CUnlock(t, w.accepts, d.settings.unlockAuth, w.now), s);
  }

  lemma SwitchKeeps(d: State, seat: SeatId, t: SessionId, s: SessionId)
    requires s in d.sessions.live
    ensures Untouched(d, OnSwitchSession(d, seat, t).0, s)
  {
    hide T.Switch; hide T.SwitchOutcome; hide L.LockOf;
  }

  lemma StartKeeps(d: State, conn: ConnId, t: SessionId, action: ElevationAction, w: World, s: SessionId)
    requires s in d.sessions.live
    ensures Untouched(d, StartElevation(d, conn, t, action, w).0, s)
  {
    hide E.Apply; hide E.BeginOutcome; hide L.LockOf;
  }

  lemma RespondKeeps(d: State, id: RequestId, answer: Answer, w: World, s: SessionId)
    requires s in d.sessions.live
    ensures Untouched(d, OnRespondElevation(d, id, answer, w).0, s)
  {
    hide E.Apply; hide E.AttemptOutcome; hide L.LockOf;
  }

  lemma DispatchKeeps(d: State, conn: ConnId, request: Request, w: World, s: SessionId)
    requires Registry.Numbered(d.sessions) && s in d.sessions.live
    requires Target(request) != Some(s) && !ConcernsEveryone(request)
    ensures Untouched(d, Dispatch(d, conn, request, w).0, s)
  {
    hide Registry.Numbered; hide OnCreateSession; hide OnTerminateSession; hide OnRegisterCompositor;
    hide OnLockSession;
    hide OnUnlock; hide OnSwitchSession; hide StartElevation; hide OnRespondElevation; hide I.Apply;
    match request
    case CreateSession(_, _, _) => CreateKeeps(d, conn, request, w, s);
    case TerminateSession(t) => TerminateKeeps(d, t, w, s);
    case RegisterCompositor(t) => RegisterKeeps(d, conn, t, s);
    case LockSession(t) => LockKeeps(d, t, w, s);
    case Unlock(t, userName) => UnlockKeeps(d, t, userName, w, s);
    case SwitchSession(seat, t) => SwitchKeeps(d, seat, t, s);
    case RequestElevation(t, action) => StartKeeps(d, conn, t, action, w, s);
    case RespondElevation(id, answer) => RespondKeeps(d, id, answer, w, s);
    case _ =>
  }

  // ---- over every run -------------------------------------------------------------------------

  /** The requests that reach every session although anyone may make them, when they
      change something of session `s`: a reboot or power-off that nothing blocks ends
      it, and a suspend that locks changes its lock unless that is plainly Locked. */
  predicate ReachesEveryone(d: State, request: Request, s: SessionId) {
    || ((request.Reboot? || request.PowerOff?) && !L.Blocks(d.locks, L.InhibitShutdown))
    || (request.Suspend? && LockSafety.SuspendLocks(d) && !L.LockOf(d.locks, s).state.Locked?)
  }

  lemma SuspendReaches(d: State, w: World, s: SessionId)
    requires s in d.sessions.live
    ensures Untouched(d, OnSuspend(d, w).0, s) <==> !(LockSafety.SuspendLocks(d) && !L.LockOf(d.locks, s).state.Locked?)
  {
    hide L.Blocks; hide L.Delays; hide S.Compositors;
    var d' := OnSuspend(d, w).0;
    assert LockSafety.SuspendLocks(d) ==>
        s in d'.locks.locks && L.LockOf(d'.locks, s) == L.SessionLock(L.Locked, L.LockOf(d.locks, s).attempts);
  }

  lemma DownReaches(d: State, kind: PowerKind, w: World, s: SessionId)
    requires s in d.sessions.live
    ensures Untouched(d, OnPowerDown(d, kind, w).0, s) <==> L.Blocks(d.locks, L.InhibitShutdown)
  {
    hide L.Blocks; hide L.LockOf; hide L.Delays;
  }

  lemma DispatchReaches(d: State, conn: ConnId, request: Request, w: World, s: SessionId)
    requires Registry.Numbered(d.sessions) && s in d.sessions.live && Target(request) != Some(s)
    ensures Untouched(d, Dispatch(d, conn, request, w).0, s) <==> !ReachesEveryone(d, request, s)
  {
    hide Untouched; hide OnSuspend; hide OnPowerDown; hide L.Blocks; hide L.LockOf; hide LockSafety.SuspendLocks;
    hide Registry.Numbered;
    match request
    case Suspend => SuspendReaches(d, w, s);
    case Reboot => DownReaches(d, ToReboot, w, s);
    case PowerOff => DownReaches(d, ToPowerOff, w, s);
    case _ =>
      DispatchKeeps(d, conn, request, w, s);
      hide Dispatch;
  }

  lemma EveryoneMay(d: State, conn: ConnId, uid: Uid, request: Request, account: Option<Account>)
    requires Authorize(d, conn, uid, request, account).Some?
    ensures !ConcernsEveryone(request)
  {
  }

  lemma UntouchedBy(d: State, d': State, d'': State, s: SessionId)
    requires d''.sessions == d'.sessions && d''.locks == d'.locks
    ensures Untouched(d, d'', s) <==> Untouched(d, d', s)
  {
  }

  /** After any run, what a client that is not root sends leaves the record, the screen
      lock, the guess counter and the lockout timer of somebody else's session alone,
      if and only if it is not one of the requests anyone may make that reach everyone. */
  lemma OthersUntouched(settings: Settings, service: Option<Uid>, inputs: seq<Input>,
                        conn: ConnId, uid: Uid, request: Request, w: World, s: SessionId)
    requires uid != 0
    requires var d := Run(Boot(settings, service), inputs);
             s in d.sessions.live && d.sessions.live[s].uid != uid
    ensures var d := Run(Boot(settings, service), inputs);
            Untouched(d, Step(d, Command(conn, uid, request, w)), s) <==> !ReachesEveryone(d, request, s)
  {
    hide Run; hide Dispatch; hide Authorize; hide Finish; hide Untouched; hide L.Blocks; hide L.LockOf;
    hide LockSafety.SuspendLocks;
    Registry.IdentityLasts(Boot(settings, service), inputs);
    var d := Run(Boot(settings, service), inputs);
    if Authorize(d, conn, uid, request, w.account).None? {
      if Target(request).Some? { TargetsAreOwned(d, conn, uid, request, w.account); }
      DispatchReaches(d, conn, request, w, s);
      FinishElevation(Dispatch(d, conn, request, w), conn);
      UntouchedBy(d, Dispatch(d, conn, request, w).0, Step(d, Command(conn, uid, request, w)), s);
    } else {
      EveryoneMay(d, conn, uid, request, w.account);
      UntouchedSelf(d, s);
      UntouchedBy(d, d, Step(d, Command(conn, uid, request, w)), s);
    }
  }

  lemma UntouchedSelf(d: State, s: SessionId)
    requires s in d.sessions.live
    ensures Untouched(d, d, s)
  {
  }

  // ---- other people's prompts -------------------------------------------------------------------

  /** The elevation side of session `s` is as it was: its open prompts, their
      deadlines, its wrong guesses and its lockout timer. */
  ghost predicate SameElevation(e: E.Elevation, e': E.Elevation, s: SessionId) {
    && (forall id :: id in E.OpenFor(e', s) <==> id in E.OpenFor(e, s))
    && (forall id :: id in E.OpenFor(e, s) ==>
          && id in e'.pending && e'.pending[id] == e.pending[id]
          && (id in e'.promptExpiry <==> id in e.promptExpiry)
          && (id in e.promptExpiry ==> e'.promptExpiry[id] == e.promptExpiry[id]))
    && E.GuessesOf(e', s) == E.GuessesOf(e, s)
    && (s in e'.lockoutExpiry <==> s in e.lockoutExpiry)
    && (s in e.lockoutExpiry ==> e'.lockoutExpiry[s] == e.lockoutExpiry[s])
  }

  /** The request answers a prompt for `s` on the connection it was shown to. */
  predicate AnswersFor(d: State, conn: ConnId, request: Request, s: SessionId) {
    && request.RespondElevation? && request.id in d.elevation.pending
    && d.elevation.pending[request.id].session == s && d.elevation.pending[request.id].compositor == conn
  }

  /** The request is the configured service asking for a prompt for `s`, and the prompt
      opens: the action is well formed, elevation is enabled, the user has a password,
      the session a compositor and room for a prompt, and it is not locked out. */
  predicate AsksFor(d: State, uid: Uid, request: Request, w: World, s: SessionId) {
    && request.RequestElevation? && request.session == s && d.service == Some(uid)
    && request.action.wellFormed && d.settings.elevation.enabled
    && s in d.sessions.live && d.sessions.live[s].userName !in w.noPassword && d.sessions.live[s].compositor.Some?
    && !E.IsLockedOut(d.elevation, s) && |E.OpenFor(d.elevation, s)| < d.settings.elevation.maxPending
  }

  lemma BeginElsewhere(e: E.Elevation, call: E.Call, s: SessionId)
    requires call.CBegin? && call.session != s && ET.Consistent(e)
    ensures SameElevation(e, E.Apply(e, call), s)
  {
  }

  lemma AnswerElsewhere(e: E.Elevation, call: E.Call, s: SessionId)
    requires call.CAttempt? || call.CCancel?
    requires call.id in e.pending && e.pending[call.id].session != s
    ensures SameElevation(e, E.Apply(e, call), s)
  {
    hide Verdict;
  }

  lemma AbandonElsewhere(e: E.Elevation, t: SessionId, s: SessionId)
    requires t != s
    ensures SameElevation(e, E.Apply(e, E.CAbandonSession(t)), s)
  {
  }

  lemma StartElsewhere(d: State, conn: ConnId, t: SessionId, action: ElevationAction, w: World, s: SessionId)
    requires t != s && ET.Consistent(d.elevation)
    ensures SameElevation(d.elevation, StartElevation(d, conn, t, action, w).0.elevation, s)
  {
    hide E.Apply; hide E.BeginOutcome; hide ET.Consistent; hide SameElevation;
    SameElevationSelf(d.elevation, s);
    if t in d.sessions.live && d.sessions.live[t].compositor.Some? {
      var compositor := d.sessions.live[t].compositor.value;
      var call := E.CBegin(t, compositor, conn, d.settings.elevation, d.settings.elevationAuth, w.now);
      BeginElsewhere(d.elevation, call, s);
    }
  }

  lemma RespondElsewhere(d: State, id: RequestId, answer: Answer, w: World, s: SessionId)
    requires id in d.elevation.pending ==> d.elevation.pending[id].session != s
    ensures SameElevation(d.elevation, OnRespondElevation(d, id, answer, w).0.elevation, s)
  {
    hide E.Apply; hide E.AttemptOutcome; hide SameElevation;
    SameElevationSelf(d.elevation, s);
    if id in d.elevation.pending {
      AnswerElsewhere(d.elevation, E.CCancel(id), s);
      AnswerElsewhere(d.elevation, E.CAttempt(id, w.accepts, d.settings.elevationAuth, w.now), s);
    }
  }

  lemma TerminateElsewhere(d: State, t: SessionId, w: World, s: SessionId)
    requires t != s
    ensures SameElevation(d.elevation, OnTerminateSession(d, t, w).0.elevation, s)
  {
    hide Abandon; hide E.Apply; hide SameElevation;
    SameElevationSelf(d.elevation, s);
    if t in d.sessions.live {
      var ended := d.(sessions := S.Remove(d.sessions, {t}), seats := T.Detach(d.seats, t));
      GrewAbandon(ended, E.CAbandonSession(t), E.OpenFor(d.elevation, t), SessionEnded, w.promptOrder);
      AbandonElsewhere(d.elevation, t, s);
    }
  }

  lemma SameElevationSelf(e: E.Elevation, s: SessionId)
    ensures SameElevation(e, e, s)
  {
  }

  lemma FinishElevation(r: (State, Option<Response>), conn: ConnId)
    ensures Finish(r, conn) == r.0.(log := Finish(r, conn).log)
  {
  }

  /** Asking for a prompt for `s` itself changes its elevation side exactly when the
      prompt opens. */
  lemma StartHere(d: State, conn: ConnId, uid: Uid, request: Request, w: World, s: SessionId)
    requires request.RequestElevation? && request.session == s && d.service == Some(uid) && ET.Consistent(d.elevation)
    ensures SameElevation(d.elevation, StartElevation(d, conn, s, request.action, w).0.elevation, s)
       <==> !AsksFor(d, uid, request, w, s)
  {
    SameElevationSelf(d.elevation, s);
    if AsksFor(d, uid, request, w, s) {
      var id := d.elevation.nextId + 1;
      var e' := StartElevation(d, conn, s, request.action, w).0.elevation;
      assert id in E.OpenFor(e', s) && id !in E.OpenFor(d.elevation, s);
    }
  }

  /** Answering a prompt for the live session `s` always changes its elevation side. */
  lemma RespondHere(d: State, id: RequestId, answer: Answer, w: World, s: SessionId)
    requires id in d.elevation.pending && d.elevation.pending[id].session == s && s in d.sessions.live
    ensures !SameElevation(d.elevation, OnRespondElevation(d, id, answer, w).0.elevation, s)
  {
    var e' := OnRespondElevation(d, id, answer, w).0.elevation;
    assert id in E.OpenFor(d.elevation, s);
    if id in e'.pending { assert E.GuessesOf(e', s).attempts == E.GuessesOf(d.elevation, s).attempts + 1; }
  }

  /** After any run, what a client that is not root sends changes the prompts, guesses or
      elevation lockout of somebody else's session if and only if it answers one of its
      prompts on the connection it was shown to, or comes from the configured service
      and opens another. */
  lemma OthersElevation(settings: Settings, service: Option<Uid>, inputs: seq<Input>,
                        conn: ConnId, uid: Uid, request: Request, w: World, s: SessionId)
    requires uid != 0
    requires var d := Run(Boot(settings, service), inputs);
             s in d.sessions.live && d.sessions.live[s].uid != uid
    ensures var d := Run(Boot(settings, service), inputs);
            SameElevation(d.elevation, Step(d, Command(conn, uid, request, w)).elevation, s) <==>
              !AnswersFor(d, conn, request, s) && !AsksFor(d, uid, request, w, s)
  {
    hide Run; hide Dispatch; hide SameElevation; hide Finish; hide ET.Consistent; hide E.OpenFor; hide E.IsLockedOut;
    var d := Run(Boot(settings, service), inputs);
    AlwaysReplayed(settings, service, inputs);
    ET.AlwaysConsistent(d.elevationCalls);
    SameElevationSelf(d.elevation, s);
    if Authorize(d, conn, uid, request, w.account).None? {
      FinishElevation(Dispatch(d, conn, request, w), conn);
      DispatchElsewhere(d, conn, uid, request, w, s);
    }
  }

  lemma DispatchElsewhere(d: State, conn: ConnId, uid: Uid, request: Request, w: World, s: SessionId)
    requires uid != 0 && s in d.sessions.live && d.sessions.live[s].uid != uid && ET.Consistent(d.elevation)
    requires Authorize(d, conn, uid, request, w.account).None?
    ensures SameElevation(d.elevation, Dispatch(d, conn, request, w).0.elevation, s) <==>
              !AnswersFor(d, conn, request, s) && !AsksFor(d, uid, request, w, s)
  {
    hide SameElevation; hide OnTerminateSession; hide StartElevation; hide OnRespondElevation; hide ET.Consistent;
    hide E.OpenFor; hide E.IsLockedOut;
    SameElevationSelf(d.elevation, s);
    match request
    case TerminateSession(t) => TerminateElsewhere(d, t, w, s);
    case RequestElevation(t, action) =>
      if t == s { StartHere(d, conn, uid, request, w, s); } else { StartElsewhere(d, conn, t, action, w, s); }
    case RespondElevation(id, answer) =>
      if d.elevation.pending[id].session == s {
        RespondHere(d, id, answer, w, s);
      } else {
        RespondElsewhere(d, id, answer, w, s);
      }
    case _ =>
      EO.CalmDispatch(d, conn, request, w);
      hide Dispatch;
  }

  // ---- other people's seats -----------------------------------------------------------------------

  /** The request switches this seat to a session of the client's own that is on it. */
  predicate SwitchesAway(d: State, uid: Uid, request: Request, seat: SeatId) {
    && request.SwitchSession? && request.seat == seat
    && request.session in d.sessions.live && d.sessions.live[request.session].uid == uid
    && Registry.OnSeat(d.seats, seat, request.session)
  }

  /** Everyone else keeps their place on the seat, and `s` its active slot if it had it. */
  ghost predicate KeepsSlot(seats: T.Seats, seats': T.Seats, seat: SeatId, s: SessionId) {
    && (Registry.OnSeat(seats', seat, s) <==> Registry.OnSeat(seats, seat, s))
    && (ActiveOn(seats, seat) == Some(s) ==> ActiveOn(seats', seat) == Some(s))
  }

  /** After any run, whatever a client that is not root sends, everybody else stays on
      their seats; and one of them loses the active slot if and only if the client
      switches that seat to a session of its own. */
  lemma OthersSeats(settings: Settings, service: Option<Uid>, inputs: seq<Input>,
                    conn: ConnId, uid: Uid, request: Request, w: World, seat: SeatId, s: SessionId)
    requires uid != 0
    requires var d := Run(Boot(settings, service), inputs);
             s in d.sessions.live && d.sessions.live[s].uid != uid
    ensures var d := Run(Boot(settings, service), inputs);
            var d' := Step(d, Command(conn, uid, request, w));
            && (Registry.OnSeat(d'.seats, seat, s) <==> Registry.OnSeat(d.seats, seat, s))
            && (ActiveOn(d.seats, seat) == Some(s) ==>
                  (ActiveOn(d'.seats, seat) != Some(s) <==> SwitchesAway(d, uid, request, seat)))
  {
    hide Run; hide Dispatch; hide Finish; hide Registry.OnSeat; hide Registry.Seated;
    var d := Run(Boot(settings, service), inputs);
    Registry.AlwaysSeated(settings, service, inputs);
    if Authorize(d, conn, uid, request, w.account).None? {
      FinishElevation(Dispatch(d, conn, request, w), conn);
      DispatchSeats(d, conn, uid, request, w, seat, s);
    }
  }

  lemma DispatchSeats(d: State, conn: ConnId, uid: Uid, request: Request, w: World, seat: SeatId, s: SessionId)
    requires uid != 0 && s in d.sessions.live && d.sessions.live[s].uid != uid && Registry.Seated(d.sessions, d.seats)
    requires Authorize(d, conn, uid, request, w.account).None?
    ensures var seats' := Dispatch(d, conn, request, w).0.seats;
            && (Registry.OnSeat(seats', seat, s) <==> Registry.OnSeat(d.seats, seat, s))
            && (ActiveOn(d.seats, seat) == Some(s) ==>
                  (ActiveOn(seats', seat) != Some(s) <==> SwitchesAway(d, uid, request, seat)))
  {
    hide OnTerminateSession; hide OnCreateSession; hide Registry.OnSeat; hide Registry.Seated; hide T.Switch;
    hide T.Detach;
    hide Registry.SameSessions; hide ActiveOn;
    if request.TerminateSession? {
      Registry.TerminateSessions(d, request.session, w);
      DetachKeeps(d.sessions, d.seats, request.session, seat, s);
    } else if request.CreateSession? {
      CreateKeepsSlot(d, request.seatId, request.sessionType, w, seat, s);
    } else if request.Reboot? || request.PowerOff? {
      Registry.DownSessions(d, conn, request, w);
      hide Dispatch;
    } else {
      Registry.SameDispatch(d, conn, request, w);
      hide Dispatch;
      if request.SwitchSession? { SwitchMovesSlot(d.sessions, d.seats, request.seat, request.session, seat, s); }
    }
  }

  lemma DetachKeeps(r: S.Sessions, seats: T.Seats, t: SessionId, seat: SeatId, s: SessionId)
    requires t != s && Registry.Seated(r, seats)
    ensures KeepsSlot(seats, T.Detach(seats, t), seat, s)
  {
    Registry.DetachSeated(r, seats, t);
  }

  lemma CreateKeepsSlot(d: State, seatId: Option<SeatId>, sessionType: Option<string>, w: World, seat: SeatId,
                        s: SessionId)
    requires s in d.sessions.live && Registry.Seated(d.sessions, d.seats)
    ensures KeepsSlot(d.seats, OnCreateSession(d, seatId, sessionType, w).0.seats, seat, s)
  {
    hide OnCreateSession;
    Registry.CreateEffect(d, seatId, sessionType, w);
  }

  lemma SwitchMovesSlot(r: S.Sessions, seats: T.Seats, id: SeatId, t: SessionId, seat: SeatId, s: SessionId)
    requires t != s && Registry.Seated(r, seats)
    ensures Registry.OnSeat(T.Switch(seats, id, t), seat, s) <==> Registry.OnSeat(seats, seat, s)
    ensures ActiveOn(seats, seat) == Some(s) ==>
              (ActiveOn(T.Switch(seats, id, t), seat) != Some(s) <==> id == seat && Registry.OnSeat(seats, seat, t))
  {
    Registry.SwitchSeated(r, seats, id, t);
  }
}
