/** When the session record falls behind the lock: the other direction of the
    agreement between the two, and exactly which steps break it. */
module LockRecords {
  import opened Common
  import opened Authentication
  import opened Messages
  import opened DaemonModel
  import opened Histories
  import opened LockSafety
  import Authority
  import Registry
  import E = ElevationModel
  import L = LockModel
  import I = IdleModel
  import S = SessionModel
  import T = SeatModel

  /** If session `s` is locked, its record says so. */
  predicate Current(d: State, s: SessionId)
    requires s in d.sessions.live
  {
    L.IsLocked(d.locks, s) ==> d.sessions.live[s].state.Locked?
  }

  // ---- the three steps that leave a record behind ------------------------------------------

  ghost function TickChanges(d: State, w: World): set<I.Change> {
    I.Changes(d.idle, w.now, d.settings.idle)
  }

  /** This change asks to lock `s`, and the policy lets it. */
  predicate IdleLocks(d: State, change: I.Change, w: World, s: SessionId) {
    && change.stage.LockRequested? && ActiveOn(d.seats, change.seat) == Some(s)
    && d.settings.lock.lockOnIdle && !SkipsLock(d, s, w)
  }

  /** A suspend that locks, by command or by the idle timer, while `s` is open and the
      same tick does not lock it the proper way. */
  ghost predicate SuspendedOver(d: State, input: Input, s: SessionId) {
    && SuspendLocks(d) && !L.IsLocked(d.locks, s)
    && match input
       case Command(_, _, request, _) => request.Suspend?
       case Tick(w) =>
         && (exists c :: c in TickChanges(d, w) && c.stage.SuspendRequested?)
         && !(exists c :: c in TickChanges(d, w) && IdleLocks(d, c, w, s))
       case _ => false
  }

  /** The compositor of the locked session `s` dies. */
  ghost predicate CrashedOver(d: State, input: Input, s: SessionId) {
    input.ChildExit? && OwnerOf(d.sessions, input.pid, input.world.owner) == Some(s) && L.IsLocked(d.locks, s)
  }

  /** A wrong password on `s` reaches the limit while it is open. */
  predicate WrongGuessFills(d: State, w: World, s: SessionId) {
    && !w.accepts && !L.IsLocked(d.locks, s)
    && L.LockOf(d.locks, s).attempts + 1 >= Budget(d.settings.unlockAuth)
  }

  predicate GuessedOver(d: State, input: Input, s: SessionId) {
    && input.Command? && input.request.Unlock? && input.request.session == s
    && Authorize(d, input.conn, input.uid, input.request, input.world.account).None?
    && WrongGuessFills(d, input.world, s)
  }

  ghost predicate FallsBehind(d: State, input: Input, s: SessionId) {
    SuspendedOver(d, input, s) || CrashedOver(d, input, s) || GuessedOver(d, input, s)
  }

  // ---- the steps that bring a record up to date ------------------------------------------------

  /** A registration, a lock that goes through, or an accepted password, for `s`. */
  predicate CommandRepairs(d: State, request: Request, w: World, s: SessionId) {
    match request
    case RegisterCompositor(t) => t == s
    case LockSession(t) => t == s && !SkipsLock(d, s, w) && L.MayLock(d.locks, d.settings.lock)
    case Unlock(t, _) => t == s && w.accepts && L.LockOf(d.locks, s).state.Locked?
    case _ => false
  }

  ghost predicate Repairs(d: State, input: Input, s: SessionId) {
    match input
    case Command(conn, uid, request, w) =>
      Authorize(d, conn, uid, request, w.account).None? && CommandRepairs(d, request, w, s)
    case Tick(w) =>
      L.MayLock(d.locks, d.settings.lock) && exists c :: c in TickChanges(d, w) && IdleLocks(d, c, w, s)
    case _ => false
  }

  // ---- stage changes ------------------------------------------------------------------------

  /** What decides whether a change locks `s`, or the suspend it asks for does. */
  ghost predicate SameDecisions(d: State, d': State, w: World, s: SessionId) {
    && d'.settings == d.settings && d'.seats == d.seats
    && SuspendLocks(d') == SuspendLocks(d)
    && L.MayLock(d'.locks, d'.settings.lock) == L.MayLock(d.locks, d.settings.lock)
    && SkipsLock(d', s, w) == SkipsLock(d, s, w)
  }

  /** From `d` to `d'`, lock and record of `s` moved by `locks` (a proper lock) and
      `suspends` (a suspend that locks) and nothing else. */
  ghost predicate Moved(d: State, d': State, s: SessionId, locks: bool, suspends: bool) {
    && s in d.sessions.live && s in d'.sessions.live
    && AgreesOn(d'.sessions.live[s], d'.locks, s)
    && (L.IsLocked(d'.locks, s) <==> L.IsLocked(d.locks, s) || locks || suspends)
    && d'.sessions.live[s].state == (if locks then S.Locked else d.sessions.live[s].state)
  }

  lemma EngageMoves(l: L.Locks, ids: set<SessionId>, policy: L.LockPolicy, s: SessionId)
    ensures var l' := L.Apply(l, L.CLock(ids, policy));
            && (L.IsLocked(l', s) <==> L.IsLocked(l, s) || (s in ids && L.MayLock(l, policy)))
            && (forall what :: L.Blocks(l', what) == L.Blocks(l, what))
  {
    var l' := L.Apply(l, L.CLock(ids, policy));
    assert l'.inhibitors == l.inhibitors;
    assert s in ids && L.MayLock(l, policy) ==> s in l'.locks;
    assert s !in ids ==> L.LockOf(l', s) == L.LockOf(l, s);
  }

  lemma LockMoves(d: State, t: SessionId, reason: LockReason, w: World, s: SessionId)
    requires s in d.sessions.live && AgreesOn(d.sessions.live[s], d.locks, s)
    ensures var d' := LockAndShow(d, t, reason);
            && Moved(d, d', s, t == s && L.MayLock(d.locks, d.settings.lock), false)
            && SameDecisions(d, d', w, s)
  {
    hide L.Apply; hide L.IsLocked; hide L.Blocks;
    EngageMoves(d.locks, {t}, d.settings.lock, s);
  }

  lemma SuspendMoves(d: State, w: World, s: SessionId)
    requires s in d.sessions.live && AgreesOn(d.sessions.live[s], d.locks, s)
    ensures var d' := OnSuspend(d, w).0;
            Moved(d, d', s, false, SuspendLocks(d)) && SameDecisions(d, d', w, s)
  {
    hide L.Apply; hide L.IsLocked; hide L.Blocks; hide L.Delays; hide S.Compositors;
    EngageMoves(d.locks, d.sessions.live.Keys, d.settings.lock, s);
  }

  lemma ChangeMoves(d: State, change: I.Change, w: World, s: SessionId)
    requires s in d.sessions.live && AgreesOn(d.sessions.live[s], d.locks, s)
    ensures var d' := ApplyChange(d, change, w);
            && Moved(d, d', s, L.MayLock(d.locks, d.settings.lock) && IdleLocks(d, change, w, s),
                     SuspendLocks(d) && change.stage.SuspendRequested?)
            && SameDecisions(d, d', w, s)
  {
    hide LockAndShow; hide OnSuspend; hide L.MayLock; hide L.Blocks; hide L.LockOf;
    var active := ActiveOn(d.seats, change.seat);
    match change.stage
    case LockRequested => if active.Some? { LockMoves(d, active.value, Idling, w, s); }
    case SuspendRequested => SuspendMoves(d, w, s);
    case _ =>
  }

  ghost predicate AnyLocks(d: State, changes: seq<I.Change>, w: World, s: SessionId) {
    L.MayLock(d.locks, d.settings.lock) && exists c :: c in changes && IdleLocks(d, c, w, s)
  }

  ghost predicate AnySuspends(d: State, changes: seq<I.Change>) {
    SuspendLocks(d) && exists c: I.Change :: c in changes && c.stage.SuspendRequested?
  }

  lemma {:induction false} ChangesMove(d: State, changes: seq<I.Change>, w: World, s: SessionId)
    requires s in d.sessions.live && AgreesOn(d.sessions.live[s], d.locks, s)
    ensures Moved(d, ApplyChanges(d, changes, w), s, AnyLocks(d, changes, w, s), AnySuspends(d, changes))
    decreases |changes|
  {
    hide ApplyChange; hide AgreesOn; hide L.MayLock; hide SuspendLocks; hide L.IsLocked;
    if changes != [] {
      var first, rest := changes[0], changes[1..];
      var next := ApplyChange(d, first, w);
      ChangeMoves(d, first, w, s);
      ChangesMove(next, rest, w, s);
      assert forall c :: c in changes <==> c == first || c in rest;
      assert forall c :: IdleLocks(next, c, w, s) <==> IdleLocks(d, c, w, s);
    }
  }

  lemma SweepKeepsLocked(d: State, w: World, s: SessionId)
    ensures SweepTimers(d, w).sessions == d.sessions
    ensures L.IsLocked(SweepTimers(d, w).locks, s) == L.IsLocked(d.locks, s)
  {
    hide Abandon;
    var b := CallElevation(CallLocks(d, L.CSweep(w.now)), E.CClearLockouts(w.now));
    var due := E.Overdue(b.elevation, w.now);
    GrewAbandon(b, E.CExpire(w.now), due, TimedOut, w.promptOrder);
  }

  lemma TickMoves(d: State, w: World, s: SessionId)
    requires s in d.sessions.live && AgreesOn(d.sessions.live[s], d.locks, s)
    ensures var changes := Listing(w.changeOrder, TickChanges(d, w));
            Moved(d, HandleTick(d, w), s, AnyLocks(d, changes, w, s), AnySuspends(d, changes))
  {
    hide ApplyChanges; hide SweepTimers; hide L.IsLocked; hide L.MayLock; hide L.Blocks;
    var a := CallIdle(d, I.CTick(w.now, d.settings.idle));
    var changes := Listing(w.changeOrder, TickChanges(d, w));
    ChangesMove(a, changes, w, s);
    SweepKeepsLocked(ApplyChanges(a, changes, w), w, s);
    assert forall c :: IdleLocks(a, c, w, s) <==> IdleLocks(d, c, w, s);
  }

  lemma TickFallsBehind(d: State, w: World, s: SessionId)
    requires s in d.sessions.live && AgreesOn(d.sessions.live[s], d.locks, s)
    ensures s in HandleTick(d, w).sessions.live
    ensures !Current(HandleTick(d, w), s) <==>
              SuspendedOver(d, Tick(w), s) || (!Current(d, s) && !Repairs(d, Tick(w), s))
  {
    hide HandleTick; hide L.IsLocked; hide L.MayLock; hide L.Blocks; hide IdleLocks;
    TickMoves(d, w, s);
    var changes := Listing(w.changeOrder, TickChanges(d, w));
    assert forall c :: c in changes <==> c in (set x | x in changes);
  }

  // ---- commands -------------------------------------------------------------------------------

  lemma UnlockFallsBehind(d: State, s: SessionId, userName: string, w: World)
    requires s in d.sessions.live && AgreesOn(d.sessions.live[s], d.locks, s)
    ensures var d' := OnUnlock(d, s, userName, w).0;
            && s in d'.sessions.live
            && (!Current(d', s) <==>
                  || WrongGuessFills(d, w, s)
                  || (!Current(d, s) && !(w.accepts && L.LockOf(d.locks, s).state.Locked?)))
  {
  }

  lemma RegisterStaysCurrent(d: State, conn: ConnId, s: SessionId)
    requires s in d.sessions.live && AgreesOn(d.sessions.live[s], d.locks, s)
    ensures var d' := OnRegisterCompositor(d, conn, s).0;
            s in d'.sessions.live && Current(d', s)
  {
  }

  /** A command that names `s`, other than one that ends it. */
  lemma OwnFallsBehind(d: State, conn: ConnId, request: Request, w: World, s: SessionId)
    requires s in d.sessions.live && AgreesOn(d.sessions.live[s], d.locks, s)
    requires Authority.Target(request) == Some(s) && !request.TerminateSession?
    ensures var d' := Dispatch(d, conn, request, w).0;
            && s in d'.sessions.live
            && (!Current(d', s) <==>
                  || (request.Unlock? && WrongGuessFills(d, w, s))
                  || (!Current(d, s) && !CommandRepairs(d, request, w, s)))
  {
    hide OnUnlock; hide OnRegisterCompositor; hide LockAndShow; hide OnSwitchSession; hide L.LockOf; hide L.MayLock;
    hide L.Blocks; hide WrongGuessFills;
    match request
    case Unlock(_, userName) => UnlockFallsBehind(d, s, userName, w);
    case RegisterCompositor(_) => RegisterStaysCurrent(d, conn, s);
    case LockSession(_) => LockMoves(d, s, Manual, w, s);
    case SwitchSession(seat, _) => Authority.SwitchKeeps(d, seat, s, s);
    case SessionStatus(_) =>
  }

  lemma DispatchFallsBehind(d: State, conn: ConnId, request: Request, w: World, s: SessionId)
    requires Registry.Numbered(d.sessions)
    requires s in d.sessions.live && AgreesOn(d.sessions.live[s], d.locks, s)
    requires s in Dispatch(d, conn, request, w).0.sessions.live
    ensures !Current(Dispatch(d, conn, request, w).0, s) <==>
              || (request.Suspend? && SuspendLocks(d) && !L.IsLocked(d.locks, s))
              || (request.Unlock? && request.session == s && WrongGuessFills(d, w, s))
              || (!Current(d, s) && !CommandRepairs(d, request, w, s))
  {
    hide L.LockOf; hide L.MayLock; hide L.Blocks; hide OnSuspend; hide OnTerminateSession; hide OnPowerDown;
    hide Registry.Numbered; hide WrongGuessFills;
    if request.Suspend? {
      SuspendMoves(d, w, s);
    } else if request.Reboot? || request.PowerOff? {
      DownKeepsNobody(d, if request.Reboot? then ToReboot else ToPowerOff, w, s);
    } else if request.TerminateSession? && request.session == s {
      Registry.TerminateSessions(d, s, w);
    } else if Authority.Target(request) == Some(s) {
      OwnFallsBehind(d, conn, request, w, s);
      hide Dispatch;
    } else {
      Authority.DispatchKeeps(d, conn, request, w, s);
      hide Dispatch;
    }
  }

  lemma DownKeepsNobody(d: State, kind: PowerKind, w: World, s: SessionId)
    requires s in OnPowerDown(d, kind, w).0.sessions.live
    ensures OnPowerDown(d, kind, w).0 == d
  {
    hide L.Blocks; hide L.Delays;
  }

  // ---- every step from every reachable state ---------------------------------------------------

  /** For a session that lives through a step: its record is behind afterwards if and
      only if the step leaves it behind, or it was and the step does not repair it. */
  lemma StepFallsBehind(d: State, input: Input, s: SessionId)
    requires Registry.Numbered(d.sessions)
    requires s in d.sessions.live && AgreesOn(d.sessions.live[s], d.locks, s)
    requires s in Step(d, input).sessions.live
    ensures !Current(Step(d, input), s) <==> FallsBehind(d, input, s) || (!Current(d, s) && !Repairs(d, input, s))
  {
    hide HandleTick; hide Dispatch; hide Registry.Numbered; hide L.LockOf; hide L.MayLock; hide L.Blocks;
    hide HandleDisconnect; hide Authorize; hide CommandRepairs;
    match input
    case Disconnected(conn, w) => Registry.DisconnectSessions(d, conn, w);
    case Command(conn, uid, request, w) =>
      if Authorize(d, conn, uid, request, w.account).None? {
        DispatchFallsBehind(d, conn, request, w, s);
      } else {
        EveryoneMaySuspend(d, conn, uid, request, w.account);
      }
    case Tick(w) => TickFallsBehind(d, w, s);
    case _ =>
  }

  lemma EveryoneMaySuspend(d: State, conn: ConnId, uid: Uid, request: Request, account: Option<Account>)
    requires Authorize(d, conn, uid, request, account).Some?
    ensures !request.Suspend?
  {
  }

  // ---- sessions that are born locked -----------------------------------------------------------

  /** A login goes through and gets the id `s`. */
  predicate Admits(d: State, w: World, s: SessionId) {
    && w.account.Some?
    && var outcome := S.CreateOutcome(d.sessions, w.account.value.uid, d.settings.sessionLimit, w.homeReady);
       outcome == S.Created(s)
  }

  /** The step logs in a session that gets the id `s`. */
  predicate LogsIn(d: State, input: Input, s: SessionId) {
    && input.Command? && input.request.CreateSession?
    && Authorize(d, input.conn, input.uid, input.request, input.world.account).None?
    && Admits(d, input.world, s)
  }

  lemma CreateLogsIn(d: State, request: Request, w: World, s: SessionId)
    requires Registry.Numbered(d.sessions) && request.CreateSession? && s !in d.sessions.live
    ensures var d' := OnCreateSession(d, request.seatId, request.sessionType, w).0;
            && d'.locks == d.locks
            && (s in d'.sessions.live <==> Admits(d, w, s))
            && (s in d'.sessions.live ==> d'.sessions.live[s].state.Starting?)
  {
    hide T.Attach; hide KindOf; hide Info; hide S.OwnedBy;
  }

  /** Only a login brings a session to life, and its record is behind at once exactly
      when its id was locked before. */
  lemma BornStep(d: State, input: Input, s: SessionId)
    requires Registry.Numbered(d.sessions) && s !in d.sessions.live
    ensures s in Step(d, input).sessions.live <==> LogsIn(d, input, s)
    ensures LogsIn(d, input, s) ==> s < Step(d, input).sessions.nextId
    ensures s in Step(d, input).sessions.live ==> (!Current(Step(d, input), s) <==> L.IsLocked(d.locks, s))
  {
    hide HandleTick; hide Dispatch; hide HandleDisconnect; hide Authorize; hide L.LockOf; hide S.CreateOutcome;
    Registry.SucceedsStep(d, input);
    match input
    case Disconnected(conn, w) => Registry.DisconnectSessions(d, conn, w);
    case Tick(w) => Registry.SameTick(d, w);
    case Command(conn, uid, request, w) => BornCommand(d, conn, request, w, s);
    case _ =>
  }

  lemma BornCommand(d: State, conn: ConnId, request: Request, w: World, s: SessionId)
    requires Registry.Numbered(d.sessions) && s !in d.sessions.live
    ensures var d' := Dispatch(d, conn, request, w).0;
            && (s in d'.sessions.live <==> request.CreateSession? && Admits(d, w, s))
            && (s in d'.sessions.live ==> d'.locks == d.locks && d'.sessions.live[s].state.Starting?)
  {
    hide OnTerminateSession; hide OnCreateSession; hide S.CreateOutcome;
    if request.TerminateSession? {
      Registry.TerminateSessions(d, request.session, w);
    } else if request.CreateSession? {
      CreateLogsIn(d, request, w, s);
    } else if request.Reboot? || request.PowerOff? {
      Registry.DownSessions(d, conn, request, w);
      hide Dispatch;
    } else {
      Registry.SameDispatch(d, conn, request, w);
      hide Dispatch;
    }
  }

  // ---- whole runs ------------------------------------------------------------------------------

  /** The step leaves the record of `s` behind its lock, or logs `s` in while its id is
      already locked. */
  ghost predicate Falls(d: State, input: Input, s: SessionId) {
    if s in d.sessions.live then FallsBehind(d, input, s) else LogsIn(d, input, s) && L.IsLocked(d.locks, s)
  }

  ghost predicate FellAt(boot: State, inputs: seq<Input>, s: SessionId, k: nat)
    requires k < |inputs|
  {
    Falls(Run(boot, inputs[..k]), inputs[k], s)
  }

  ghost predicate RepairedAt(boot: State, inputs: seq<Input>, s: SessionId, k: nat)
    requires k < |inputs|
  {
    Repairs(Run(boot, inputs[..k]), inputs[k], s)
  }

  /** Step `k` left the record behind and nothing has repaired it since. */
  ghost predicate BehindSince(boot: State, inputs: seq<Input>, s: SessionId, k: nat)
    requires k < |inputs|
  {
    FellAt(boot, inputs, s, k) && forall j :: k < j < |inputs| ==> !RepairedAt(boot, inputs, s, j)
  }

  ghost predicate Behind(boot: State, inputs: seq<Input>, s: SessionId) {
    exists k: nat :: k < |inputs| && BehindSince(boot, inputs, s, k)
  }

  lemma BehindSnoc(boot: State, inputs: seq<Input>, s: SessionId)
    requires inputs != []
    ensures var n := |inputs| - 1;
            var d := Run(boot, inputs[..n]);
            Behind(boot, inputs, s) <==>
              Falls(d, inputs[n], s) || (Behind(boot, inputs[..n], s) && !Repairs(d, inputs[n], s))
  {
    hide Run; hide Falls; hide Repairs;
    var n := |inputs| - 1;
    var earlier := inputs[..n];
    forall k: nat | k < n
      ensures FellAt(boot, earlier, s, k) <==> FellAt(boot, inputs, s, k)
      ensures RepairedAt(boot, earlier, s, k) <==> RepairedAt(boot, inputs, s, k)
    {
      assert earlier[..k] == inputs[..k];
    }
    assert FellAt(boot, inputs, s, n) <==> Falls(Run(boot, inputs[..n]), inputs[n], s);
    assert RepairedAt(boot, inputs, s, n) <==> Repairs(Run(boot, inputs[..n]), inputs[n], s);
    forall k: nat | k < n
      ensures BehindSince(boot, inputs, s, k) <==> BehindSince(boot, earlier, s, k) && !RepairedAt(boot, inputs, s, n)
    {
    }
    assert BehindSince(boot, inputs, s, n) <==> FellAt(boot, inputs, s, n);
  }

  /** An id that ever fell behind was handed out by then. */
  lemma {:induction false} FellWasNumbered(settings: Settings, service: Option<Uid>, inputs: seq<Input>, s: SessionId)
    requires Behind(Boot(settings, service), inputs, s)
    ensures s < Run(Boot(settings, service), inputs).sessions.nextId
  {
    hide Step; hide Falls; hide Repairs;
    var boot := Boot(settings, service);
    assert inputs != [];
    var n := |inputs| - 1;
    BehindSnoc(boot, inputs, s);
    var d := Run(boot, inputs[..n]);
    Registry.IdentityLasts(boot, inputs[..n]);
    Registry.SucceedsStep(d, inputs[n]);
    if Falls(d, inputs[n], s) {
      FallNumbered(d, inputs[n], s);
    } else {
      FellWasNumbered(settings, service, inputs[..n], s);
    }
  }

  lemma FallNumbered(d: State, input: Input, s: SessionId)
    requires Registry.Numbered(d.sessions) && Falls(d, input, s)
    ensures s < Step(d, input).sessions.nextId
  {
    hide Step; hide FallsBehind; hide LogsIn;
    Registry.SucceedsStep(d, input);
    if s !in d.sessions.live { BornStep(d, input, s); }
  }

  /** The converse of the agreement, exactly. In every run, the record of a live session
      does not say that it is locked, though it is, if and only if some step left it
      behind and none has repaired it since. A suspend over it, the death of its
      compositor while it is locked, wrong passwords that lock it out while it is open,
      and its login under an id already locked leave it behind; a registration of a
      compositor, a lock that goes through, by command or idle timer, and an accepted
      password repair it. */
  lemma {:induction false} RecordFallsBehindExactly(settings: Settings, service: Option<Uid>, inputs: seq<Input>,
                                                    s: SessionId)
    ensures var d := Run(Boot(settings, service), inputs);
            s in d.sessions.live ==> (!Current(d, s) <==> Behind(Boot(settings, service), inputs, s))
  {
    hide Step; hide Current; hide Behind; hide FallsBehind; hide Repairs; hide LogsIn; hide AgreesOn;
    var boot := Boot(settings, service);
    if inputs != [] && s in Run(boot, inputs).sessions.live {
      var n := |inputs| - 1;
      var d := Run(boot, inputs[..n]);
      BehindSnoc(boot, inputs, s);
      Registry.IdentityLasts(boot, inputs[..n]);
      if s in d.sessions.live {
        RecordFallsBehindExactly(settings, service, inputs[..n], s);
        AlwaysAgrees(settings, service, inputs[..n]);
        StepFallsBehind(d, inputs[n], s);
      } else {
        BornStep(d, inputs[n], s);
        Registry.SucceedsStep(d, inputs[n]);
        if Behind(boot, inputs[..n], s) { FellWasNumbered(settings, service, inputs[..n], s); }
      }
    }
  }
}
