/** The session registry and the seats over whole daemon runs. */
module Registry {
  import opened Common
  import opened Authentication
  import opened Messages
  import opened DaemonModel
  import opened Histories
  import E = ElevationModel
  import L = LockModel
  import I = IdleModel
  import S = SessionModel
  import T = SeatModel

  // ---- which steps change who is logged in ------------------------------------------------

  /** Nobody logged in or out, and everyone is still who they were. */
  ghost predicate SameSessions(r: S.Sessions, r': S.Sessions) {
    && r'.nextId == r.nextId
    && r'.live.Keys == r.live.Keys
    && forall s :: s in r.live ==> S.SameIdentity(r.live[s], r'.live[s])
  }

  ghost predicate SameSeating(d: State, d': State) {
    SameSessions(d.sessions, d'.sessions) && d'.seats == d.seats
  }

  predicate LogsInOrOut(request: Request) {
    request.CreateSession? || request.TerminateSession? || request.Reboot? || request.PowerOff?
  }

  lemma SameLock(d: State, s: SessionId, reason: LockReason)
    ensures SameSeating(d, LockAndShow(d, s, reason))
  {
  }

  lemma {:induction false} SameChanges(d: State, changes: seq<I.Change>, w: World)
    ensures SameSeating(d, ApplyChanges(d, changes, w))
    decreases |changes|
  {
    if changes != [] {
      var next := ApplyChange(d, changes[0], w);
      var active := ActiveOn(d.seats, changes[0].seat);
      if active.Some? { SameLock(d, active.value, Idling); }
      assert SameSeating(d, next) by { hide LockAndShow; }
      hide ApplyChange;
      SameChanges(next, changes[1..], w);
    }
  }

  lemma SameTick(d: State, w: World)
    ensures SameSeating(d, HandleTick(d, w))
  {
    hide Abandon; hide ApplyChanges; hide SameSeating;
    var a := CallIdle(d, I.CTick(w.now, d.settings.idle));
    var changes := Listing(w.changeOrder, I.Changes(d.idle, w.now, d.settings.idle));
    var b := ApplyChanges(a, changes, w);
    SameChanges(a, changes, w);
    var c := CallElevation(CallLocks(b, L.CSweep(w.now)), E.CClearLockouts(w.now));
    GrewAbandon(c, E.CExpire(w.now), E.Overdue(c.elevation, w.now), TimedOut, w.promptOrder);
    SameSeatingBy(d, a, HandleTick(d, w));
  }

  /** Seating only depends on the registry and the seats. */
  lemma SameSeatingBy(d: State, a: State, d': State)
    requires a.sessions == d.sessions && a.seats == d.seats
    requires exists b :: SameSeating(a, b) && d'.sessions == b.sessions && d'.seats == b.seats
    ensures SameSeating(d, d')
  {
  }

  lemma SameUnlock(d: State, s: SessionId, userName: string, w: World)
    ensures SameSeating(d, OnUnlock(d, s, userName, w).0)
  {
    hide L.Apply;
  }

  lemma SameRegister(d: State, conn: ConnId, s: SessionId)
    ensures SameSeating(d, OnRegisterCompositor(d, conn, s).0)
  {
  }

  lemma SameElevation(d: State, conn: ConnId, request: Request, w: World)
    requires request.RequestElevation? || request.RespondElevation?
    ensures Dispatch(d, conn, request, w).0.sessions == d.sessions && Dispatch(d, conn, request, w).0.seats == d.seats
  {
    hide E.Apply; hide E.BeginOutcome;
  }

  lemma SameDispatch(d: State, conn: ConnId, request: Request, w: World)
    requires !LogsInOrOut(request)
    ensures SameSessions(d.sessions, Dispatch(d, conn, request, w).0.sessions)
    ensures !request.SwitchSession? ==> Dispatch(d, conn, request, w).0.seats == d.seats
    ensures request.SwitchSession? ==>
              && Dispatch(d, conn, request, w).0.sessions == d.sessions
              && Dispatch(d, conn, request, w).0.seats == T.Switch(d.seats, request.seat, request.session)
  {
    hide L.Apply; hide E.Apply; hide I.Apply; hide LockAndShow; hide OnUnlock; hide OnRegisterCompositor;
    hide StartElevation; hide OnRespondElevation; hide SameSessions;
    SameSelf(d.sessions);
    match request
    case LockSession(s) => SameLock(d, s, Manual);
    case Unlock(s, userName) => SameUnlock(d, s, userName, w);
    case RegisterCompositor(s) => SameRegister(d, conn, s);
    case RequestElevation(_, _) => SameElevation(d, conn, request, w);
    case RespondElevation(_, _) => SameElevation(d, conn, request, w);
    case _ =>
  }

  lemma SameSelf(r: S.Sessions)
    ensures SameSessions(r, r)
  {
  }

  // ---- identities and ids ---------------------------------------------------------------------

  /** Ids in use were handed out by the counter. */
  ghost predicate Numbered(r: S.Sessions) {
    1 <= r.nextId && forall s :: s in r.live ==> 1 <= s < r.nextId
  }

  /** Ids only go up, a survivor keeps its identity, and a newcomer has a new id. */
  ghost predicate Succeeds(r: S.Sessions, r': S.Sessions) {
    && r.nextId <= r'.nextId
    && (forall s :: s in r'.live && s in r.live ==> S.SameIdentity(r.live[s], r'.live[s]))
    && (forall s :: s in r'.live && s !in r.live ==> r.nextId <= s < r'.nextId)
  }

  lemma TerminateSessions(d: State, s: SessionId, w: World)
    ensures OnTerminateSession(d, s, w).0.sessions == S.Remove(d.sessions, {s})
    ensures s in d.sessions.live ==> OnTerminateSession(d, s, w).0.seats == T.Detach(d.seats, s)
    ensures s !in d.sessions.live ==> OnTerminateSession(d, s, w).0.seats == d.seats
  {
    hide Abandon;
    if s in d.sessions.live {
      var ended := d.(sessions := S.Remove(d.sessions, {s}), seats := T.Detach(d.seats, s));
      GrewAbandon(ended, E.CAbandonSession(s), E.OpenFor(d.elevation, s), SessionEnded, w.promptOrder);
    } else {
      assert S.Remove(d.sessions, {s}).live == d.sessions.live;
    }
  }

  lemma DisconnectSessions(d: State, conn: ConnId, w: World)
    ensures HandleDisconnect(d, conn, w).sessions == S.DropConnection(d.sessions, conn)
    ensures HandleDisconnect(d, conn, w).seats == d.seats
    ensures HandleDisconnect(d, conn, w).locks == d.locks
  {
    hide Abandon;
    var gone := d.(registry := d.registry - {conn}, sessions := S.DropConnection(d.sessions, conn));
    GrewAbandon(gone, E.CAbandonConnection(conn), E.Touching(d.elevation, conn), ConnectionDropped, w.promptOrder);
  }

  /** What a login request does to the registry and the seats: nothing, an id spent
      in vain, or one newcomer with the next id, on the seat in its record. */
  lemma CreateEffect(d: State, seatId: Option<SeatId>, sessionType: Option<string>, w: World)
    ensures var d' := OnCreateSession(d, seatId, sessionType, w).0;
            var id := d.sessions.nextId;
            || (d'.sessions == d.sessions && d'.seats == d.seats)
            || (d'.sessions == d.sessions.(nextId := id + 1) && d'.seats == d.seats)
            || (&& id in d'.sessions.live
                && d'.sessions == S.Sessions(d.sessions.live[id := d'.sessions.live[id]], id + 1)
                && w.account.Some? && d'.sessions.live[id].uid == w.account.value.uid
                && |S.OwnedBy(d.sessions, w.account.value.uid)| < d.settings.sessionLimit
                && d'.sessions.live[id].compositor == None
                && d'.seats == T.Attach(d.seats, d'.sessions.live[id].seat, id))
  {
    hide S.OwnedBy; hide T.Attach; hide KindOf; hide Info;
  }

  lemma SucceedsDispatch(d: State, conn: ConnId, request: Request, w: World)
    requires Numbered(d.sessions)
    ensures Succeeds(d.sessions, Dispatch(d, conn, request, w).0.sessions)
    ensures Numbered(Dispatch(d, conn, request, w).0.sessions)
  {
    hide OnTerminateSession; hide OnCreateSession;
    if request.TerminateSession? {
      TerminateSessions(d, request.session, w);
    } else if request.CreateSession? {
      CreateEffect(d, request.seatId, request.sessionType, w);
    } else if request.Reboot? || request.PowerOff? {
      DownSessions(d, conn, request, w);
      hide Dispatch;
    } else {
      SameDispatch(d, conn, request, w);
      hide Dispatch;
    }
  }

  lemma DownSessions(d: State, conn: ConnId, request: Request, w: World)
    requires request.Reboot? || request.PowerOff?
    ensures var r := Dispatch(d, conn, request, w).0.sessions;
            r == d.sessions || r == S.Remove(d.sessions, d.sessions.live.Keys)
    ensures Dispatch(d, conn, request, w).0.seats == d.seats
  {
    hide OnPowerDown; hide L.Blocks;
    DownEffect(d, if request.Reboot? then ToReboot else ToPowerOff, w);
  }

  lemma SucceedsStep(d: State, input: Input)
    requires Numbered(d.sessions)
    ensures Succeeds(d.sessions, Step(d, input).sessions) && Numbered(Step(d, input).sessions)
  {
    hide HandleTick; hide HandleDisconnect; hide Dispatch;
    match input
    case Disconnected(conn, w) => DisconnectSessions(d, conn, w);
    case Tick(w) => SameTick(d, w);
    case Command(conn, uid, request, w) => SucceedsDispatch(d, conn, request, w);
    case _ =>
  }

  /** Over any run from a reachable state: a session alive at both ends kept its
      user, uid, seat and type all along, and an id given up never comes back. */
  lemma {:induction false} IdentityLasts(d: State, inputs: seq<Input>)
    requires Numbered(d.sessions)
    ensures Numbered(Run(d, inputs).sessions) && Succeeds(d.sessions, Run(d, inputs).sessions)
  {
    hide Step;
    if inputs != [] {
      var n := |inputs| - 1;
      IdentityLasts(d, inputs[..n]);
      SucceedsStep(Run(d, inputs[..n]), inputs[n]);
    }
  }

  // ---- the cap on sessions per user ---------------------------------------------------------------

  lemma SameOwners(r: S.Sessions, r': S.Sessions, uid: Uid)
    requires SameSessions(r, r')
    ensures S.OwnedBy(r', uid) == S.OwnedBy(r, uid)
  {
  }

  lemma FewerOwned(r: S.Sessions, ids: set<SessionId>, uid: Uid)
    ensures |S.OwnedBy(S.Remove(r, ids), uid)| <= |S.OwnedBy(r, uid)|
  {
    assert S.OwnedBy(S.Remove(r, ids), uid) <= S.OwnedBy(r, uid);
    SubsetSize(S.OwnedBy(S.Remove(r, ids), uid), S.OwnedBy(r, uid));
  }

  lemma CreateOwned(d: State, seatId: Option<SeatId>, sessionType: Option<string>, w: World, uid: Uid)
    requires Numbered(d.sessions) && |S.OwnedBy(d.sessions, uid)| <= d.settings.sessionLimit
    ensures |S.OwnedBy(OnCreateSession(d, seatId, sessionType, w).0.sessions, uid)| <= d.settings.sessionLimit
  {
    CreateEffect(d, seatId, sessionType, w);
    hide OnCreateSession;
    var r, r' := d.sessions, OnCreateSession(d, seatId, sessionType, w).0.sessions;
    if r'.live == r.live {
      assert S.OwnedBy(r', uid) == S.OwnedBy(r, uid);
    } else {
      var id := r.nextId;
      assert S.OwnedBy(r', uid) == if w.account.value.uid == uid then S.OwnedBy(r, uid) + {id} else S.OwnedBy(r, uid);
    }
  }

  lemma LimitDispatch(d: State, conn: ConnId, request: Request, w: World, uid: Uid)
    requires Numbered(d.sessions) && |S.OwnedBy(d.sessions, uid)| <= d.settings.sessionLimit
    ensures |S.OwnedBy(Dispatch(d, conn, request, w).0.sessions, uid)| <= d.settings.sessionLimit
  {
    hide OnTerminateSession; hide OnCreateSession; hide S.OwnedBy; hide SameSessions;
    if request.TerminateSession? {
      TerminateSessions(d, request.session, w);
      FewerOwned(d.sessions, {request.session}, uid);
    } else if request.CreateSession? {
      CreateOwned(d, request.seatId, request.sessionType, w, uid);
    } else if request.Reboot? || request.PowerOff? {
      DownSessions(d, conn, request, w);
      hide Dispatch;
      FewerOwned(d.sessions, d.sessions.live.Keys, uid);
    } else {
      SameDispatch(d, conn, request, w);
      hide Dispatch;
      SameOwners(d.sessions, Dispatch(d, conn, request, w).0.sessions, uid);
    }
  }

  lemma LimitStep(d: State, input: Input, uid: Uid)
    requires Numbered(d.sessions) && |S.OwnedBy(d.sessions, uid)| <= d.settings.sessionLimit
    ensures |S.OwnedBy(Step(d, input).sessions, uid)| <= d.settings.sessionLimit
  {
    hide HandleTick; hide HandleDisconnect; hide Dispatch; hide S.OwnedBy;
    match input
    case Disconnected(conn, w) =>
      DisconnectSessions(d, conn, w);
      SameOwners(d.sessions, Step(d, input).sessions, uid);
    case Tick(w) =>
      SameTick(d, w);
      SameOwners(d.sessions, Step(d, input).sessions, uid);
    case ChildExit(pid, w) => SameOwners(d.sessions, Step(d, input).sessions, uid);
    case Terminate => FewerOwned(d.sessions, d.sessions.live.Keys, uid);
    case Command(conn, _, request, w) => LimitDispatch(d, conn, request, w, uid);
    case _ =>
  }

  /** With fixed settings no user ever has more sessions than allowed. */
  lemma {:induction false} SessionCap(settings: Settings, service: Option<Uid>, inputs: seq<Input>, uid: Uid)
    requires NoReload(inputs)
    ensures |S.OwnedBy(Run(Boot(settings, service), inputs).sessions, uid)| <= settings.sessionLimit
  {
    if inputs == [] {
      assert S.OwnedBy(S.NO_SESSIONS, uid) == {};
    } else {
      var n := |inputs| - 1;
      SessionCap(settings, service, inputs[..n], uid);
      IdentityLasts(Boot(settings, service), inputs[..n]);
      GrewRun(Boot(settings, service), inputs[..n]);
      hide Step;
      LimitStep(Run(Boot(settings, service), inputs[..n]), inputs[n], uid);
    }
  }

  // ---- sessions and seats ---------------------------------------------------------------------------

  predicate OnSeat(seats: T.Seats, seat: SeatId, s: SessionId) {
    seat in seats && T.HasSession(seats[seat], s)
  }

  /** Every seat is in order and every id on one was handed out; nobody is on two
      seats; and every live session is on the seat its record names. */
  ghost predicate Seated(r: S.Sessions, seats: T.Seats) {
    && Numbered(r)
    && (forall seat :: seat in seats ==> T.Orderly(seats[seat]))
    && (forall seat, s: SessionId :: OnSeat(seats, seat, s) ==> s < r.nextId)
    && (forall seat, other, s :: OnSeat(seats, seat, s) && OnSeat(seats, other, s) ==> seat == other)
    && (forall s :: s in r.live ==> OnSeat(seats, r.live[s].seat, s))
  }

  /** Nobody sits on a seat after logging out. */
  ghost predicate NoGhosts(r: S.Sessions, seats: T.Seats) {
    forall seat, s :: OnSeat(seats, seat, s) ==> s in r.live
  }

  lemma OnRoster(seat: T.Seat, s: SessionId)
    ensures T.HasSession(seat, s) <==> s in T.Roster(seat)
  {
  }

  lemma AttachSeated(r: S.Sessions, seats: T.Seats, ctx: S.Context)
    requires Seated(r, seats)
    ensures var r' := S.Sessions(r.live[r.nextId := ctx], r.nextId + 1);
            var seats' := T.Attach(seats, ctx.seat, r.nextId);
            && Seated(r', seats') && (NoGhosts(r, seats) ==> NoGhosts(r', seats'))
            && (forall seat, s :: OnSeat(seats, seat, s) ==> OnSeat(seats', seat, s))
  {
    var id := r.nextId;
    var seat := T.SeatAt(seats, ctx.seat);
    var seats' := T.Attach(seats, ctx.seat, id);
    assert !T.HasSession(seat, id) by { assert ctx.seat in seats ==> !OnSeat(seats, ctx.seat, id); }
    OnRoster(seat, id);
    T.JoinedRefines(seat, id);
    forall other, s ensures OnSeat(seats', other, s) <==> OnSeat(seats, other, s) || (other == ctx.seat && s == id) {
    }
  }

  lemma DetachSeated(r: S.Sessions, seats: T.Seats, s: SessionId)
    requires Seated(r, seats)
    ensures Seated(S.Remove(r, {s}), T.Detach(seats, s))
    ensures NoGhosts(r, seats) ==> NoGhosts(S.Remove(r, {s}), T.Detach(seats, s))
    ensures forall seat, t :: OnSeat(T.Detach(seats, s), seat, t) <==> OnSeat(seats, seat, t) && t != s
  {
    var seats' := T.Detach(seats, s);
    forall seat | seat in seats
      ensures T.Orderly(seats'[seat])
      ensures forall t :: T.HasSession(seats'[seat], t) <==> T.HasSession(seats[seat], t) && t != s
    {
      T.LeftRefines(seats[seat], s);
      forall t ensures T.HasSession(seats'[seat], t) <==> T.HasSession(seats[seat], t) && t != s {
        OnRoster(seats'[seat], t);
        OnRoster(seats[seat], t);
      }
    }
    assert forall seat, t :: OnSeat(seats', seat, t) <==> OnSeat(seats, seat, t) && t != s;
  }

  lemma SwitchSeated(r: S.Sessions, seats: T.Seats, seat: SeatId, s: SessionId)
    requires Seated(r, seats)
    ensures Seated(r, T.Switch(seats, seat, s))
    ensures NoGhosts(r, seats) ==> NoGhosts(r, T.Switch(seats, seat, s))
    ensures forall other, t :: OnSeat(T.Switch(seats, seat, s), other, t) <==> OnSeat(seats, other, t)
  {
    var seats' := T.Switch(seats, seat, s);
    if T.SwitchOutcome(seats, seat, s).SwitchedFrom? {
      T.SwitchedRefines(seats[seat], s);
      forall other, t ensures OnSeat(seats', other, t) <==> OnSeat(seats, other, t) {
        if other == seat {
          OnRoster(seats'[seat], t);
          OnRoster(seats[seat], t);
          assert t in T.Roster(seats[seat]) <==> t in multiset(T.Roster(seats[seat]));
          assert t in T.Roster(seats'[seat]) <==> t in multiset(T.Roster(seats'[seat]));
        }
      }
    }
  }

  lemma SameSeated(r: S.Sessions, r': S.Sessions, seats: T.Seats)
    requires Seated(r, seats) && SameSessions(r, r')
    ensures Seated(r', seats) && (NoGhosts(r, seats) ==> NoGhosts(r', seats))
  {
  }

  lemma FewerSeated(r: S.Sessions, seats: T.Seats, ids: set<SessionId>)
    requires Seated(r, seats)
    ensures Seated(S.Remove(r, ids), seats)
  {
  }

  /** A step that ends every session at once, which only these do, leaves the seats
      as they are. */
  predicate EndsAll(input: Input) {
    input.Terminate? || (input.Command? && (input.request.Reboot? || input.request.PowerOff?))
  }

  lemma CreateSeated(d: State, seatId: Option<SeatId>, sessionType: Option<string>, w: World)
    requires Seated(d.sessions, d.seats)
    ensures var d' := OnCreateSession(d, seatId, sessionType, w).0;
            && Seated(d'.sessions, d'.seats) && (NoGhosts(d.sessions, d.seats) ==> NoGhosts(d'.sessions, d'.seats))
            && (forall seat, s :: OnSeat(d.seats, seat, s) ==> OnSeat(d'.seats, seat, s))
  {
    CreateEffect(d, seatId, sessionType, w);
    hide OnCreateSession;
    var d' := OnCreateSession(d, seatId, sessionType, w).0;
    var id := d.sessions.nextId;
    if id in d'.sessions.live {
      if d'.sessions.live != d.sessions.live { AttachSeated(d.sessions, d.seats, d'.sessions.live[id]); }
    }
  }

  lemma SeatedCommand(d: State, conn: ConnId, request: Request, w: World)
    requires Seated(d.sessions, d.seats)
    ensures var d' := Dispatch(d, conn, request, w).0;
            && Seated(d'.sessions, d'.seats)
            && (NoGhosts(d.sessions, d.seats) && !request.Reboot? && !request.PowerOff? ==>
                  NoGhosts(d'.sessions, d'.seats))
  {
    hide Seated; hide NoGhosts; hide OnTerminateSession; hide OnCreateSession; hide SameSessions; hide T.Switch;
    hide T.Detach;
    if request.TerminateSession? {
      TerminateSessions(d, request.session, w);
      if request.session in d.sessions.live {
        DetachSeated(d.sessions, d.seats, request.session);
      } else {
        assert S.Remove(d.sessions, {request.session}) == d.sessions;
      }
    } else if request.CreateSession? {
      CreateSeated(d, request.seatId, request.sessionType, w);
    } else if request.Reboot? || request.PowerOff? {
      FewerSeated(d.sessions, d.seats, d.sessions.live.Keys);
    } else {
      SameDispatch(d, conn, request, w);
      hide Dispatch;
      if request.SwitchSession? {
        SwitchSeated(d.sessions, d.seats, request.seat, request.session);
      } else {
        SameSeated(d.sessions, Dispatch(d, conn, request, w).0.sessions, d.seats);
      }
    }
  }

  lemma SeatedStep(d: State, input: Input)
    requires Seated(d.sessions, d.seats)
    ensures Seated(Step(d, input).sessions, Step(d, input).seats)
    ensures NoGhosts(d.sessions, d.seats) && !EndsAll(input) ==> NoGhosts(Step(d, input).sessions, Step(d, input).seats)
  {
    hide Seated; hide NoGhosts; hide HandleTick; hide HandleDisconnect; hide Dispatch;
    match input
    case Disconnected(conn, w) =>
      DisconnectSessions(d, conn, w);
      SameSeated(d.sessions, Step(d, input).sessions, d.seats);
    case Tick(w) =>
      SameTick(d, w);
      SameSeated(d.sessions, Step(d, input).sessions, d.seats);
    case ChildExit(pid, w) => SameSeated(d.sessions, Step(d, input).sessions, d.seats);
    case Terminate => FewerSeated(d.sessions, d.seats, d.sessions.live.Keys);
    case Command(conn, uid, request, w) => SeatedCommand(d, conn, request, w);
    case _ =>
  }

  /** The step ends every session without clearing the seats: a reboot or power-off
      that nothing blocks, or the end of the daemon. */
  predicate EndsEveryone(d: State, input: Input) {
    EndsAll(input) && (input.Command? ==> !L.Blocks(d.locks, L.InhibitShutdown))
  }

  lemma EndsOrNot(d: State, input: Input)
    requires EndsAll(input)
    ensures Step(d, input).seats == d.seats
    ensures Step(d, input).sessions
         == if EndsEveryone(d, input) then S.Remove(d.sessions, d.sessions.live.Keys) else d.sessions
  {
    hide L.Blocks; hide OnPowerDown;
    if input.Command? { DownEffect(d, if input.request.Reboot? then ToReboot else ToPowerOff, input.world); }
  }

  lemma DownEffect(d: State, kind: PowerKind, w: World)
    ensures var d' := OnPowerDown(d, kind, w).0;
            && d'.seats == d.seats
            && d'.sessions == if L.Blocks(d.locks, L.InhibitShutdown) then d.sessions
                              else S.Remove(d.sessions, d.sessions.live.Keys)
  {
    hide L.Blocks; hide L.Delays;
  }

  /** Someone who sits on a seat after logging out never leaves it. */
  lemma GhostStays(d: State, input: Input, seat: SeatId, s: SessionId)
    requires Seated(d.sessions, d.seats) && OnSeat(d.seats, seat, s) && s !in d.sessions.live
    ensures OnSeat(Step(d, input).seats, seat, s) && s !in Step(d, input).sessions.live
  {
    SucceedsStep(d, input);
    hide Seated; hide HandleTick; hide HandleDisconnect; hide Dispatch; hide OnSeat;
    match input
    case Disconnected(conn, w) => DisconnectSessions(d, conn, w);
    case Tick(w) => SameTick(d, w);
    case Command(conn, uid, request, w) => GhostStaysCommand(d, conn, request, w, seat, s);
    case _ =>
  }

  lemma GhostStaysCommand(d: State, conn: ConnId, request: Request, w: World, seat: SeatId, s: SessionId)
    requires Seated(d.sessions, d.seats) && OnSeat(d.seats, seat, s) && s !in d.sessions.live
    ensures OnSeat(Dispatch(d, conn, request, w).0.seats, seat, s)
  {
    hide Seated; hide OnSeat; hide NoGhosts; hide OnTerminateSession; hide OnCreateSession; hide T.Switch;
    hide T.Detach; hide SameSessions;
    if request.TerminateSession? {
      TerminateSessions(d, request.session, w);
      DetachSeated(d.sessions, d.seats, request.session);
    } else if request.CreateSession? {
      CreateSeated(d, request.seatId, request.sessionType, w);
    } else if request.Reboot? || request.PowerOff? {
      DownSessions(d, conn, request, w);
      hide Dispatch;
    } else {
      SameDispatch(d, conn, request, w);
      hide Dispatch;
      if request.SwitchSession? { SwitchSeated(d.sessions, d.seats, request.seat, request.session); }
    }
  }

  /** A step leaves someone on a seat after logging out exactly when somebody already
      was, or it ends every session while there are some. */
  lemma GhostStep(d: State, input: Input)
    requires Seated(d.sessions, d.seats)
    ensures NoGhosts(Step(d, input).sessions, Step(d, input).seats) <==>
              NoGhosts(d.sessions, d.seats) && !(EndsEveryone(d, input) && d.sessions.live != map[])
  {
    hide Step; hide T.HasSession;
    if !NoGhosts(d.sessions, d.seats) {
      var seat, s :| OnSeat(d.seats, seat, s) && s !in d.sessions.live;
      GhostStays(d, input, seat, s);
    } else if !EndsAll(input) {
      SeatedStep(d, input);
    } else {
      EndsOrNot(d, input);
      if EndsEveryone(d, input) {
        assert Step(d, input).sessions.live == map[];
        if d.sessions.live != map[] {
          var s :| s in d.sessions.live;
          assert OnSeat(d.seats, d.sessions.live[s].seat, s);
        }
      }
    }
  }

  /** Step `k` of the run ended every session while there were some. */
  ghost predicate EndedSome(boot: State, inputs: seq<Input>, k: nat)
    requires k < |inputs|
  {
    EndsEveryone(Run(boot, inputs[..k]), inputs[k]) && Run(boot, inputs[..k]).sessions.live != map[]
  }

  /** In every run, each live session is on exactly one seat, the one in its record,
      once, and no seat has anyone waiting for an empty slot. The ids on seats are
      exactly the live ones if and only if no reboot or power-off that nothing blocked,
      and no end of the daemon, came while someone was logged in. */
  lemma {:induction false} AlwaysSeated(settings: Settings, service: Option<Uid>, inputs: seq<Input>)
    ensures var boot := Boot(settings, service);
            var d := Run(boot, inputs);
            && Seated(d.sessions, d.seats)
            && (NoGhosts(d.sessions, d.seats) <==> !exists k: nat :: k < |inputs| && EndedSome(boot, inputs, k))
  {
    hide Step; hide Seated; hide NoGhosts; hide EndsEveryone;
    var boot := Boot(settings, service);
    if inputs == [] {
      BootSeated(settings, service);
    } else {
      var n := |inputs| - 1;
      AlwaysSeated(settings, service, inputs[..n]);
      SeatedStep(Run(boot, inputs[..n]), inputs[n]);
      GhostStep(Run(boot, inputs[..n]), inputs[n]);
      EndedSomeSnoc(boot, inputs);
    }
  }

  lemma BootSeated(settings: Settings, service: Option<Uid>)
    ensures var d := Boot(settings, service);
            Seated(d.sessions, d.seats) && NoGhosts(d.sessions, d.seats)
  {
  }

  lemma EndedSomeSnoc(boot: State, inputs: seq<Input>)
    requires inputs != []
    ensures var n := |inputs| - 1;
            (exists k: nat :: k < |inputs| && EndedSome(boot, inputs, k)) <==>
              || (exists k: nat :: k < n && EndedSome(boot, inputs[..n], k))
              || (EndsEveryone(Run(boot, inputs[..n]), inputs[n]) && Run(boot, inputs[..n]).sessions.live != map[])
  {
    hide Run; hide EndsEveryone;
    var n := |inputs| - 1;
    forall k: nat | k < n ensures EndedSome(boot, inputs, k) <==> EndedSome(boot, inputs[..n], k) {
      assert inputs[..n][..k] == inputs[..k];
    }
    if k: nat :| k < n && EndedSome(boot, inputs[..n], k) { assert EndedSome(boot, inputs, k); }
    assert EndedSome(boot, inputs, n) <==>
      EndsEveryone(Run(boot, inputs[..n]), inputs[n]) && Run(boot, inputs[..n]).sessions.live != map[];
  }

  // ---- arrival order --------------------------------------------------------------------------------

  ghost predicate Increasing(q: seq<SessionId>) {
    forall i, j :: 0 <= i < j < |q| ==> q[i] < q[j]
  }

  /** Everyone on every seat is in order of arrival. */
  ghost predicate FirstComeFirstServed(seats: T.Seats) {
    forall seat :: seat in seats ==> Increasing(T.Roster(seats[seat]))
  }

  lemma {:induction false} WithoutIncreasing(q: seq<SessionId>, s: SessionId)
    requires Increasing(q)
    ensures Increasing(Without(q, s))
  {
    if q != [] {
      WithoutIncreasing(q[1..], s);
      var rest := Without(q[1..], s);
      assert forall i :: 0 <= i < |rest| ==> rest[i] in rest && rest[i] in q[1..];
    }
  }

  lemma DetachOrder(r: S.Sessions, seats: T.Seats, s: SessionId)
    requires Seated(r, seats) && FirstComeFirstServed(seats)
    ensures FirstComeFirstServed(T.Detach(seats, s))
  {
    forall seat | seat in seats ensures Increasing(T.Roster(T.Left(seats[seat], s))) {
      T.LeftRefines(seats[seat], s);
      WithoutIncreasing(T.Roster(seats[seat]), s);
    }
  }

  lemma AttachOrder(r: S.Sessions, seats: T.Seats, seat: SeatId)
    requires Seated(r, seats) && FirstComeFirstServed(seats)
    ensures FirstComeFirstServed(T.Attach(seats, seat, r.nextId))
  {
    var before := T.SeatAt(seats, seat);
    T.JoinedRefines(before, r.nextId);
    forall i | 0 <= i < |T.Roster(before)| ensures T.Roster(before)[i] < r.nextId {
      OnRoster(before, T.Roster(before)[i]);
      assert OnSeat(seats, seat, T.Roster(before)[i]);
    }
  }

  lemma OrderStep(d: State, input: Input)
    requires Seated(d.sessions, d.seats) && FirstComeFirstServed(d.seats)
    requires !(input.Command? && input.request.SwitchSession?)
    ensures FirstComeFirstServed(Step(d, input).seats)
  {
    hide Seated; hide FirstComeFirstServed; hide HandleTick; hide HandleDisconnect; hide OnTerminateSession;
    hide OnCreateSession;
    match input
    case Disconnected(conn, w) => DisconnectSessions(d, conn, w);
    case Tick(w) => SameTick(d, w);
    case Command(conn, uid, request, w) =>
      if request.TerminateSession? {
        TerminateSessions(d, request.session, w);
        DetachOrder(d.sessions, d.seats, request.session);
      } else if request.CreateSession? {
        CreateEffect(d, request.seatId, request.sessionType, w);
        var d' := OnCreateSession(d, request.seatId, request.sessionType, w).0;
        if d'.seats != d.seats { AttachOrder(d.sessions, d.seats, d'.sessions.live[d.sessions.nextId].seat); }
      } else if !LogsInOrOut(request) {
        SameDispatch(d, conn, request, w);
        hide Dispatch;
      }
    case _ =>
  }

  /** As long as nobody asks to switch, every seat stays in order of arrival: the
      active session is always the one that logged in earliest of those still there,
      and promotion follows the queue. */
  lemma {:induction false} PromotionFollowsArrival(settings: Settings, service: Option<Uid>, inputs: seq<Input>)
    requires forall k :: 0 <= k < |inputs| ==> !(inputs[k].Command? && inputs[k].request.SwitchSession?)
    ensures FirstComeFirstServed(Run(Boot(settings, service), inputs).seats)
  {
    if inputs != [] {
      hide Step; hide FirstComeFirstServed;
      var n := |inputs| - 1;
      PromotionFollowsArrival(settings, service, inputs[..n]);
      AlwaysSeated(settings, service, inputs[..n]);
      OrderStep(Run(Boot(settings, service), inputs[..n]), inputs[n]);
    }
  }
}
