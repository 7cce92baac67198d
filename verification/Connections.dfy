/** No session and no prompt ever refers to a connection that has gone. */
module Connections {
  import opened Common
  import opened Authentication
  import opened Messages
  import opened DaemonModel
  import opened Histories
  import EO = ExactlyOnce
  import E = ElevationModel
  import L = LockModel
  import I = IdleModel
  import S = SessionModel
  import T = SeatModel
  import Registry

  // ---- what the IPC layer promises -----------------------------------------------------------

  /** The connections open after these messages. */
  function Open(inputs: seq<Input>): set<ConnId> {
    if inputs == [] then {}
    else
      var before := Open(inputs[..|inputs| - 1]);
      match inputs[|inputs| - 1]
      case Connected(conn) => before + {conn}
      case Disconnected(conn, _) => before - {conn}
      case _ => before
  }

  /** A connection announces itself, then sends commands, then disconnects. */
  predicate InTurn(inputs: seq<Input>, k: nat)
    requires k < |inputs|
  {
    match inputs[k]
    case Disconnected(conn, _) => conn in Open(inputs[..k])
    case Command(conn, _, _, _) => conn in Open(inputs[..k])
    case _ => true
  }

  predicate WellOrdered(inputs: seq<Input>) {
    forall k :: 0 <= k < |inputs| ==> InTurn(inputs, k)
  }

  // ---- the invariant ----------------------------------------------------------------------------

  ghost predicate CompositorsIn(r: S.Sessions, open: set<ConnId>) {
    forall s :: s in r.live && r.live[s].compositor.Some? ==> r.live[s].compositor.value in open
  }

  ghost predicate PromptsIn(e: E.Elevation, open: set<ConnId>) {
    forall id :: id in e.pending ==> e.pending[id].compositor in open && e.pending[id].requester in open
  }

  ghost predicate NoDangling(d: State, open: set<ConnId>) {
    && CompositorsIn(d.sessions, open)
    && PromptsIn(d.elevation, open)
    && d.registry <= open
  }

  // ---- compositors -------------------------------------------------------------------------------

  lemma LockCompositors(d: State, s: SessionId, reason: LockReason, open: set<ConnId>)
    requires CompositorsIn(d.sessions, open)
    ensures CompositorsIn(LockAndShow(d, s, reason).sessions, open)
    ensures LockAndShow(d, s, reason).registry == d.registry
  {
  }

  lemma {:induction false} ChangesCompositors(d: State, changes: seq<I.Change>, w: World, open: set<ConnId>)
    requires CompositorsIn(d.sessions, open)
    ensures CompositorsIn(ApplyChanges(d, changes, w).sessions, open)
    ensures ApplyChanges(d, changes, w).registry == d.registry
    decreases |changes|
  {
    if changes != [] {
      var next := ApplyChange(d, changes[0], w);
      var active := ActiveOn(d.seats, changes[0].seat);
      if active.Some? { LockCompositors(d, active.value, Idling, open); }
      ChangesCompositors(next, changes[1..], w, open);
    }
  }

  lemma DispatchCompositors(d: State, conn: ConnId, request: Request, w: World, open: set<ConnId>)
    requires CompositorsIn(d.sessions, open) && conn in open
    requires !request.TerminateSession? && !request.CreateSession?
    ensures CompositorsIn(Dispatch(d, conn, request, w).0.sessions, open)
    ensures Dispatch(d, conn, request, w).0.registry == d.registry
  {
    hide L.Apply; hide E.Apply; hide I.Apply; hide StartElevation; hide OnRespondElevation; hide OnUnlock;
    hide LockAndShow;
    hide OnRegisterCompositor; hide OnSwitchSession;
    match request
    case RequestElevation(s, action) => StartSameRegistry(d, conn, s, action, w);
    case RespondElevation(id, answer) => RespondSameRegistry(d, id, answer, w);
    case LockSession(s) => LockCompositors(d, s, Manual, open);
    case Unlock(_, _) => RecordCompositors(d, conn, request, w, open);
    case RegisterCompositor(_) => RecordCompositors(d, conn, request, w, open);
    case SwitchSession(_, _) => RecordCompositors(d, conn, request, w, open);
    case _ =>
  }

  lemma StartSameRegistry(d: State, conn: ConnId, s: SessionId, action: ElevationAction, w: World)
    ensures var d' := StartElevation(d, conn, s, action, w).0;
            d'.sessions == d.sessions && d'.registry == d.registry
  {
    hide E.Apply; hide E.BeginOutcome;
  }

  lemma RespondSameRegistry(d: State, id: RequestId, answer: Answer, w: World)
    ensures var d' := OnRespondElevation(d, id, answer, w).0;
            d'.sessions == d.sessions && d'.registry == d.registry
  {
    hide E.Apply; hide E.AttemptOutcome;
  }

  lemma RecordCompositors(d: State, conn: ConnId, request: Request, w: World, open: set<ConnId>)
    requires CompositorsIn(d.sessions, open) && conn in open
    requires request.Unlock? || request.RegisterCompositor? || request.SwitchSession?
    ensures CompositorsIn(Dispatch(d, conn, request, w).0.sessions, open)
    ensures Dispatch(d, conn, request, w).0.registry == d.registry
  {
    hide L.Apply; hide L.UnlockOutcome; hide L.IsLocked; hide T.Switch; hide T.SwitchOutcome; hide L.LockOf;
    hide S.Moved;
  }

  // ---- prompts --------------------------------------------------------------------------------------

  lemma StartPrompts(d: State, conn: ConnId, s: SessionId, action: ElevationAction, w: World, open: set<ConnId>)
    requires PromptsIn(d.elevation, open) && CompositorsIn(d.sessions, open) && conn in open
    ensures PromptsIn(StartElevation(d, conn, s, action, w).0.elevation, open)
  {
  }

  lemma RespondPrompts(d: State, id: RequestId, answer: Answer, w: World, open: set<ConnId>)
    requires PromptsIn(d.elevation, open)
    ensures PromptsIn(OnRespondElevation(d, id, answer, w).0.elevation, open)
  {
    hide Verdict;
  }

  lemma DispatchPrompts(d: State, conn: ConnId, request: Request, w: World, open: set<ConnId>)
    requires PromptsIn(d.elevation, open) && CompositorsIn(d.sessions, open) && conn in open
    requires !request.TerminateSession?
    ensures PromptsIn(Dispatch(d, conn, request, w).0.elevation, open)
  {
    hide PromptsIn; hide CompositorsIn; hide StartElevation; hide OnRespondElevation;
    match request
    case RequestElevation(s, action) => StartPrompts(d, conn, s, action, w, open);
    case RespondElevation(id, answer) => RespondPrompts(d, id, answer, w, open);
    case _ =>
      EO.CalmDispatch(d, conn, request, w);
      hide Dispatch;
  }

  // ---- every step --------------------------------------------------------------------------------------

  lemma CommandDangles(d: State, conn: ConnId, request: Request, w: World, open: set<ConnId>)
    requires NoDangling(d, open) && conn in open
    ensures NoDangling(Dispatch(d, conn, request, w).0, open)
  {
    hide PromptsIn; hide CompositorsIn; hide Dispatch; hide Abandon; hide OnCreateSession;
    if request.TerminateSession? {
      TerminateDangles(d, conn, request.session, w, open);
    } else {
      DispatchPrompts(d, conn, request, w, open);
      if request.CreateSession? {
        CreateCompositors(d, conn, request, w, open);
      } else {
        DispatchCompositors(d, conn, request, w, open);
      }
    }
  }

  lemma CreateCompositors(d: State, conn: ConnId, request: Request, w: World, open: set<ConnId>)
    requires CompositorsIn(d.sessions, open) && request.CreateSession?
    ensures CompositorsIn(Dispatch(d, conn, request, w).0.sessions, open)
    ensures Dispatch(d, conn, request, w).0.registry == d.registry
  {
    Registry.CreateEffect(d, request.seatId, request.sessionType, w);
  }

  lemma TerminateDangles(d: State, conn: ConnId, s: SessionId, w: World, open: set<ConnId>)
    requires NoDangling(d, open)
    ensures NoDangling(Dispatch(d, conn, TerminateSession(s), w).0, open)
  {
    hide Abandon;
    if s in d.sessions.live {
      var ended := d.(sessions := S.Remove(d.sessions, {s}), seats := T.Detach(d.seats, s));
      GrewAbandon(ended, E.CAbandonSession(s), E.OpenFor(d.elevation, s), SessionEnded, w.promptOrder);
    }
  }

  lemma TickDangles(d: State, w: World, open: set<ConnId>)
    requires NoDangling(d, open)
    ensures NoDangling(HandleTick(d, w), open)
  {
    hide Abandon; hide ApplyChanges; hide CompositorsIn;
    var a := CallIdle(d, I.CTick(w.now, d.settings.idle));
    var changes := Listing(w.changeOrder, I.Changes(d.idle, w.now, d.settings.idle));
    var b := ApplyChanges(a, changes, w);
    ChangesCompositors(a, changes, w, open);
    EO.CalmChanges(a, changes, w);
    var c := CallElevation(CallLocks(b, L.CSweep(w.now)), E.CClearLockouts(w.now));
    GrewAbandon(c, E.CExpire(w.now), E.Overdue(c.elevation, w.now), TimedOut, w.promptOrder);
  }

  lemma DanglesStep(d: State, input: Input, open: set<ConnId>)
    requires NoDangling(d, open)
    requires input.Command? || input.Disconnected? ==> input.conn in open
    ensures NoDangling(Step(d, input), match input
      case Connected(conn) => open + {conn}
      case Disconnected(conn, _) => open - {conn}
      case _ => open)
  {
    hide Abandon; hide Dispatch; hide HandleTick;
    match input
    case Disconnected(conn, w) =>
      var gone := d.(registry := d.registry - {conn}, sessions := S.DropConnection(d.sessions, conn));
      GrewAbandon(gone, E.CAbandonConnection(conn), E.Touching(d.elevation, conn), ConnectionDropped, w.promptOrder);
    case Command(conn, uid, request, w) => CommandDangles(d, conn, request, w, open);
    case Tick(w) => TickDangles(d, w, open);
    case _ =>
  }

  /** In every run in which connections announce themselves before they speak and
      fall silent once they disconnect, every registered compositor, both
      connections of every open prompt and every outbox belong to a connection that
      is still open. */
  lemma {:induction false} NeverDangling(settings: Settings, service: Option<Uid>, inputs: seq<Input>)
    requires WellOrdered(inputs)
    ensures NoDangling(Run(Boot(settings, service), inputs), Open(inputs))
  {
    if inputs != [] {
      hide Step; hide NoDangling;
      var n := |inputs| - 1;
      assert WellOrdered(inputs[..n]) by {
        forall k | 0 <= k < n ensures InTurn(inputs[..n], k) {
          assert InTurn(inputs, k);
          assert inputs[..n][..k] == inputs[..k];
        }
      }
      NeverDangling(settings, service, inputs[..n]);
      assert InTurn(inputs, n);
      DanglesStep(Run(Boot(settings, service), inputs[..n]), inputs[n], Open(inputs[..n]));
    } else {
      assert NoDangling(Boot(settings, service), {});
    }
  }

  // ---- what a stranger can learn ------------------------------------------------------------------------

  /** Answering a prompt from anywhere but its own compositor, without being root,
      looks the same whether the prompt exists or not: nothing changes but one
      reply, and the reply does not depend on the state. */
  lemma StrangersLearnNothing(d: State, conn: ConnId, uid: Uid, id: RequestId, answer: Answer, w: World)
    requires uid != 0
    requires id in d.elevation.pending ==> d.elevation.pending[id].compositor != conn
    ensures Step(d, Command(conn, uid, Request.RespondElevation(id, answer), w))
         == Reply(d, conn, Failed(UnknownElevationRequest(id)), Current)
  {
  }
}
