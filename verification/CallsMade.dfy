/** Which calls each step makes on the lock and elevation managers, told from its input:
    this is what ties the managers' histories, clock readings included, to the run. */
module CallsMade {
  import opened Common
  import opened Authentication
  import opened Messages
  import opened DaemonModel
  import opened Histories
  import opened Authority
  import opened Observables
  import opened ObservableSteps
  import EO = ExactlyOnce
  import E = ElevationModel
  import L = LockModel
  import I = IdleModel
  import S = SessionModel
  import T = SeatModel

  // ---- the elevation manager -----------------------------------------------------------------

  ghost function ElevationMade(d: State, input: Input): seq<E.Call> {
    match input
    case Tick(w) => [E.CClearLockouts(w.now), E.CExpire(w.now)]
    case Disconnected(conn, _) => [E.CAbandonConnection(conn)]
    case Command(conn, uid, request, w) =>
      if Entitled(d, conn, uid, request, w.account) then ElevationAsked(d, conn, request, w) else []
    case _ => []
  }

  function ElevationAsked(d: State, conn: ConnId, request: Request, w: World): seq<E.Call> {
    match request
    case RequestElevation(s, action) =>
      if !Promptable(d, s, action, w) then []
      else
        [E.CBegin(s, d.sessions.live[s].compositor.value, conn, d.settings.elevation, d.settings.elevationAuth, w.now)]
    case RespondElevation(id, answer) =>
      if id !in d.elevation.pending then []
      else if answer.Decline? then [E.CCancel(id)]
      else if d.elevation.pending[id].session !in d.sessions.live then []
      else [E.CAttempt(id, w.accepts, d.settings.elevationAuth, w.now)]
    case TerminateSession(s) => if s in d.sessions.live then [E.CAbandonSession(s)] else []
    case _ => []
  }

  lemma {:induction false} ChangesMake(d: State, changes: seq<I.Change>, w: World)
    ensures ApplyChanges(d, changes, w).elevationCalls == d.elevationCalls
    decreases |changes|
  {
    hide L.Apply; hide L.Blocks; hide L.Delays; hide S.Compositors; hide S.Transition;
    if changes != [] { ChangesMake(ApplyChange(d, changes[0], w), changes[1..], w); }
  }

  lemma AbandonMakes(d: State, call: E.Call, ids: set<RequestId>, reason: Reason, order: seq<RequestId>)
    requires ids <= d.elevation.pending.Keys
    ensures Abandon(d, call, ids, reason, order).elevationCalls == d.elevationCalls + [call]
    ensures Abandon(d, call, ids, reason, order).lockCalls == d.lockCalls
  {
    hide NotifyAbandoned; hide Listed;
    AsideNotify(CallElevation(d, call), Listed(d.elevation, ids, order), reason);
  }

  lemma StartMakes(d: State, conn: ConnId, s: SessionId, action: ElevationAction, w: World)
    ensures var d' := StartElevation(d, conn, s, action, w).0;
            && d'.elevationCalls == d.elevationCalls + ElevationAsked(d, conn, RequestElevation(s, action), w)
            && d'.lockCalls == d.lockCalls
  {
    hide E.Apply; hide E.BeginOutcome;
  }

  lemma RespondMakes(d: State, conn: ConnId, id: RequestId, answer: Answer, w: World)
    ensures var d' := OnRespondElevation(d, id, answer, w).0;
            && d'.elevationCalls == d.elevationCalls + ElevationAsked(d, conn, Request.RespondElevation(id, answer), w)
            && d'.lockCalls == d.lockCalls
  {
    hide E.Apply; hide E.AttemptOutcome;
  }

  lemma TerminateMakes(d: State, conn: ConnId, s: SessionId, w: World)
    ensures var d' := OnTerminateSession(d, s, w).0;
            && d'.elevationCalls == d.elevationCalls + ElevationAsked(d, conn, TerminateSession(s), w)
            && d'.lockCalls == d.lockCalls
  {
    hide Abandon;
    if s in d.sessions.live {
      var ended := d.(sessions := S.Remove(d.sessions, {s}), seats := T.Detach(d.seats, s));
      AbandonMakes(ended, E.CAbandonSession(s), E.OpenFor(d.elevation, s), SessionEnded, w.promptOrder);
    }
  }

  // ---- the lock manager ------------------------------------------------------------------------

  function LocksAsked(d: State, request: Request, w: World): seq<L.Call> {
    match request
    case LockSession(s) => if HasPassword(d, s, w) then [L.CLock({s}, d.settings.lock)] else []
    case Unlock(s, _) => [L.CUnlock(s, w.accepts, d.settings.unlockAuth, w.now)]
    case Inhibit(i) => [L.CInhibit(i)]
    case ReleaseInhibit(id) => [L.CRelease(id)]
    case Suspend =>
      if L.Blocks(d.locks, L.InhibitSuspend) || !d.settings.lock.lockOnSuspend then []
      else [L.CLock(d.sessions.live.Keys, d.settings.lock)]
    case _ => []
  }

  lemma LockMakes(d: State, s: SessionId, w: World)
    ensures var d' := OnLockSession(d, s, w).0;
            && d'.lockCalls == d.lockCalls + LocksAsked(d, LockSession(s), w)
            && d'.elevationCalls == d.elevationCalls
  {
    hide L.Apply; hide L.Blocks; hide S.Transition;
  }

  lemma UnlockMakes(d: State, s: SessionId, name: string, w: World)
    ensures var d' := OnUnlock(d, s, name, w).0;
            && d'.lockCalls == d.lockCalls + LocksAsked(d, Unlock(s, name), w)
            && d'.elevationCalls == d.elevationCalls
  {
    hide L.Apply; hide L.UnlockOutcome; hide L.LockOf; hide S.Transition;
  }

  lemma SuspendMakes(d: State, w: World)
    ensures var d' := OnSuspend(d, w).0;
            && d'.lockCalls == d.lockCalls + LocksAsked(d, Suspend, w)
            && d'.elevationCalls == d.elevationCalls
  {
    hide L.Apply; hide L.Blocks; hide L.Delays; hide S.Compositors;
  }

  lemma DispatchMakes(d: State, conn: ConnId, request: Request, w: World)
    ensures var d' := Dispatch(d, conn, request, w).0;
            && d'.elevationCalls == d.elevationCalls + ElevationAsked(d, conn, request, w)
            && d'.lockCalls == d.lockCalls + LocksAsked(d, request, w)
  {
    hide OnCreateSession; hide OnTerminateSession; hide OnRegisterCompositor; hide OnLockSession; hide OnUnlock;
    hide OnSwitchSession; hide OnSuspend; hide OnPowerDown; hide OnRespondElevation; hide StartElevation;
    hide L.Apply; hide I.Apply; hide L.Blocks; hide Promptable; hide HasPassword;
    match request
    case RequestElevation(s, action) => StartMakes(d, conn, s, action, w);
    case RespondElevation(id, answer) => RespondMakes(d, conn, id, answer, w);
    case TerminateSession(s) => TerminateMakes(d, conn, s, w);
    case LockSession(s) => LockMakes(d, s, w);
    case Unlock(s, name) => UnlockMakes(d, s, name, w);
    case Suspend => SuspendMakes(d, w);
    case Inhibit(_) =>
    case ReleaseInhibit(_) =>
    case ReportActivity(_) =>
    case _ =>
      AsideDispatch(d, conn, request, w);
      hide Dispatch;
  }

  // ---- every step --------------------------------------------------------------------------------

  /** Every step makes exactly these calls on the elevation manager, each with the
      settings in force and the clock reading of the step. */
  lemma ElevationCallsExactly(d: State, input: Input)
    ensures Step(d, input).elevationCalls == d.elevationCalls + ElevationMade(d, input)
  {
    hide Abandon; hide ApplyChanges; hide Dispatch; hide Entitled; hide ElevationAsked; hide Authorize;
    match input
    case Disconnected(conn, w) =>
      var gone := d.(registry := d.registry - {conn}, sessions := S.DropConnection(d.sessions, conn));
      AbandonMakes(gone, E.CAbandonConnection(conn), E.Touching(d.elevation, conn), ConnectionDropped, w.promptOrder);
    case Command(conn, uid, request, w) =>
      PolicyExactly(d, conn, uid, request, w.account);
      DispatchMakes(d, conn, request, w);
    case Tick(w) =>
      var a := CallIdle(d, I.CTick(w.now, d.settings.idle));
      var changes := Listing(w.changeOrder, I.Changes(d.idle, w.now, d.settings.idle));
      ChangesMake(a, changes, w);
      var b := CallElevation(CallLocks(ApplyChanges(a, changes, w), L.CSweep(w.now)), E.CClearLockouts(w.now));
      AbandonMakes(b, E.CExpire(w.now), E.Overdue(b.elevation, w.now), TimedOut, w.promptOrder);
    case _ =>
  }

  /** From `calls`, one call or more were made, all of them locks under these settings. */
  ghost predicate OnlyLocks(calls: seq<L.Call>, calls': seq<L.Call>, policy: L.LockPolicy) {
    calls <= calls' && forall k :: |calls| <= k < |calls'| ==> calls'[k].CLock? && calls'[k].policy == policy
  }

  lemma {:induction false} ChangesOnlyLock(d: State, changes: seq<I.Change>, w: World)
    ensures OnlyLocks(d.lockCalls, ApplyChanges(d, changes, w).lockCalls, d.settings.lock)
    ensures ApplyChanges(d, changes, w).settings == d.settings
    decreases |changes|
  {
    hide L.Apply; hide L.Blocks; hide L.Delays; hide S.Compositors; hide S.Transition;
    if changes != [] { ChangesOnlyLock(ApplyChange(d, changes[0], w), changes[1..], w); }
  }

  /** Every command makes exactly these calls on the lock manager, each with the settings
      in force and the clock reading of the step; a tick locks, as said elsewhere, and
      then sweeps once, at its own clock reading; nothing else calls it. */
  lemma LockCallsExactly(d: State, input: Input)
    ensures var d' := Step(d, input);
            match input
            case Command(conn, uid, request, w) =>
              d'.lockCalls
                == d.lockCalls + (if Entitled(d, conn, uid, request, w.account) then LocksAsked(d, request, w) else [])
            case Tick(w) =>
              && d'.lockCalls != [] && d'.lockCalls[|d'.lockCalls| - 1] == L.CSweep(w.now)
              && |d'.lockCalls| > |d.lockCalls|
              && OnlyLocks(d.lockCalls, d'.lockCalls[..|d'.lockCalls| - 1], d.settings.lock)
            case _ => d'.lockCalls == d.lockCalls
  {
    hide Abandon; hide ApplyChanges; hide Dispatch; hide Entitled; hide LocksAsked; hide Authorize;
    match input
    case Disconnected(conn, w) =>
      var gone := d.(registry := d.registry - {conn}, sessions := S.DropConnection(d.sessions, conn));
      AbandonMakes(gone, E.CAbandonConnection(conn), E.Touching(d.elevation, conn), ConnectionDropped, w.promptOrder);
    case Command(conn, uid, request, w) =>
      PolicyExactly(d, conn, uid, request, w.account);
      DispatchMakes(d, conn, request, w);
    case Tick(w) => TickSweeps(d, w);
    case _ =>
  }

  lemma TickSweeps(d: State, w: World)
    ensures var calls := HandleTick(d, w).lockCalls;
            && |calls| > |d.lockCalls| && calls[|calls| - 1] == L.CSweep(w.now)
            && OnlyLocks(d.lockCalls, calls[..|calls| - 1], d.settings.lock)
  {
    hide Abandon; hide ApplyChanges;
    var a := CallIdle(d, I.CTick(w.now, d.settings.idle));
    var changes := Listing(w.changeOrder, I.Changes(d.idle, w.now, d.settings.idle));
    var b := ApplyChanges(a, changes, w);
    ChangesOnlyLock(a, changes, w);
    var c := CallElevation(CallLocks(b, L.CSweep(w.now)), E.CClearLockouts(w.now));
    AbandonMakes(c, E.CExpire(w.now), E.Overdue(c.elevation, w.now), TimedOut, w.promptOrder);
    assert HandleTick(d, w).lockCalls[..|b.lockCalls|] == b.lockCalls;
  }
}
