/** In every run, the lock, elevation and idle managers are where the calls the
    daemon made on them put them, and those calls ran under its settings. This is
    what carries the managers' theorems over to the daemon. */
module Histories {
  import opened Common
  import opened Authentication
  import opened Messages
  import opened DaemonModel
  import E = ElevationModel
  import EG = ElevationGuessing
  import L = LockModel
  import LT = LockTheorems
  import I = IdleModel
  import S = SessionModel
  import T = SeatModel

  /** The wrong passwords checked for session `s`, in elevation prompts or at the
      lock screen. */
  function Wrong(log: seq<Entry>, s: SessionId, elevating: bool): nat {
    if log == [] then 0
    else
      var n := |log| - 1;
      Wrong(log[..n], s, elevating) + if IsWrong(log[n], s, elevating) then 1 else 0
  }

  predicate IsWrong(entry: Entry, s: SessionId, elevating: bool) {
    entry.Checked? && entry.session == s && !entry.accepted && (entry.prompt.Some? <==> elevating)
  }

  lemma WrongSnoc(log: seq<Entry>, entry: Entry, s: SessionId, elevating: bool)
    ensures Wrong(log + [entry], s, elevating)
         == Wrong(log, s, elevating) + if IsWrong(entry, s, elevating) then 1 else 0
  {
    assert (log + [entry])[..|log|] == log;
  }

  lemma {:induction false} WrongSame(log: seq<Entry>, longer: seq<Entry>, s: SessionId, elevating: bool)
    requires log <= longer && forall k :: |log| <= k < |longer| ==> !longer[k].Checked?
    ensures Wrong(longer, s, elevating) == Wrong(log, s, elevating)
    decreases |longer|
  {
    if |longer| == |log| {
      assert longer == log;
    } else {
      WrongSame(log, longer[..|longer| - 1], s, elevating);
    }
  }

  /** The wrong passwords on record are those of the managers' calls. */
  ghost predicate Tallied(d: State, s: SessionId) {
    && Wrong(d.log, s, true) == EG.Failed(E.EMPTY, d.elevationCalls, s)
    && Wrong(d.log, s, false) == LT.Count(L.NOTHING_LOCKED, d.lockCalls, s).failed
  }

  /** The managers replay their call histories. */
  ghost predicate Replayed(d: State) {
    && (forall s :: Tallied(d, s))
    && d.locks == L.After(L.NOTHING_LOCKED, d.lockCalls)
    && d.elevation == E.After(E.EMPTY, d.elevationCalls)
    && d.idle == I.After(I.NO_ACTIVITY, d.idleCalls)
  }

  ghost predicate ElevationUnder(call: E.Call, settings: Settings) {
    && (call.CBegin? ==> call.policy == settings.elevation && call.auth == settings.elevationAuth)
    && (call.CAttempt? ==> call.auth == settings.elevationAuth)
  }

  ghost predicate LockUnder(call: L.Call, settings: Settings) {
    && (call.CLock? ==> call.policy == settings.lock)
    && (call.CUnlock? ==> call.auth == settings.unlockAuth)
  }

  /** If this is a credential check, it ran under this PAM service. */
  predicate CheckedBy(entry: Entry, pamService: string) {
    entry.Checked? ==> entry.pamService == pamService
  }

  /** From `d` the daemon got to `d'` without a reload: the record only grew, and
      every new call ran under the settings in force. */
  ghost predicate Grew(d: State, d': State) {
    && d'.settings == d.settings && d'.service == d.service && d'.authenticator == d.authenticator
    && d.log <= d'.log
    && (forall k :: |d.log| <= k < |d'.log| ==> CheckedBy(d'.log[k], d.authenticator))
    && d.lockCalls <= d'.lockCalls
    && (forall k :: |d.lockCalls| <= k < |d'.lockCalls| ==> LockUnder(d'.lockCalls[k], d.settings))
    && d.elevationCalls <= d'.elevationCalls
    && (forall k :: |d.elevationCalls| <= k < |d'.elevationCalls| ==> ElevationUnder(d'.elevationCalls[k], d.settings))
    && d.idleCalls <= d'.idleCalls
    && (forall k :: |d.idleCalls| <= k < |d'.idleCalls| ==> d'.idleCalls[k].CTick? ==>
        d'.idleCalls[k].policy == d.settings.idle)
    && (Replayed(d) ==> Replayed(d'))
  }

  lemma GrewTwice(a: State, b: State, c: State)
    requires Grew(a, b) && Grew(b, c)
    ensures Grew(a, c)
  {
    hide Replayed; hide LockUnder; hide ElevationUnder;
  }

  lemma FailedSnoc(calls: seq<E.Call>, call: E.Call, s: SessionId)
    ensures EG.Failed(E.EMPTY, calls + [call], s)
         == EG.Failed(E.EMPTY, calls, s) + if EG.FailsOn(E.After(E.EMPTY, calls), call, s) then 1 else 0
  {
    assert (calls + [call])[..|calls|] == calls;
  }

  lemma GuessSnoc(calls: seq<L.Call>, call: L.Call, s: SessionId)
    ensures LT.Count(L.NOTHING_LOCKED, calls + [call], s).failed
         == LT.Count(L.NOTHING_LOCKED, calls, s).failed +
             if LT.FailsOn(L.After(L.NOTHING_LOCKED, calls), call, s) then 1 else 0
  {
    assert (calls + [call])[..|calls|] == calls;
  }

  lemma GrewLocks(d: State, call: L.Call)
    requires LockUnder(call, d.settings) && !call.CUnlock?
    ensures Grew(d, CallLocks(d, call))
  {
    L.AfterSnoc(L.NOTHING_LOCKED, d.lockCalls, call);
    forall s | Tallied(d, s) ensures Tallied(CallLocks(d, call), s) { GuessSnoc(d.lockCalls, call, s); }
  }

  lemma GuessTallied(d: State, s: SessionId, userName: string, call: L.Call, t: SessionId)
    requires Tallied(d, t) && d.locks == L.After(L.NOTHING_LOCKED, d.lockCalls)
    requires call.CUnlock? && call.session == s
    ensures Tallied(CallLocks(Guess(d, s, userName, call.accepted), call), t)
  {
    hide L.Apply; hide L.After; hide EG.Failed; hide LT.Count; hide Wrong;
    var entry := Checked(s, userName, call.accepted, None, d.authenticator);
    GuessSnoc(d.lockCalls, call, t);
    WrongSnoc(d.log, entry, t, true);
    WrongSnoc(d.log, entry, t, false);
  }

  /** A password tried at the lock screen, and the check that goes with it. */
  lemma GrewGuess(d: State, s: SessionId, userName: string, accepted: bool, now: Instant)
    ensures var call := L.CUnlock(s, accepted, d.settings.unlockAuth, now);
            Grew(d, CallLocks(Guess(d, s, userName, accepted), call))
  {
    hide L.Apply; hide L.After; hide E.After; hide I.After; hide Tallied; hide L.LockOf;
    var call := L.CUnlock(s, accepted, d.settings.unlockAuth, now);
    L.AfterSnoc(L.NOTHING_LOCKED, d.lockCalls, call);
    if Replayed(d) {
      forall t ensures Tallied(CallLocks(Guess(d, s, userName, accepted), call), t) {
        assert Tallied(d, t);
        GuessTallied(d, s, userName, call, t);
      }
    }
  }

  lemma AnswerTallied(d: State, entry: Entry, call: E.Call, t: SessionId)
    requires Tallied(d, t) && d.elevation == E.After(E.EMPTY, d.elevationCalls)
    requires call.CAttempt? && call.id in d.elevation.pending && entry.Checked?
    requires entry.session == d.elevation.pending[call.id].session
    requires entry.accepted == call.accepted && entry.prompt.Some?
    ensures Tallied(CallElevation(Log(d, entry), call), t)
  {
    hide E.Apply; hide E.After; hide EG.Failed; hide LT.Count; hide Wrong;
    FailedSnoc(d.elevationCalls, call, t);
    WrongSnoc(d.log, entry, t, true);
    WrongSnoc(d.log, entry, t, false);
  }

  /** A password tried on an open prompt, and the check that goes with it. */
  lemma GrewAnswer(d: State, id: RequestId, userName: string, accepted: bool, now: Instant)
    requires id in d.elevation.pending
    ensures var entry := Checked(d.elevation.pending[id].session, userName, accepted, Some(id), d.authenticator);
            var checked := Log(d, entry);
            Grew(d, CallElevation(checked, E.CAttempt(id, accepted, d.settings.elevationAuth, now)))
  {
    hide E.Apply; hide E.After; hide L.After; hide I.After; hide Tallied;
    var entry := Checked(d.elevation.pending[id].session, userName, accepted, Some(id), d.authenticator);
    var call := E.CAttempt(id, accepted, d.settings.elevationAuth, now);
    E.AfterSnoc(E.EMPTY, d.elevationCalls, call);
    if Replayed(d) {
      forall t ensures Tallied(CallElevation(Log(d, entry), call), t) {
        assert Tallied(d, t);
        AnswerTallied(d, entry, call, t);
      }
    }
  }

  lemma GrewElevation(d: State, call: E.Call)
    requires ElevationUnder(call, d.settings) && !call.CAttempt?
    ensures Grew(d, CallElevation(d, call))
  {
    hide E.Apply; hide L.Apply;
    E.AfterSnoc(E.EMPTY, d.elevationCalls, call);
    forall s | Tallied(d, s) ensures Tallied(CallElevation(d, call), s) { FailedSnoc(d.elevationCalls, call, s); }
  }

  lemma GrewIdle(d: State, call: I.Call)
    requires call.CTick? ==> call.policy == d.settings.idle
    ensures Grew(d, CallIdle(d, call))
  {
    I.AfterSnoc(I.NO_ACTIVITY, d.idleCalls, call);
    forall s | Tallied(d, s) ensures Tallied(CallIdle(d, call), s) {}
  }

  /** A change that touches neither the managers nor their histories. */
  ghost predicate Aside(d: State, d': State) {
    && d'.settings == d.settings && d'.service == d.service && d'.authenticator == d.authenticator
    && d'.locks == d.locks && d'.elevation == d.elevation && d'.idle == d.idle
    && d'.lockCalls == d.lockCalls && d'.elevationCalls == d.elevationCalls && d'.idleCalls == d.idleCalls
    && d.log <= d'.log
    && (forall k :: |d.log| <= k < |d'.log| ==> !d'.log[k].Checked?)
  }

  lemma GrewNot(a: State, b: State)
    requires Aside(a, b)
    ensures Grew(a, b)
  {
    forall s | Tallied(a, s) ensures Tallied(b, s) {
      WrongSame(a.log, b.log, s, true);
      WrongSame(a.log, b.log, s, false);
    }
  }

  lemma GrewStay(d: State)
    ensures Grew(d, d)
  {
    GrewNot(d, d);
  }

  lemma GrewAside(a: State, b: State, c: State)
    requires Grew(a, b) && Aside(b, c)
    ensures Grew(a, c)
  {
    hide Grew; hide Aside;
    GrewNot(b, c);
    GrewTwice(a, b, c);
  }

  // ---- every handler -----------------------------------------------------------------

  lemma {:induction false} AsideNotify(d: State, abandoned: seq<E.Abandoned>, reason: Reason)
    ensures Aside(d, NotifyAbandoned(d, abandoned, reason))
    ensures NotifyAbandoned(d, abandoned, reason).sessions == d.sessions
    ensures NotifyAbandoned(d, abandoned, reason).seats == d.seats
    ensures NotifyAbandoned(d, abandoned, reason).registry == d.registry
    decreases |abandoned|
  {
    if abandoned != [] {
      var a := abandoned[0];
      var told := Reply(Push(d, a.prompt.compositor, HideElevationPrompt(a.id)),
                        a.prompt.requester, AuthResult(AuthOutcome.Error(reason)), Postponed(a.id));
      AsideNotify(told, abandoned[1..], reason);
    }
  }

  lemma GrewAbandon(d: State, call: E.Call, ids: set<RequestId>, reason: Reason, order: seq<RequestId>)
    requires ids <= d.elevation.pending.Keys && ElevationUnder(call, d.settings) && !call.CAttempt?
    ensures Grew(d, Abandon(d, call, ids, reason, order))
    ensures Abandon(d, call, ids, reason, order).elevation == E.Apply(d.elevation, call)
    ensures Abandon(d, call, ids, reason, order).locks == d.locks
    ensures Abandon(d, call, ids, reason, order).sessions == d.sessions
    ensures Abandon(d, call, ids, reason, order).seats == d.seats
    ensures Abandon(d, call, ids, reason, order).registry == d.registry
  {
    hide Grew; hide Listed; hide NotifyAbandoned;
    GrewElevation(d, call);
    AsideNotify(CallElevation(d, call), Listed(d.elevation, ids, order), reason);
    GrewAside(d, CallElevation(d, call), Abandon(d, call, ids, reason, order));
  }

  lemma GrewLock(d: State, s: SessionId, reason: LockReason)
    ensures Grew(d, LockAndShow(d, s, reason))
  {
    hide Grew;
    GrewLocks(d, L.CLock({s}, d.settings.lock));
    GrewAside(d, CallLocks(d, L.CLock({s}, d.settings.lock)), LockAndShow(d, s, reason));
  }

  lemma GrewSuspend(d: State, w: World)
    ensures Grew(d, OnSuspend(d, w).0)
  {
    hide Grew; hide L.Apply; hide L.Blocks; hide L.Delays; hide S.Compositors;
    var call := L.CLock(d.sessions.live.Keys, d.settings.lock);
    GrewLocks(d, call);
    if L.Blocks(d.locks, L.InhibitSuspend) || !d.settings.lock.lockOnSuspend {
      GrewNot(d, OnSuspend(d, w).0);
    } else {
      GrewAside(d, CallLocks(d, call), OnSuspend(d, w).0);
    }
  }

  lemma GrewUnlock(d: State, s: SessionId, userName: string, w: World)
    ensures Grew(d, OnUnlock(d, s, userName, w).0)
  {
    hide Grew; hide L.Apply; hide L.UnlockOutcome; hide L.LockOf; hide S.Transition;
    var checked := Guess(d, s, userName, w.accepts);
    var call := L.CUnlock(s, w.accepts, d.settings.unlockAuth, w.now);
    GrewGuess(d, s, userName, w.accepts, w.now);
    GrewAside(d, CallLocks(checked, call), OnUnlock(d, s, userName, w).0);
  }

  lemma {:induction false} GrewChanges(d: State, changes: seq<I.Change>, w: World)
    ensures Grew(d, ApplyChanges(d, changes, w))
    decreases |changes|
  {
    hide Grew;
    if changes == [] {
      GrewNot(d, d);
    } else {
      var next := ApplyChange(d, changes[0], w);
      GrewChange(d, changes[0], w);
      GrewChanges(next, changes[1..], w);
      GrewTwice(d, next, ApplyChanges(d, changes, w));
    }
  }

  lemma GrewChange(d: State, change: I.Change, w: World)
    ensures Grew(d, ApplyChange(d, change, w))
  {
    hide Grew;
    GrewNot(d, d);
    match change.stage
    case StageActive =>
    case Dimmed => GrewNot(d, ApplyChange(d, change, w));
    case LockRequested =>
      var active := ActiveOn(d.seats, change.seat);
      if active.Some? { GrewLock(d, active.value, Idling); }
    case SuspendRequested => GrewSuspend(d, w);
  }

  lemma GrewRespond(d: State, id: RequestId, answer: Answer, w: World)
    ensures Grew(d, OnRespondElevation(d, id, answer, w).0)
  {
    hide Grew; hide E.Apply; hide E.AttemptOutcome;
    GrewNot(d, d);
    if id in d.elevation.pending {
      var s := d.elevation.pending[id].session;
      match answer
      case Decline =>
        GrewElevation(d, E.CCancel(id));
        GrewAside(d, CallElevation(d, E.CCancel(id)), OnRespondElevation(d, id, answer, w).0);
      case Password =>
        if s in d.sessions.live {
          var checked := Log(d, Checked(s, d.sessions.live[s].userName, w.accepts, Some(id), d.authenticator));
          var call := E.CAttempt(id, w.accepts, d.settings.elevationAuth, w.now);
          GrewAnswer(d, id, d.sessions.live[s].userName, w.accepts, w.now);
          GrewAside(d, CallElevation(checked, call), OnRespondElevation(d, id, answer, w).0);
        }
    }
  }

  lemma GrewStart(d: State, conn: ConnId, s: SessionId, action: ElevationAction, w: World)
    ensures Grew(d, StartElevation(d, conn, s, action, w).0)
  {
    hide Grew;
    GrewNot(d, d);
    if s in d.sessions.live && d.sessions.live[s].compositor.Some? {
      var compositor := d.sessions.live[s].compositor.value;
      var call := E.CBegin(s, compositor, conn, d.settings.elevation, d.settings.elevationAuth, w.now);
      GrewElevation(d, call);
      if StartElevation(d, conn, s, action, w).0 != d {
        GrewAside(d, CallElevation(d, call), StartElevation(d, conn, s, action, w).0);
      }
    }
  }

  lemma GrewTerminate(d: State, s: SessionId, w: World)
    ensures Grew(d, OnTerminateSession(d, s, w).0)
  {
    hide Grew; hide Abandon;
    GrewNot(d, d);
    if s in d.sessions.live {
      var ended := d.(sessions := S.Remove(d.sessions, {s}), seats := T.Detach(d.seats, s));
      GrewNot(d, ended);
      GrewAbandon(ended, E.CAbandonSession(s), E.OpenFor(d.elevation, s), SessionEnded, w.promptOrder);
      GrewTwice(d, ended, OnTerminateSession(d, s, w).0);
    }
  }

  lemma AsideCreate(d: State, seatId: Option<SeatId>, sessionType: Option<string>, w: World)
    ensures Aside(d, OnCreateSession(d, seatId, sessionType, w).0)
  {
    hide T.Attach; hide S.Create; hide KindOf; hide Info;
  }

  lemma AsideRegister(d: State, conn: ConnId, s: SessionId)
    ensures Aside(d, OnRegisterCompositor(d, conn, s).0)
  {
    hide L.IsLocked; hide S.Transition;
  }

  lemma AsideSwitch(d: State, seat: SeatId, s: SessionId)
    ensures Aside(d, OnSwitchSession(d, seat, s).0)
  {
    hide T.Switch; hide T.SwitchOutcome;
  }

  lemma AsidePowerDown(d: State, kind: PowerKind, w: World)
    ensures Aside(d, OnPowerDown(d, kind, w).0)
  {
    hide L.Blocks; hide L.Delays;
  }

  /** The commands that reach none of the three managers. */
  lemma AsideDispatch(d: State, conn: ConnId, request: Request, w: World)
    requires || request.CreateSession? || request.RegisterCompositor? || request.SwitchSession?
             || request.Reboot? || request.PowerOff?
             || request.ListSessions? || request.SessionStatus? || request.ListInhibitors?
    ensures Aside(d, Dispatch(d, conn, request, w).0)
  {
    hide OnCreateSession; hide OnRegisterCompositor; hide OnSwitchSession; hide OnPowerDown; hide Info;
    match request
    case CreateSession(_, seatId, sessionType) => AsideCreate(d, seatId, sessionType, w);
    case RegisterCompositor(s) => AsideRegister(d, conn, s);
    case SwitchSession(seat, s) => AsideSwitch(d, seat, s);
    case Reboot => AsidePowerDown(d, ToReboot, w);
    case PowerOff => AsidePowerDown(d, ToPowerOff, w);
    case _ =>
  }

  lemma GrewDispatch(d: State, conn: ConnId, request: Request, w: World)
    ensures Grew(d, Dispatch(d, conn, request, w).0)
  {
    hide Grew; hide OnTerminateSession; hide OnUnlock; hide LockAndShow; hide OnSuspend; hide OnRespondElevation;
    hide StartElevation;
    hide OnCreateSession; hide OnRegisterCompositor; hide OnSwitchSession; hide OnPowerDown; hide Aside;
    GrewStay(d);
    match request
    case TerminateSession(s) => GrewTerminate(d, s, w);
    case LockSession(s) => GrewLock(d, s, Manual);
    case Unlock(s, userName) => GrewUnlock(d, s, userName, w);
    case ReportActivity(seat) => GrewIdle(d, I.CActivity(seat, w.now));
    case Inhibit(inhibitor) => GrewLocks(d, L.CInhibit(inhibitor));
    case ReleaseInhibit(id) => GrewLocks(d, L.CRelease(id));
    case Suspend => GrewSuspend(d, w);
    case RequestElevation(s, action) => GrewStart(d, conn, s, action, w);
    case RespondElevation(id, answer) => GrewRespond(d, id, answer, w);
    case _ =>
      AsideDispatch(d, conn, request, w);
      GrewNot(d, Dispatch(d, conn, request, w).0);
  }

  lemma GrewSweep(d: State, w: World)
    ensures Grew(d, SweepTimers(d, w))
  {
    hide Grew; hide Abandon;
    var a := CallLocks(d, L.CSweep(w.now));
    var b := CallElevation(a, E.CClearLockouts(w.now));
    GrewLocks(d, L.CSweep(w.now));
    GrewElevation(a, E.CClearLockouts(w.now));
    GrewTwice(d, a, b);
    GrewAbandon(b, E.CExpire(w.now), E.Overdue(b.elevation, w.now), TimedOut, w.promptOrder);
    GrewTwice(d, b, SweepTimers(d, w));
  }

  lemma GrewTick(d: State, w: World)
    ensures Grew(d, HandleTick(d, w))
  {
    hide Grew; hide SweepTimers; hide ApplyChanges;
    var a := CallIdle(d, I.CTick(w.now, d.settings.idle));
    var changes := Listing(w.changeOrder, I.Changes(d.idle, w.now, d.settings.idle));
    var b := ApplyChanges(a, changes, w);
    GrewIdle(d, I.CTick(w.now, d.settings.idle));
    GrewChanges(a, changes, w);
    GrewTwice(d, a, b);
    GrewSweep(b, w);
    GrewTwice(d, b, SweepTimers(b, w));
  }

  lemma GrewStep(d: State, input: Input)
    requires !input.Reload?
    ensures Grew(d, Step(d, input))
  {
    hide Grew; hide Dispatch; hide HandleTick; hide Abandon;
    match input
    case Connected(_) => GrewNot(d, Step(d, input));
    case Disconnected(conn, w) =>
      var gone := d.(registry := d.registry - {conn}, sessions := S.DropConnection(d.sessions, conn));
      GrewNot(d, gone);
      GrewAbandon(gone, E.CAbandonConnection(conn), E.Touching(d.elevation, conn), ConnectionDropped, w.promptOrder);
      GrewTwice(d, gone, Step(d, input));
    case Command(conn, uid, request, w) =>
      if Authorize(d, conn, uid, request, w.account).Some? {
        GrewNot(d, Step(d, input));
      } else {
        GrewDispatch(d, conn, request, w);
        GrewAside(d, Dispatch(d, conn, request, w).0, Step(d, input));
      }
    case Tick(w) => GrewTick(d, w);
    case ChildExit(pid, w) => GrewNot(d, Step(d, input));
    case Terminate => GrewNot(d, Step(d, input));
  }

  lemma LogGrows(d: State, input: Input)
    ensures d.log <= Step(d, input).log
  {
    if !input.Reload? { GrewStep(d, input); }
  }

  // ---- every run -------------------------------------------------------------------------

  predicate NoReload(inputs: seq<Input>) {
    forall k :: 0 <= k < |inputs| ==> !inputs[k].Reload?
  }

  lemma {:induction false} GrewRun(d: State, inputs: seq<Input>)
    requires NoReload(inputs)
    ensures Grew(d, Run(d, inputs))
  {
    hide Grew; hide Step;
    if inputs == [] {
      GrewNot(d, d);
    } else {
      var n := |inputs| - 1;
      GrewRun(d, inputs[..n]);
      GrewStep(Run(d, inputs[..n]), inputs[n]);
      GrewTwice(d, Run(d, inputs[..n]), Run(d, inputs));
    }
  }

  lemma {:induction false} AlwaysReplayed(settings: Settings, service: Option<Uid>, inputs: seq<Input>)
    ensures Replayed(Run(Boot(settings, service), inputs))
  {
    if inputs != [] {
      var n := |inputs| - 1;
      AlwaysReplayed(settings, service, inputs[..n]);
      var d := Run(Boot(settings, service), inputs[..n]);
      hide Step;
      if inputs[n].Reload? {
        ReloadReplayed(d, inputs[n]);
      } else {
        GrewStep(d, inputs[n]);
      }
    }
  }

  lemma ReloadReplayed(d: State, input: Input)
    requires input.Reload? && Replayed(d)
    ensures Replayed(Step(d, input))
  {
    forall s ensures Tallied(Step(d, input), s) { assert Tallied(d, s); }
  }
}
