/** The managers' theorems, stated of whole daemon runs. */
module Guarantees {
  import opened Common
  import opened Authentication
  import opened Messages
  import opened DaemonModel
  import opened Histories
  import E = ElevationModel
  import ET = ElevationTheorems
  import EG = ElevationGuessing
  import L = LockModel
  import LT = LockTheorems
  import I = IdleModel
  import S = SessionModel
  import T = SeatModel

  // ---- wrong guesses -----------------------------------------------------------------

  lemma {:induction false} FailedAppend(a: seq<E.Call>, b: seq<E.Call>, s: SessionId)
    ensures EG.Failed(E.EMPTY, a + b, s) == EG.Failed(E.EMPTY, a, s) + EG.Failed(E.After(E.EMPTY, a), b, s)
    decreases |b|
  {
    hide E.Apply; hide EG.FailsOn;
    if b == [] {
      assert a + b == a;
    } else {
      var n := |b| - 1;
      assert (a + b)[..|a| + n] == a + b[..n];
      FailedAppend(a, b[..n], s);
      E.AfterAppend(E.EMPTY, a, b[..n]);
    }
  }

  lemma {:induction false} CountAppend(a: seq<L.Call>, b: seq<L.Call>, s: SessionId)
    ensures LT.Count(L.NOTHING_LOCKED, a + b, s).failed
         == LT.Count(L.NOTHING_LOCKED, a, s).failed + LT.Count(L.After(L.NOTHING_LOCKED, a), b, s).failed
    decreases |b|
  {
    hide L.Apply; hide LT.FailsOn; hide LT.Relocks;
    if b == [] {
      assert a + b == a;
    } else {
      var n := |b| - 1;
      assert (a + b)[..|a| + n] == a + b[..n];
      CountAppend(a, b[..n], s);
      L.AfterAppend(L.NOTHING_LOCKED, a, b[..n]);
    }
  }

  /** The calls a stretch of a run made on the elevation manager, and on the lock manager. */
  ghost function NewElevationCalls(d: State, d': State): seq<E.Call>
    requires d.elevationCalls <= d'.elevationCalls
  {
    d'.elevationCalls[|d.elevationCalls|..]
  }

  ghost function NewLockCalls(d: State, d': State): seq<L.Call>
    requires d.lockCalls <= d'.lockCalls
  {
    d'.lockCalls[|d.lockCalls|..]
  }

  /** New calls run under the settings in force. */
  lemma CallsUnder(d: State, d': State)
    requires Grew(d, d')
    ensures ET.Under(NewElevationCalls(d, d'), d.settings.elevation, d.settings.elevationAuth)
    ensures LT.Under(NewLockCalls(d, d'), d.settings.unlockAuth)
  {
    hide Replayed;
    var es, ls := NewElevationCalls(d, d'), NewLockCalls(d, d');
    assert forall k :: 0 <= k < |es| ==>
        es[k] == d'.elevationCalls[|d.elevationCalls| + k] && ElevationUnder(es[k], d.settings);
    assert forall k :: 0 <= k < |ls| ==> ls[k] == d'.lockCalls[|d.lockCalls| + k] && LockUnder(ls[k], d.settings);
  }

  /** Amortised guess bound, over daemon runs with fixed settings: in any stretch of
      a run in which no elevation password for session `s` is accepted and no
      lockout of it runs out, at most (attempt limit + prompt cap - 1) wrong
      passwords are checked for it. */
  lemma ElevationGuessBound(settings: Settings, service: Option<Uid>, before: seq<Input>, stretch: seq<Input>,
                            s: SessionId)
    requires NoReload(before) && NoReload(stretch)
    requires var d := Run(Boot(settings, service), before);
             var d' := Run(d, stretch);
             d.elevationCalls <= d'.elevationCalls && EG.NoReset(d.elevation, NewElevationCalls(d, d'), s)
    ensures var d := Run(Boot(settings, service), before);
            Wrong(Run(d, stretch).log, s, true) - Wrong(d.log, s, true)
              <= Budget(settings.elevationAuth) + settings.elevation.maxPending - 1
  {
    var boot := Boot(settings, service);
    var d := Run(boot, before);
    var d' := Run(d, stretch);
    GrewRun(boot, before);
    GrewRun(d, stretch);
    BootReplayed(settings, service);
    hide Run; hide E.After; hide L.After; hide I.After; hide EG.NoReset;
    assert Tallied(d, s) && Tallied(d', s);
    var window := NewElevationCalls(d, d');
    assert d'.elevationCalls == d.elevationCalls + window;
    FailedAppend(d.elevationCalls, window, s);
    CallsUnder(boot, d);
    CallsUnder(d, d');
    assert NewElevationCalls(boot, d) == d.elevationCalls;
    EG.GuessBound(d.elevationCalls, window, s, settings.elevation, settings.elevationAuth);
  }

  /** The same for the lock screen: wrong passwords between two moments of
      forgiveness are at most the limit, plus one for every time the session was
      locked again while locked out. */
  lemma UnlockGuessBound(settings: Settings, service: Option<Uid>, before: seq<Input>, stretch: seq<Input>,
                         s: SessionId)
    requires NoReload(before) && NoReload(stretch)
    requires var d := Run(Boot(settings, service), before);
             var d' := Run(d, stretch);
             d.lockCalls <= d'.lockCalls && LT.NoReset(d.locks, NewLockCalls(d, d'), s)
    ensures var d := Run(Boot(settings, service), before);
            var d' := Run(d, stretch);
            var relocked := LT.Count(d.locks, NewLockCalls(d, d'), s).relocked;
            Wrong(d'.log, s, false) - Wrong(d.log, s, false) <= Budget(settings.unlockAuth) + relocked
  {
    var boot := Boot(settings, service);
    var d := Run(boot, before);
    var d' := Run(d, stretch);
    GrewRun(boot, before);
    GrewRun(d, stretch);
    BootReplayed(settings, service);
    hide Run; hide E.After; hide L.After; hide I.After; hide LT.NoReset;
    assert Tallied(d, s) && Tallied(d', s);
    var window := NewLockCalls(d, d');
    assert d'.lockCalls == d.lockCalls + window;
    CountAppend(d.lockCalls, window, s);
    CallsUnder(boot, d);
    CallsUnder(d, d');
    assert NewLockCalls(boot, d) == d.lockCalls;
    LT.GuessBound(d.lockCalls, window, s, settings.unlockAuth);
  }

  lemma BootReplayed(settings: Settings, service: Option<Uid>)
    ensures Replayed(Boot(settings, service))
  {
    forall s ensures Tallied(Boot(settings, service), s) {}
  }

  // ---- prompts -----------------------------------------------------------------------------

  /** With fixed settings no session ever has more prompts open than the cap. */
  lemma PromptCap(settings: Settings, service: Option<Uid>, inputs: seq<Input>, s: SessionId)
    requires NoReload(inputs)
    ensures |E.OpenFor(Run(Boot(settings, service), inputs).elevation, s)| <= settings.elevation.maxPending
  {
    var d := Run(Boot(settings, service), inputs);
    GrewRun(Boot(settings, service), inputs);
    BootReplayed(settings, service);
    hide Run;
    assert ET.Under(d.elevationCalls, settings.elevation, settings.elevationAuth);
    ET.CapHolds(d.elevationCalls, s, settings.elevation, settings.elevationAuth);
  }

  /** A tick leaves nothing overdue: no open prompt and no lockout of either kind is
      at or past its deadline when it is over. */
  lemma TickLeavesNothingOverdue(settings: Settings, service: Option<Uid>, inputs: seq<Input>, w: World)
    ensures var d := HandleTick(Run(Boot(settings, service), inputs), w);
            && (forall id :: id in d.elevation.pending ==>
                  id in d.elevation.promptExpiry && d.elevation.promptExpiry[id] > w.now)
            && (forall s :: E.IsLockedOut(d.elevation, s) ==>
                  s in d.elevation.lockoutExpiry && d.elevation.lockoutExpiry[s] > w.now)
            && (forall s :: L.LockOf(d.locks, s).state.LockedOut? ==>
                  s in d.locks.lockoutExpiry && d.locks.lockoutExpiry[s] > w.now)
  {
    var d := Run(Boot(settings, service), inputs);
    AlwaysReplayed(settings, service, inputs);
    hide Run; hide ApplyChanges; hide SweepTimers;
    var a := CallIdle(d, I.CTick(w.now, d.settings.idle));
    var changes := Listing(w.changeOrder, I.Changes(d.idle, w.now, d.settings.idle));
    var b := ApplyChanges(a, changes, w);
    GrewIdle(d, I.CTick(w.now, d.settings.idle));
    GrewChanges(a, changes, w);
    ET.AlwaysConsistent(b.elevationCalls);
    LT.AlwaysTimed(b.lockCalls);
    SweepLeavesNothing(b, w);
  }

  lemma SweepLeavesNothing(d: State, w: World)
    requires ET.Consistent(d.elevation) && LT.Timed(d.locks)
    ensures var d' := SweepTimers(d, w);
            && (forall id :: id in d'.elevation.pending ==>
                  id in d'.elevation.promptExpiry && d'.elevation.promptExpiry[id] > w.now)
            && (forall s :: E.IsLockedOut(d'.elevation, s) ==>
                  s in d'.elevation.lockoutExpiry && d'.elevation.lockoutExpiry[s] > w.now)
            && (forall s :: L.LockOf(d'.locks, s).state.LockedOut? ==>
                  s in d'.locks.lockoutExpiry && d'.locks.lockoutExpiry[s] > w.now)
  {
    hide Abandon;
    var a := CallLocks(d, L.CSweep(w.now));
    var b := CallElevation(a, E.CClearLockouts(w.now));
    GrewAbandon(b, E.CExpire(w.now), E.Overdue(b.elevation, w.now), TimedOut, w.promptOrder);
    ET.ApplyConsistent(d.elevation, E.CClearLockouts(w.now));
    ET.ApplyConsistent(b.elevation, E.CExpire(w.now));
    var e := E.Apply(b.elevation, E.CExpire(w.now));
    assert SweepTimers(d, w).elevation == e && SweepTimers(d, w).locks == a.locks;
    assert e.lockoutExpiry == b.elevation.lockoutExpiry;
  }

  // ---- idle --------------------------------------------------------------------------------

  /** The clock reading a step brings, if any. */
  predicate HasClock(input: Input) {
    input.Disconnected? || input.Command? || input.Tick? || input.ChildExit?
  }

  predicate ClockNeverGoesBack(inputs: seq<Input>) {
    forall j, k :: 0 <= j <= k < |inputs| && HasClock(inputs[j]) && HasClock(inputs[k])
      ==> inputs[j].world.now <= inputs[k].world.now
  }

  lemma {:induction false} IdleSameChanges(d: State, changes: seq<I.Change>, w: World)
    ensures ApplyChanges(d, changes, w).idleCalls == d.idleCalls
    decreases |changes|
  {
    if changes != [] { IdleSameChanges(ApplyChange(d, changes[0], w), changes[1..], w); }
  }

  lemma IdleSameAbandon(d: State, call: E.Call, ids: set<RequestId>, reason: Reason, order: seq<RequestId>)
    requires ids <= d.elevation.pending.Keys
    ensures Abandon(d, call, ids, reason, order).idleCalls == d.idleCalls
  {
    AsideNotify(CallElevation(d, call), Listed(d.elevation, ids, order), reason);
  }

  lemma IdleSameElevation(d: State, conn: ConnId, request: Request, w: World)
    requires request.RequestElevation? || request.RespondElevation?
    ensures Dispatch(d, conn, request, w).0.idleCalls == d.idleCalls
  {
    hide E.Apply; hide E.BeginOutcome; hide E.AttemptOutcome;
  }

  lemma IdleSameTerminate(d: State, s: SessionId, w: World)
    ensures OnTerminateSession(d, s, w).0.idleCalls == d.idleCalls
  {
    hide Abandon;
    if s in d.sessions.live {
      var ended := d.(sessions := S.Remove(d.sessions, {s}), seats := T.Detach(d.seats, s));
      IdleSameAbandon(ended, E.CAbandonSession(s), E.OpenFor(d.elevation, s), SessionEnded, w.promptOrder);
    }
  }

  lemma IdleSameDispatch(d: State, conn: ConnId, request: Request, w: World)
    requires !request.ReportActivity?
    ensures Dispatch(d, conn, request, w).0.idleCalls == d.idleCalls
  {
    hide L.Apply; hide L.Blocks; hide S.Create; hide S.CreateOutcome; hide S.Transition; hide S.Update; hide T.Switch;
    hide T.SwitchOutcome;
    hide StartElevation; hide OnRespondElevation; hide OnTerminateSession;
    match request
    case RequestElevation(_, _) => IdleSameElevation(d, conn, request, w);
    case RespondElevation(_, _) => IdleSameElevation(d, conn, request, w);
    case TerminateSession(s) => IdleSameTerminate(d, s, w);
    case _ =>
  }

  lemma IdleSameTick(d: State, w: World)
    ensures HandleTick(d, w).idleCalls == d.idleCalls + [I.CTick(w.now, d.settings.idle)]
  {
    hide Abandon; hide ApplyChanges;
    var a := CallIdle(d, I.CTick(w.now, d.settings.idle));
    var changes := Listing(w.changeOrder, I.Changes(d.idle, w.now, d.settings.idle));
    IdleSameChanges(a, changes, w);
    var c := CallElevation(CallLocks(ApplyChanges(a, changes, w), L.CSweep(w.now)), E.CClearLockouts(w.now));
    IdleSameAbandon(c, E.CExpire(w.now), E.Overdue(c.elevation, w.now), TimedOut, w.promptOrder);
  }

  /** `calls'` is `calls`, or `calls` and one more made at this clock reading. */
  ghost predicate AtMostOneMore(calls: seq<I.Call>, calls': seq<I.Call>, input: Input) {
    || calls' == calls
    || (HasClock(input) && exists call :: calls' == calls + [call] && I.TimeOf(call) == input.world.now)
  }

  /** A step calls the idle detector at most once, with its own clock reading. */
  lemma IdleStep(d: State, input: Input)
    ensures AtMostOneMore(d.idleCalls, Step(d, input).idleCalls, input)
  {
    hide Abandon; hide HandleTick; hide Dispatch;
    match input
    case Disconnected(conn, w) => DisconnectIdle(d, conn, w);
    case Tick(w) => IdleSameTick(d, w);
    case Command(conn, uid, request, w) =>
      if request.ReportActivity? {
        IdleReport(d, conn, request, w);
      } else {
        IdleSameDispatch(d, conn, request, w);
      }
    case _ =>
  }

  lemma DisconnectIdle(d: State, conn: ConnId, w: World)
    ensures HandleDisconnect(d, conn, w).idleCalls == d.idleCalls
  {
    hide Abandon;
    var gone := d.(registry := d.registry - {conn}, sessions := S.DropConnection(d.sessions, conn));
    IdleSameAbandon(gone, E.CAbandonConnection(conn), E.Touching(d.elevation, conn), ConnectionDropped, w.promptOrder);
  }

  lemma IdleReport(d: State, conn: ConnId, request: Request, w: World)
    requires request.ReportActivity?
    ensures Dispatch(d, conn, request, w).0.idleCalls == d.idleCalls + [I.CActivity(request.seat, w.now)]
    ensures Dispatch(d, conn, request, w).1.Some?
  {
  }

  ghost predicate InOrder(calls: seq<I.Call>, latest: Instant) {
    && (forall j, k :: 0 <= j <= k < |calls| ==> I.TimeOf(calls[j]) <= I.TimeOf(calls[k]))
    && (forall j :: 0 <= j < |calls| ==> I.TimeOf(calls[j]) <= latest)
  }

  lemma InOrderStep(calls: seq<I.Call>, calls': seq<I.Call>, input: Input, latest: Instant)
    requires AtMostOneMore(calls, calls', input)
    requires HasClock(input) ==> input.world.now <= latest
    requires InOrder(calls, if HasClock(input) then input.world.now else latest)
    ensures InOrder(calls', latest)
  {
    hide I.TimeOf;
  }

  /** The detector's calls happen in clock order. */
  lemma {:induction false} IdleClock(d: State, inputs: seq<Input>, latest: Instant)
    requires ClockNeverGoesBack(inputs) && d.idleCalls == []
    requires forall i :: 0 <= i < |inputs| && HasClock(inputs[i]) ==> inputs[i].world.now <= latest
    ensures InOrder(Run(d, inputs).idleCalls, latest)
  {
    if inputs != [] {
      var n := |inputs| - 1;
      assert forall i :: 0 <= i < n ==> inputs[..n][i] == inputs[i];
      IdleClock(d, inputs[..n], if HasClock(inputs[n]) then inputs[n].world.now else latest);
      IdleStep(Run(d, inputs[..n]), inputs[n]);
      hide Step; hide AtMostOneMore; hide InOrder;
      InOrderStep(Run(d, inputs[..n]).idleCalls, Run(d, inputs).idleCalls, inputs[n], latest);
    }
  }

  lemma {:induction false} SomeLatest(inputs: seq<Input>) returns (latest: Instant)
    ensures forall i :: 0 <= i < |inputs| && HasClock(inputs[i]) ==> inputs[i].world.now <= latest
  {
    latest := 0;
    if inputs != [] {
      var n := |inputs| - 1;
      latest := SomeLatest(inputs[..n]);
      assert forall i :: 0 <= i < n ==> inputs[..n][i] == inputs[i];
      if HasClock(inputs[n]) && latest < inputs[n].world.now { latest := inputs[n].world.now; }
    }
  }

  /** Over any run with fixed settings: between two reports of activity on a seat,
      the stages the daemon acts on for it only climb, and it asks for suspend at
      most once, last. */
  lemma IdleStagesClimb(settings: Settings, service: Option<Uid>, inputs: seq<Input>, seat: SeatId)
    requires NoReload(inputs) && ClockNeverGoesBack(inputs)
    ensures var reported := I.Reported(Run(Boot(settings, service), inputs).idleCalls, seat);
            && I.Climbing(reported) && I.StageActive !in reported
            && forall j :: 0 <= j < |reported| - 1 ==> !reported[j].SuspendRequested?
  {
    var d := Run(Boot(settings, service), inputs);
    GrewRun(Boot(settings, service), inputs);
    var latest := SomeLatest(inputs);
    IdleClock(Boot(settings, service), inputs, latest);
    hide Run;
    I.ReportsClimb(d.idleCalls, seat, settings.idle);
  }

  /** And those are the stages the daemon acts on: after any run, a tick carries out
      this change for a seat if and only if the report grows by its stage. */
  lemma TickActsOnReports(settings: Settings, service: Option<Uid>, inputs: seq<Input>, w: World, seat: SeatId,
                          stage: I.IdleStage)
    ensures var d := Run(Boot(settings, service), inputs);
            I.Change(seat, stage) in Listing(w.changeOrder, I.Changes(d.idle, w.now, d.settings.idle)) <==>
              I.Reported(HandleTick(d, w).idleCalls, seat) == I.Reported(d.idleCalls, seat) + [stage]
  {
    var d := Run(Boot(settings, service), inputs);
    AlwaysReplayed(settings, service, inputs);
    hide Run; hide HandleTick; hide Tallied; hide I.Changes; hide I.Reported; hide I.After;
    IdleSameTick(d, w);
    var listed := Listing(w.changeOrder, I.Changes(d.idle, w.now, d.settings.idle));
    assert I.Change(seat, stage) in listed <==> I.Change(seat, stage) in (set x | x in listed);
    I.ReportedGrows(d.idleCalls, w.now, d.settings.idle, seat, stage);
  }

  // ---- which PAM service checks a password -----------------------------------------------------

  lemma {:induction false} AuthenticatorFollows(settings: Settings, service: Option<Uid>, inputs: seq<Input>)
    ensures var d := Run(Boot(settings, service), inputs);
            d.authenticator == d.settings.authService
  {
    hide Grew;
    if inputs != [] {
      var n := |inputs| - 1;
      AuthenticatorFollows(settings, service, inputs[..n]);
      var d := Run(Boot(settings, service), inputs[..n]);
      if !inputs[n].Reload? { StepService(d, inputs[n]); }
      hide HandleTick; hide HandleCommand; hide HandleDisconnect; hide HandleChildExit;
    }
  }

  lemma StepService(d: State, input: Input)
    requires !input.Reload?
    ensures Step(d, input).settings == d.settings && Step(d, input).authenticator == d.authenticator
    ensures d.log <= Step(d, input).log
    ensures forall k :: |d.log| <= k < |Step(d, input).log| ==> CheckedBy(Step(d, input).log[k], d.authenticator)
  {
    hide Step; hide Replayed;
    GrewStep(d, input);
  }

  /** Entry `i` of the log was written by step `k`, under the service that
      `[authentication]` named at the time. */
  ghost predicate RanUnder(boot: State, inputs: seq<Input>, k: nat, i: nat, pamService: string)
    requires k < |inputs|
  {
    var before := Run(boot, inputs[..k]);
    && |before.log| <= i < |Run(boot, inputs[..k + 1]).log|
    && pamService == before.settings.authService
  }

  /** Every check in every run, of an elevation prompt or at the lock screen, runs under
      the service of the `[authentication]` section in force. */
  lemma {:induction false} OneServiceChecks(settings: Settings, service: Option<Uid>, inputs: seq<Input>, i: nat)
    requires var log := Run(Boot(settings, service), inputs).log;
             i < |log| && log[i].Checked?
    ensures var boot := Boot(settings, service);
            exists k: nat :: k < |inputs| && RanUnder(boot, inputs, k, i, Run(boot, inputs).log[i].pamService)
    decreases |inputs|
  {
    hide Step; hide Grew;
    var boot := Boot(settings, service);
    var n := |inputs| - 1;
    var before := Run(boot, inputs[..n]);
    if i < |before.log| {
      LogGrows(before, inputs[n]);
      assert before.log[i] == Run(boot, inputs).log[i];
      OneServiceChecks(settings, service, inputs[..n], i);
      var pamService := before.log[i].pamService;
      var k: nat :| k < n && RanUnder(boot, inputs[..n], k, i, pamService);
      assert inputs[..n][..k] == inputs[..k] && inputs[..n][..k + 1] == inputs[..k + 1];
      assert RanUnder(boot, inputs, k, i, pamService);
    } else {
      AuthenticatorFollows(settings, service, inputs[..n]);
      WritesUnder(before, inputs[n], i);
      assert inputs[..n + 1] == inputs;
      assert RanUnder(boot, inputs, n, i, Run(boot, inputs).log[i].pamService);
    }
  }

  lemma WritesUnder(d: State, input: Input, i: nat)
    ensures |d.log| <= i < |Step(d, input).log| && Step(d, input).log[i].Checked? ==>
              Step(d, input).log[i].pamService == d.authenticator
  {
    if !input.Reload? { StepService(d, input); }
  }
}
