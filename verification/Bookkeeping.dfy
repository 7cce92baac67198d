/** The plain facts of a run, read off its inputs: which settings are in force, whether
    the daemon is exiting, and who has an outbox. */
module Bookkeeping {
  import opened Common
  import opened Authentication
  import opened Messages
  import opened DaemonModel
  import opened Histories
  import opened ObservableSteps
  import E = ElevationModel
  import L = LockModel
  import I = IdleModel
  import S = SessionModel
  import T = SeatModel

  // ---- settings ----------------------------------------------------------------------------

  /** The settings and the service account in force: those of the latest reload. */
  function InForce(settings: Settings, service: Option<Uid>, inputs: seq<Input>): (Settings, Option<Uid>) {
    if inputs == [] then (settings, service)
    else
      var n := |inputs| - 1;
      if inputs[n].Reload? then (inputs[n].settings, inputs[n].service) else InForce(settings, service, inputs[..n])
  }

  lemma {:induction false} SettingsInForce(settings: Settings, service: Option<Uid>, inputs: seq<Input>)
    ensures var d := Run(Boot(settings, service), inputs);
            (d.settings, d.service) == InForce(settings, service, inputs)
  {
    hide Step; hide Grew;
    if inputs != [] {
      var n := |inputs| - 1;
      SettingsInForce(settings, service, inputs[..n]);
      SettingsStep(Run(Boot(settings, service), inputs[..n]), inputs[n]);
    }
  }

  lemma SettingsStep(d: State, input: Input)
    ensures var d' := Step(d, input);
            (d'.settings, d'.service)
              == if input.Reload? then (input.settings, input.service) else (d.settings, d.service)
  {
    if !input.Reload? {
      hide Replayed;
      GrewStep(d, input);
      hide Step;
    }
  }

  // ---- outboxes -----------------------------------------------------------------------------

  /** The step takes the outbox of `c` away: it disconnects, or a process dies whose
      session it was the compositor of. */
  ghost predicate TakesAway(d: State, input: Input, c: ConnId) {
    match input
    case Disconnected(conn, _) => conn == c
    case ChildExit(pid, w) =>
      var s := OwnerOf(d.sessions, pid, w.owner);
      s.Some? && d.sessions.live[s.value].compositor == Some(c)
    case _ => false
  }

  lemma OutboxStep(d: State, input: Input, c: ConnId)
    ensures c in Step(d, input).registry <==>
              input == Connected(c) || (c in d.registry && !TakesAway(d, input, c))
  {
    hide Abandon; hide Dispatch; hide ApplyChanges;
    match input
    case Disconnected(conn, w) =>
      var gone := d.(registry := d.registry - {conn}, sessions := S.DropConnection(d.sessions, conn));
      GrewAbandon(gone, E.CAbandonConnection(conn), E.Touching(d.elevation, conn), ConnectionDropped, w.promptOrder);
    case Command(conn, uid, request, w) => DispatchNumbers(d, conn, request, w);
    case Tick(w) =>
      var a := CallIdle(d, I.CTick(w.now, d.settings.idle));
      var changes := Listing(w.changeOrder, I.Changes(d.idle, w.now, d.settings.idle));
      ChangesRegistry(a, changes, w);
      var b := CallElevation(CallLocks(ApplyChanges(a, changes, w), L.CSweep(w.now)), E.CClearLockouts(w.now));
      GrewAbandon(b, E.CExpire(w.now), E.Overdue(b.elevation, w.now), TimedOut, w.promptOrder);
    case _ =>
  }

  ghost predicate TakenAt(boot: State, inputs: seq<Input>, c: ConnId, k: nat)
    requires k < |inputs|
  {
    TakesAway(Run(boot, inputs[..k]), inputs[k], c)
  }

  ghost predicate OpenSince(boot: State, inputs: seq<Input>, c: ConnId, k: nat) {
    && k < |inputs| && inputs[k] == Connected(c)
    && forall j :: k < j < |inputs| ==> !TakenAt(boot, inputs, c, j)
  }

  ghost predicate HasOutbox(boot: State, inputs: seq<Input>, c: ConnId) {
    exists k: nat :: OpenSince(boot, inputs, c, k)
  }

  lemma OutboxSnoc(boot: State, inputs: seq<Input>, c: ConnId)
    requires inputs != []
    ensures var n := |inputs| - 1;
            HasOutbox(boot, inputs, c) <==>
              || inputs[n] == Connected(c)
              || (HasOutbox(boot, inputs[..n], c) && !TakesAway(Run(boot, inputs[..n]), inputs[n], c))
  {
    hide Run; hide TakesAway;
    var n := |inputs| - 1;
    var earlier := inputs[..n];
    forall k: nat | k < n ensures TakenAt(boot, earlier, c, k) <==> TakenAt(boot, inputs, c, k) {
      assert earlier[..k] == inputs[..k];
    }
    assert TakenAt(boot, inputs, c, n) <==> TakesAway(Run(boot, earlier), inputs[n], c);
    forall k: nat | k < n
      ensures OpenSince(boot, inputs, c, k) <==> OpenSince(boot, earlier, c, k) && !TakenAt(boot, inputs, c, n)
    {
    }
    assert OpenSince(boot, inputs, c, n) <==> inputs[n] == Connected(c);
    if k: nat :| OpenSince(boot, earlier, c, k) {
      assert !TakenAt(boot, inputs, c, n) ==> OpenSince(boot, inputs, c, k);
    }
  }

  /** In every run, a connection has an outbox, and so receives what is sent to it, exactly
      if it has connected and since then neither disconnected nor been the compositor of a
      session whose process died. */
  lemma {:induction false} OutboxesExactly(settings: Settings, service: Option<Uid>, inputs: seq<Input>, c: ConnId)
    ensures var boot := Boot(settings, service);
            c in Run(boot, inputs).registry <==> HasOutbox(boot, inputs, c)
  {
    hide Step; hide TakesAway;
    if inputs != [] {
      var boot := Boot(settings, service);
      var n := |inputs| - 1;
      OutboxesExactly(settings, service, inputs[..n], c);
      OutboxSnoc(boot, inputs, c);
      OutboxStep(Run(boot, inputs[..n]), inputs[n], c);
      hide HasOutbox;
    }
  }

  // ---- exiting -------------------------------------------------------------------------------

  ghost predicate ToldToExit(inputs: seq<Input>) {
    exists k :: 0 <= k < |inputs| && inputs[k].Terminate?
  }

  lemma ExitStep(d: State, input: Input)
    ensures Step(d, input).exiting <==> d.exiting || input.Terminate?
  {
    hide Abandon; hide Dispatch; hide ApplyChanges;
    match input
    case Disconnected(conn, w) =>
      var gone := d.(registry := d.registry - {conn}, sessions := S.DropConnection(d.sessions, conn));
      AbandonExiting(gone, E.CAbandonConnection(conn), E.Touching(d.elevation, conn), ConnectionDropped, w.promptOrder);
    case Command(conn, uid, request, w) => DispatchExiting(d, conn, request, w);
    case Tick(w) =>
      var a := CallIdle(d, I.CTick(w.now, d.settings.idle));
      var changes := Listing(w.changeOrder, I.Changes(d.idle, w.now, d.settings.idle));
      ChangesExiting(a, changes, w);
      var b := CallElevation(CallLocks(ApplyChanges(a, changes, w), L.CSweep(w.now)), E.CClearLockouts(w.now));
      AbandonExiting(b, E.CExpire(w.now), E.Overdue(b.elevation, w.now), TimedOut, w.promptOrder);
    case _ =>
  }

  lemma {:induction false} NotifyExiting(d: State, torn: seq<E.Abandoned>, reason: Reason)
    ensures NotifyAbandoned(d, torn, reason).exiting == d.exiting
    decreases |torn|
  {
    if torn != [] {
      var a := torn[0];
      var hidden := Push(d, a.prompt.compositor, HideElevationPrompt(a.id));
      var told := Reply(hidden, a.prompt.requester, AuthResult(AuthOutcome.Error(reason)), Postponed(a.id));
      NotifyExiting(told, torn[1..], reason);
    }
  }

  lemma AbandonExiting(d: State, call: E.Call, ids: set<RequestId>, reason: Reason, order: seq<RequestId>)
    requires ids <= d.elevation.pending.Keys
    ensures Abandon(d, call, ids, reason, order).exiting == d.exiting
  {
    NotifyExiting(CallElevation(d, call), Listed(d.elevation, ids, order), reason);
  }

  lemma {:induction false} ChangesExiting(d: State, changes: seq<I.Change>, w: World)
    ensures ApplyChanges(d, changes, w).exiting == d.exiting
    decreases |changes|
  {
    hide L.Apply; hide L.Blocks; hide L.Delays; hide S.Compositors; hide S.Transition;
    if changes != [] { ChangesExiting(ApplyChange(d, changes[0], w), changes[1..], w); }
  }

  lemma DispatchExiting(d: State, conn: ConnId, request: Request, w: World)
    ensures Dispatch(d, conn, request, w).0.exiting == d.exiting
  {
    hide L.Apply; hide I.Apply; hide E.Apply; hide L.Blocks; hide L.Delays; hide S.Compositors; hide S.Transition;
    hide Abandon; hide E.BeginOutcome; hide E.AttemptOutcome; hide L.UnlockOutcome; hide S.CreateOutcome;
    if request.TerminateSession? { TerminateExiting(d, request.session, w); }
  }

  lemma TerminateExiting(d: State, s: SessionId, w: World)
    ensures OnTerminateSession(d, s, w).0.exiting == d.exiting
  {
    hide Abandon;
    if s in d.sessions.live {
      var ended := d.(sessions := S.Remove(d.sessions, {s}), seats := T.Detach(d.seats, s));
      AbandonExiting(ended, E.CAbandonSession(s), E.OpenFor(d.elevation, s), SessionEnded, w.promptOrder);
    }
  }

  /** In every run the daemon is exiting exactly if it has been told to terminate. */
  lemma {:induction false} ExitsExactly(settings: Settings, service: Option<Uid>, inputs: seq<Input>)
    ensures Run(Boot(settings, service), inputs).exiting <==> ToldToExit(inputs)
  {
    hide Step;
    if inputs != [] {
      var n := |inputs| - 1;
      ExitsExactly(settings, service, inputs[..n]);
      ExitStep(Run(Boot(settings, service), inputs[..n]), inputs[n]);
      if k :| 0 <= k < n && inputs[..n][k].Terminate? { assert inputs[k].Terminate?; }
      if k :| 0 <= k < n && inputs[k].Terminate? { assert inputs[..n][k].Terminate?; }
    }
  }
}
