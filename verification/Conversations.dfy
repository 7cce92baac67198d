/** What the exact record of every step says of whole runs: no yes without an accepted
    password, and every refusal of an elevation with its reason. */
module Conversations {
  import opened Common
  import opened Authentication
  import opened Messages
  import opened DaemonModel
  import opened Histories
  import opened Authority
  import opened Causes
  import opened Observables
  import opened ObservableSteps
  import E = ElevationModel
  import EG = ElevationGuessing
  import L = LockModel

  // ---- no yes without a password ----------------------------------------------------------

  predicate IsYes(entry: Entry) {
    entry.Replied? && entry.response == AuthResult(Success)
  }

  predicate IsAcceptance(entry: Entry) {
    entry.Checked? && entry.accepted
  }

  /** A step that tells anyone yes, at once or in answer to a request put off, has checked
      a password and found it right. */
  lemma YesWasChecked(d: State, input: Input, entry: Entry)
    requires IsYes(entry)
    ensures entry in New(d.log, Step(d, input).log) ==>
              exists check :: check in New(d.log, Step(d, input).log) && IsAcceptance(check)
  {
    hide Step; hide New; hide Due;
    StepExactly(d, input, entry);
    if entry in New(d.log, Step(d, input).log) {
      var check := YesNeedsCheck(d, input, entry);
      StepExactly(d, input, check);
    }
  }

  lemma YesNeedsCheck(d: State, input: Input, entry: Entry) returns (check: Entry)
    requires IsYes(entry) && Due(d, input, entry)
    ensures Due(d, input, check) && IsAcceptance(check)
  {
    hide E.OpenFor; hide L.Blocks;
    PolicyExactly(d, input.conn, input.uid, input.request, input.world.account);
    match input.request
    case Unlock(s, name) => check := Checked(s, name, true, None, d.authenticator);
    case RespondElevation(id, _) =>
      var s := d.elevation.pending[id].session;
      check := Checked(s, d.sessions.live[s].userName, true, Some(id), d.authenticator);
  }

  /** Step `k` wrote both entries of the log. */
  ghost predicate WrittenTogether(boot: State, inputs: seq<Input>, k: nat, i: nat, j: nat)
    requires k < |inputs|
  {
    var before, after := |Run(boot, inputs[..k]).log|, |Run(boot, inputs[..k + 1]).log|;
    before <= i < after && before <= j < after
  }

  ghost predicate CheckedWith(boot: State, inputs: seq<Input>, i: nat, k: nat, j: nat) {
    && k < |inputs| && j < |Run(boot, inputs).log|
    && WrittenTogether(boot, inputs, k, i, j) && IsAcceptance(Run(boot, inputs).log[j])
  }

  /** In every run, every yes the daemon ever gives comes with a password accepted in the
      same step. */
  lemma {:induction false} EveryYesWasChecked(settings: Settings, service: Option<Uid>, inputs: seq<Input>, i: nat)
    ensures var boot := Boot(settings, service);
            var log := Run(boot, inputs).log;
            i < |log| && IsYes(log[i]) ==> exists k: nat, j: nat :: CheckedWith(boot, inputs, i, k, j)
    decreases |inputs|
  {
    hide Step; hide IsYes; hide IsAcceptance;
    var boot := Boot(settings, service);
    var log := Run(boot, inputs).log;
    if inputs != [] && i < |log| && IsYes(log[i]) {
      var n := |inputs| - 1;
      var before := Run(boot, inputs[..n]);
      LogGrows(before, inputs[n]);
      if i < |before.log| {
        EveryYesWasChecked(settings, service, inputs[..n], i);
        var k: nat, j: nat :| CheckedWith(boot, inputs[..n], i, k, j);
        assert inputs[..n][..k] == inputs[..k] && inputs[..n][..k + 1] == inputs[..k + 1];
        assert CheckedWith(boot, inputs, i, k, j);
      } else {
        YesWasChecked(before, inputs[n], log[i]);
        assert log[i] in New(before.log, log);
        var check :| check in New(before.log, log) && IsAcceptance(check);
        var j :| |before.log| <= j < |log| && log[j] == check;
        assert inputs[..n + 1] == inputs;
        assert CheckedWith(boot, inputs, i, n, j);
      }
    }
  }

  // ---- why an elevation is refused -----------------------------------------------------------

  /** The reply a request gets at once, from someone entitled to it. */
  ghost predicate Answered(d: State, conn: ConnId, uid: Uid, request: Request, w: World, r: Response) {
    Replied(conn, r, Current, conn in d.registry) in New(d.log, Step(d, Command(conn, uid, request, w)).log)
  }

  /** After any run, someone entitled to who asks for an elevation is told that the
      session is locked out if and only if, the request being otherwise in order, its
      history holds a check that locked it out and no sweep since that came when the
      lockout was over; that the user has no password if and only if that is so; and that
      it is not permitted if and only if as many of its prompts are open as may be. */
  lemma ElevationRefusals(settings: Settings, service: Option<Uid>, inputs: seq<Input>,
                          conn: ConnId, uid: Uid, s: SessionId, action: ElevationAction, w: World)
    ensures var d := Run(Boot(settings, service), inputs);
            var request := RequestElevation(s, action);
            var refused := exists k: nat :: k < |d.elevationCalls| && EG.LockedOutBy(d.elevationCalls, s, k);
            Entitled(d, conn, uid, request, w.account) ==>
              && (Answered(d, conn, uid, request, w, AuthResult(LockedOut(d.settings.elevationAuth.lockout))) <==>
                    Promptable(d, s, action, w) && refused)
              && (Answered(d, conn, uid, request, w, Failed(PermissionDenied)) <==>
                    Promptable(d, s, action, w) && !refused && !HasRoom(d, s))
              && (Answered(d, conn, uid, request, w, AuthResult(AuthOutcome.Error(NoPasswordConfigured))) <==>
                    && action.wellFormed && d.settings.elevation.enabled && s in d.sessions.live
                    && d.sessions.live[s].userName in w.noPassword)
  {
    hide Run; hide Step; hide New; hide E.OpenFor; hide Entitled; hide Promptable; hide EG.LockedOutBy; hide Tallied;
    var d := Run(Boot(settings, service), inputs);
    var request := RequestElevation(s, action);
    AlwaysReplayed(settings, service, inputs);
    EG.LockoutWindow(d.elevationCalls, s, d.settings.elevation, d.settings.elevationAuth);
    RefusedExactly(d, conn, uid, request, w, AuthResult(LockedOut(d.settings.elevationAuth.lockout)));
    RefusedExactly(d, conn, uid, request, w, Failed(PermissionDenied));
    RefusedExactly(d, conn, uid, request, w, AuthResult(AuthOutcome.Error(NoPasswordConfigured)));
  }

  lemma RefusedExactly(d: State, conn: ConnId, uid: Uid, request: Request, w: World, r: Response)
    ensures Entitled(d, conn, uid, request, w.account) ==>
              (Answered(d, conn, uid, request, w, r) <==> Owed(d, request, w, r))
  {
    hide Step; hide New; hide Owed; hide Entitled;
    StepExactly(d, Command(conn, uid, request, w), Replied(conn, r, Current, conn in d.registry));
  }

  // ---- what an idle inhibitor is good for -----------------------------------------------------

  /** The same state with one more inhibitor of Idle held. */
  function WithIdleInhibitor(d: State, id: nat, i: L.Inhibitor): State {
    d.(locks := d.locks.(inhibitors := d.locks.inhibitors[id := i]))
  }

  lemma IdleBlocksNothing(d: State, id: nat, i: L.Inhibitor, what: L.InhibitWhat)
    requires i.what == L.InhibitIdle && id !in d.locks.inhibitors && what != L.InhibitIdle
    ensures L.Blocks(WithIdleInhibitor(d, id, i).locks, what) == L.Blocks(d.locks, what)
    ensures L.Delays(WithIdleInhibitor(d, id, i).locks, what) == L.Delays(d.locks, what)
  {
    var held, held' := d.locks.inhibitors, WithIdleInhibitor(d, id, i).locks.inhibitors;
    assert forall j :: j in held ==> j in held' && held'[j] == held[j];
    assert forall j :: j in held' && j != id ==> j in held;
  }

  /** A tick does the same whether or not an application inhibits Idle, in either mode: it
      adds the same to the log. */
  lemma IdleInhibitorsDelayNothing(d: State, id: nat, i: L.Inhibitor, w: World, entry: Entry)
    requires i.what == L.InhibitIdle && id !in d.locks.inhibitors && !entry.PowerCall?
    ensures var d' := WithIdleInhibitor(d, id, i);
            entry in New(d.log, Step(d, Tick(w)).log) <==> entry in New(d'.log, Step(d', Tick(w)).log)
  {
    hide Step; hide New; hide L.Blocks; hide L.Delays; hide E.OpenFor;
    StepExactly(d, Tick(w), entry);
    StepExactly(WithIdleInhibitor(d, id, i), Tick(w), entry);
    IdleBlocksNothing(d, id, i, L.InhibitLock);
    IdleBlocksNothing(d, id, i, L.InhibitSuspend);
    IdleBlocksNothing(d, id, i, L.InhibitShutdown);
    TickDueAlike(d, WithIdleInhibitor(d, id, i), w, entry);
  }

  lemma TickDueAlike(d: State, d': State, w: World, entry: Entry)
    requires d' == d.(locks := d'.locks) && d'.locks == d.locks.(inhibitors := d'.locks.inhibitors)
    requires forall what :: what != L.InhibitIdle ==>
               && L.Blocks(d'.locks, what) == L.Blocks(d.locks, what)
               && L.Delays(d'.locks, what) == L.Delays(d.locks, what)
    ensures Due(d', Tick(w), entry) <==> Due(d, Tick(w), entry)
  {
    hide L.Blocks; hide L.Delays; hide E.OpenFor;
    forall seat, stage ensures Changes(d', Tick(w), seat, stage) <==> Changes(d, Tick(w), seat, stage) {}
    forall s ensures LocksFor(d', Tick(w), s, Idling) <==> LocksFor(d, Tick(w), s, Idling) {}
    forall id, outcome ensures Explains(d', Tick(w), id, outcome) <==> Explains(d, Tick(w), id, outcome) {}
    if entry.Pushed? { EventsAlike(d, d', w, entry.conn, entry.event); }
  }

  lemma EventsAlike(d: State, d': State, w: World, c: ConnId, event: Event)
    requires d' == d.(locks := d'.locks)
    requires forall s :: LocksFor(d', Tick(w), s, Idling) <==> LocksFor(d, Tick(w), s, Idling)
    requires forall id, outcome :: Explains(d', Tick(w), id, outcome) <==> Explains(d, Tick(w), id, outcome)
    requires forall seat, stage :: Changes(d', Tick(w), seat, stage) <==> Changes(d, Tick(w), seat, stage)
    ensures DueEvent(d', Tick(w), c, event) <==> DueEvent(d, Tick(w), c, event)
  {
    hide Changes; hide Explains; hide L.Blocks;
    match event
    case Dim(seat) => forall s ensures Foremost(d', seat, s) <==> Foremost(d, seat, s) {}
    case _ =>
  }
}
