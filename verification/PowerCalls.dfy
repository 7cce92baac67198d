/** How often the power backend is called, and for what. */
module PowerCalls {
  import opened Common
  import opened Authentication
  import opened Messages
  import opened DaemonModel
  import opened Histories
  import opened Authority
  import opened Observables
  import opened PowerSafety
  import E = ElevationModel
  import L = LockModel
  import I = IdleModel
  import S = SessionModel

  function Calls(log: seq<Entry>, kind: PowerKind): nat {
    if log == [] then 0
    else
      var last := log[|log| - 1];
      Calls(log[..|log| - 1], kind) + if last.PowerCall? && last.kind == kind then 1 else 0
  }

  /** The stage changes of a tick that ask to suspend. */
  ghost function Suspending(d: State, w: World): set<I.Change> {
    set c | c in I.Changes(d.idle, w.now, d.settings.idle) && c.stage.SuspendRequested?
  }

  /** How many calls of this kind a step owes: one for a request that nothing blocks, and
      to suspend, one for each seat that has just idled that long. */
  ghost function CallsOwed(d: State, input: Input, kind: PowerKind): nat {
    match kind
    case ToSuspend =>
      if L.Blocks(d.locks, L.InhibitSuspend) then 0
      else if Asked(d, input, Suspend) then 1
      else if input.Tick? then |Suspending(d, input.world)|
      else 0
    case ToReboot => if !L.Blocks(d.locks, L.InhibitShutdown) && Asked(d, input, Reboot) then 1 else 0
    case ToPowerOff => if !L.Blocks(d.locks, L.InhibitShutdown) && Asked(d, input, PowerOff) then 1 else 0
  }

  lemma CallsSnoc(log: seq<Entry>, entry: Entry, kind: PowerKind)
    ensures Calls(log + [entry], kind) == Calls(log, kind) + if entry.PowerCall? && entry.kind == kind then 1 else 0
  {
    assert (log + [entry])[..|log|] == log;
  }

  lemma {:induction false} NoneMore(log: seq<Entry>, longer: seq<Entry>, kind: PowerKind)
    requires NoPower(log, longer)
    ensures Calls(longer, kind) == Calls(log, kind)
    decreases |longer|
  {
    if |longer| == |log| {
      assert longer == log;
    } else {
      NoneMore(log, longer[..|longer| - 1], kind);
    }
  }

  lemma SuspendCalls(d: State, w: World, kind: PowerKind)
    ensures Calls(OnSuspend(d, w).0.log, kind)
         == Calls(d.log, kind) + if kind.ToSuspend? && !L.Blocks(d.locks, L.InhibitSuspend) then 1 else 0
  {
    hide Calls; hide L.Apply; hide L.Blocks; hide L.Delays; hide S.Compositors;
    if !L.Blocks(d.locks, L.InhibitSuspend) {
      var d' := OnSuspend(d, w).0;
      var call := PowerCall(ToSuspend, d.sessions.live.Keys, d'.locks, d.settings.lock, d.settings.grace);
      var told := Broadcast(S.Compositors(d.sessions), PrepareForSleep, d.registry);
      CallsSnoc(d.log, Paused(ToSuspend, d.settings.grace), kind);
      CallsSnoc(Pause(d, ToSuspend).log, told, kind);
      CallsSnoc(Pause(d, ToSuspend).log + [told], call, kind);
    }
  }

  lemma PowerDownCalls(d: State, down: PowerKind, w: World, kind: PowerKind)
    ensures Calls(OnPowerDown(d, down, w).0.log, kind)
         == Calls(d.log, kind) + if kind == down && !L.Blocks(d.locks, L.InhibitShutdown) then 1 else 0
  {
    hide Calls; hide L.Blocks; hide L.Delays;
    if !L.Blocks(d.locks, L.InhibitShutdown) {
      var ended := S.Remove(d.sessions, d.sessions.live.Keys);
      CallsSnoc(d.log, Paused(down, d.settings.grace), kind);
      CallsSnoc(Pause(d, down).log, PowerCall(down, ended.live.Keys, d.locks, d.settings.lock, d.settings.grace), kind);
    }
  }

  function SuspendsIn(changes: seq<I.Change>): nat {
    if changes == [] then 0 else (if changes[0].stage.SuspendRequested? then 1 else 0) + SuspendsIn(changes[1..])
  }

  lemma {:induction false} SuspendsCounted(changes: seq<I.Change>)
    requires NoDuplicates(changes)
    ensures SuspendsIn(changes) == |set c | c in changes && c.stage.SuspendRequested?|
  {
    var asking := set c | c in changes && c.stage.SuspendRequested?;
    if changes == [] {
      assert asking == {};
    } else {
      var rest := changes[1..];
      SuspendsCounted(rest);
      var later := set c | c in rest && c.stage.SuspendRequested?;
      assert changes[0] !in rest;
      assert asking == if changes[0].stage.SuspendRequested? then {changes[0]} + later else later;
    }
  }

  lemma ChangeCalls(d: State, change: I.Change, w: World, kind: PowerKind)
    ensures var d' := ApplyChange(d, change, w);
            && d'.locks.inhibitors == d.locks.inhibitors
            && var one := kind.ToSuspend? && change.stage.SuspendRequested? && !L.Blocks(d.locks, L.InhibitSuspend);
               Calls(d'.log, kind) == Calls(d.log, kind) + if one then 1 else 0
  {
    hide Calls; hide L.Blocks; hide L.Delays; hide LockAndShow;
    var active := ActiveOn(d.seats, change.seat);
    match change.stage
    case StageActive =>
    case Dimmed => NoneMore(d.log, ApplyChange(d, change, w).log, kind);
    case LockRequested =>
      if active.Some? {
        LockNoPower(d, active.value, Idling);
        NoneMore(d.log, LockAndShow(d, active.value, Idling).log, kind);
        LockKeepsInhibitors(d, active.value, Idling);
      }
    case SuspendRequested => SuspendCalls(d, w, kind);
  }

  lemma LockKeepsInhibitors(d: State, s: SessionId, reason: LockReason)
    ensures LockAndShow(d, s, reason).locks.inhibitors == d.locks.inhibitors
  {
  }

  lemma {:induction false} ChangesCalls(d: State, changes: seq<I.Change>, w: World, kind: PowerKind)
    ensures Calls(ApplyChanges(d, changes, w).log, kind)
         == Calls(d.log, kind)
            + if kind.ToSuspend? && !L.Blocks(d.locks, L.InhibitSuspend) then SuspendsIn(changes) else 0
    decreases |changes|
  {
    hide Calls; hide ApplyChange;
    if changes != [] {
      var next := ApplyChange(d, changes[0], w);
      ChangeCalls(d, changes[0], w, kind);
      assert L.Blocks(next.locks, L.InhibitSuspend) == L.Blocks(d.locks, L.InhibitSuspend);
      ChangesCalls(next, changes[1..], w, kind);
    }
  }

  lemma TickCalls(d: State, w: World, kind: PowerKind)
    ensures Calls(HandleTick(d, w).log, kind) == Calls(d.log, kind) + CallsOwed(d, Tick(w), kind)
  {
    hide Calls; hide ApplyChanges; hide Abandon; hide L.Blocks; hide I.Changes; hide SuspendsIn;
    var a := CallIdle(d, I.CTick(w.now, d.settings.idle));
    var changes := Listing(w.changeOrder, I.Changes(d.idle, w.now, d.settings.idle));
    var b := ApplyChanges(a, changes, w);
    ChangesCalls(a, changes, w, kind);
    SuspendsCounted(changes);
    assert Suspending(d, w) == set c | c in changes && c.stage.SuspendRequested? by {
      assert forall c :: c in changes <==> c in (set x | x in changes);
    }
    var c := CallElevation(CallLocks(b, L.CSweep(w.now)), E.CClearLockouts(w.now));
    AbandonNoPower(c, E.CExpire(w.now), E.Overdue(c.elevation, w.now), TimedOut, w.promptOrder);
    NoneMore(c.log, HandleTick(d, w).log, kind);
  }

  lemma CommandCalls(d: State, input: Input, kind: PowerKind)
    requires input.Command?
    ensures Calls(Step(d, input).log, kind) == Calls(d.log, kind) + CallsOwed(d, input, kind)
  {
    hide Calls; hide Dispatch; hide L.Blocks; hide Entitled;
    var conn, uid, request, w := input.conn, input.uid, input.request, input.world;
    PolicyExactly(d, conn, uid, request, w.account);
    if Entitled(d, conn, uid, request, w.account) {
      DispatchCalls(d, conn, request, w, kind);
      NoneMore(Dispatch(d, conn, request, w).0.log, Step(d, input).log, kind);
    } else {
      NoneMore(d.log, Step(d, input).log, kind);
    }
  }

  lemma DispatchCalls(d: State, conn: ConnId, request: Request, w: World, kind: PowerKind)
    ensures Calls(Dispatch(d, conn, request, w).0.log, kind) == Calls(d.log, kind)
         + (if request.Suspend? && kind.ToSuspend? && !L.Blocks(d.locks, L.InhibitSuspend) then 1 else 0)
         + (if (request.Reboot? && kind.ToReboot?) || (request.PowerOff? && kind.ToPowerOff?)
            then if L.Blocks(d.locks, L.InhibitShutdown) then 0 else 1 else 0)
  {
    hide Calls; hide L.Blocks; hide OnSuspend; hide OnPowerDown;
    match request
    case Suspend => SuspendCalls(d, w, kind);
    case Reboot => PowerDownCalls(d, ToReboot, w, kind);
    case PowerOff => PowerDownCalls(d, ToPowerOff, w, kind);
    case _ =>
      DispatchNoPower(d, conn, request, w);
      hide Dispatch;
      NoneMore(d.log, Dispatch(d, conn, request, w).0.log, kind);
  }

  /** Every step calls the backend exactly as often as it owes, kind by kind. */
  lemma CallsExactly(d: State, input: Input, kind: PowerKind)
    ensures Calls(Step(d, input).log, kind) == Calls(d.log, kind) + CallsOwed(d, input, kind)
  {
    hide Calls; hide Abandon; hide HandleTick; hide HandleCommand; hide L.Blocks;
    match input
    case Command(_, _, _, _) => CommandCalls(d, input, kind);
    case Tick(w) => TickCalls(d, w, kind);
    case Disconnected(conn, w) =>
      var gone := d.(registry := d.registry - {conn}, sessions := S.DropConnection(d.sessions, conn));
      AbandonNoPower(gone, E.CAbandonConnection(conn), E.Touching(d.elevation, conn), ConnectionDropped, w.promptOrder);
      NoneMore(d.log, Step(d, input).log, kind);
    case _ =>
  }

  /** What all the steps of a run owe. */
  ghost function TotalOwed(boot: State, inputs: seq<Input>, kind: PowerKind): nat {
    if inputs == [] then 0
    else
      var n := |inputs| - 1;
      TotalOwed(boot, inputs[..n], kind) + CallsOwed(Run(boot, inputs[..n]), inputs[n], kind)
  }

  /** So over every run the backend has been called exactly as often as was owed. */
  lemma {:induction false} RunCalls(settings: Settings, service: Option<Uid>, inputs: seq<Input>, kind: PowerKind)
    ensures var boot := Boot(settings, service);
            Calls(Run(boot, inputs).log, kind) == TotalOwed(boot, inputs, kind)
  {
    hide Step; hide CallsOwed;
    if inputs != [] {
      var n := |inputs| - 1;
      RunCalls(settings, service, inputs[..n], kind);
      CallsExactly(Run(Boot(settings, service), inputs[..n]), inputs[n], kind);
    }
  }
}
