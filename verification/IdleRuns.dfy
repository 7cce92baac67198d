/** Idle stages read off a run: when somebody was last active, and what a tick makes of it. */
module IdleRuns {
  import opened Common
  import opened Messages
  import opened DaemonModel
  import opened Histories
  import opened Guarantees
  import opened Observables
  import I = IdleModel

  /** When activity on the seat was last reported in these inputs. */
  function LastActive(inputs: seq<Input>, seat: SeatId): Option<Instant> {
    if inputs == [] then None
    else
      var n := |inputs| - 1;
      if inputs[n].Command? && inputs[n].request == ReportActivity(seat) then Some(inputs[n].world.now)
      else LastActive(inputs[..n], seat)
  }

  /** The stage a seat was left at: Active from its last report of activity on, until a
      tick, and then what the time between the two meant under the settings in force. */
  ghost function StageLeft(boot: State, inputs: seq<Input>, seat: SeatId): I.IdleStage {
    if inputs == [] then I.StageActive
    else
      var n := |inputs| - 1;
      match inputs[n]
      case Command(_, _, request, _) =>
        if request == ReportActivity(seat) then I.StageActive else StageLeft(boot, inputs[..n], seat)
      case Tick(w) =>
        (match LastActive(inputs[..n], seat)
         case None => I.StageActive
         case Some(t) => I.StageFor(Run(boot, inputs[..n]).settings.idle, I.Since(t, w.now)))
      case _ => StageLeft(boot, inputs[..n], seat)
  }

  /** The one call a step makes on the detector, if it makes any. */
  ghost function CallMade(d: State, input: Input): Option<I.Call> {
    match input
    case Command(_, _, request, w) => if request.ReportActivity? then Some(I.CActivity(request.seat, w.now)) else None
    case Tick(w) => Some(I.CTick(w.now, d.settings.idle))
    case _ => None
  }

  lemma CallExactly(d: State, input: Input)
    ensures var call := CallMade(d, input);
            Step(d, input).idleCalls == if call.Some? then d.idleCalls + [call.value] else d.idleCalls
  {
    hide Abandon; hide HandleTick; hide Dispatch;
    match input
    case Disconnected(conn, w) => DisconnectIdle(d, conn, w);
    case Tick(w) => IdleSameTick(d, w);
    case Command(conn, uid, request, w) =>
      if request.ReportActivity? {
        IdleReport(d, conn, request, w);
      } else {
        IdleSameDispatch(d, conn, request, w);
      }
    case _ =>
  }

  /** The history of the detector says what the run says. */
  lemma {:induction false} HistoryOfRun(settings: Settings, service: Option<Uid>, inputs: seq<Input>, seat: SeatId)
    ensures var boot := Boot(settings, service);
            var calls := Run(boot, inputs).idleCalls;
            && I.LastActivity(calls, seat) == LastActive(inputs, seat)
            && I.StageSeen(calls, seat) == StageLeft(boot, inputs, seat)
  {
    hide Step; hide I.StageFor; hide I.Since;
    if inputs != [] {
      var boot := Boot(settings, service);
      var n := |inputs| - 1;
      var d := Run(boot, inputs[..n]);
      HistoryOfRun(settings, service, inputs[..n], seat);
      CallExactly(d, inputs[n]);
      var call := CallMade(d, inputs[n]);
      if call.Some? { assert (d.idleCalls + [call.value])[..|d.idleCalls|] == d.idleCalls; }
    }
  }

  /** After any run, a tick changes a seat to a stage if and only if activity has been
      reported on the seat, the time since then implies that stage, and the seat was not
      left at it. */
  lemma TickChangesExactly(settings: Settings, service: Option<Uid>, inputs: seq<Input>, w: World, seat: SeatId,
                           stage: I.IdleStage)
    ensures var boot := Boot(settings, service);
            var d := Run(boot, inputs);
            Changes(d, Tick(w), seat, stage) <==>
              && LastActive(inputs, seat).Some?
              && stage == I.StageFor(d.settings.idle, I.Since(LastActive(inputs, seat).value, w.now))
              && stage != StageLeft(boot, inputs, seat)
  {
    hide Run; hide I.StageFor; hide I.Since; hide I.Changes; hide StageLeft; hide LastActive; hide I.LastActivity;
    hide I.StageSeen; hide I.After; hide Tallied;
    var d := Run(Boot(settings, service), inputs);
    AlwaysReplayed(settings, service, inputs);
    HistoryOfRun(settings, service, inputs, seat);
    I.TickIsStateless(d.idleCalls, w.now, d.settings.idle, seat);
  }

  /** So a tick locks a session for idling if and only if it is the active one of a seat
      on which the last activity, in the run, is at least the lock threshold ago and not
      yet the suspend threshold, each where it is switched on; that seat was not left at
      that stage already; locking on idle is configured and possible; and the user has a
      password. */
  lemma IdleLocksExactly(settings: Settings, service: Option<Uid>, inputs: seq<Input>, w: World, s: SessionId)
    ensures var boot := Boot(settings, service);
            var d := Run(boot, inputs);
            LocksFor(d, Tick(w), s, Idling) <==>
              && CanLock(d) && d.settings.lock.lockOnIdle && HasPassword(d, s, w)
              && exists seat :: Foremost(d, seat, s) && IdledToLock(boot, inputs, w, seat)
  {
    hide Run; hide StageLeft; hide LastActive; hide Changes; hide IdledToLock;
    var boot := Boot(settings, service);
    var d := Run(boot, inputs);
    forall seat ensures Changes(d, Tick(w), seat, I.LockRequested) <==> IdledToLock(boot, inputs, w, seat) {
      TickChangesExactly(settings, service, inputs, w, seat, I.LockRequested);
      LockThreshold(boot, inputs, w, seat);
    }
  }

  /** The seat has been idle for the lock threshold, not for the suspend threshold, and
      this is news. */
  ghost predicate IdledToLock(boot: State, inputs: seq<Input>, w: World, seat: SeatId) {
    var policy := Run(boot, inputs).settings.idle;
    && LastActive(inputs, seat).Some? && StageLeft(boot, inputs, seat) != I.LockRequested
    && var idle := I.Since(LastActive(inputs, seat).value, w.now);
       0 < policy.lockAfter <= idle && !(0 < policy.suspendAfter <= idle)
  }

  lemma LockThreshold(boot: State, inputs: seq<Input>, w: World, seat: SeatId)
    ensures var d := Run(boot, inputs);
            IdledToLock(boot, inputs, w, seat) <==>
              && LastActive(inputs, seat).Some?
              && I.LockRequested == I.StageFor(d.settings.idle, I.Since(LastActive(inputs, seat).value, w.now))
              && I.LockRequested != StageLeft(boot, inputs, seat)
  {
    hide Run; hide StageLeft; hide LastActive; hide I.StageFor; hide I.Since;
    if LastActive(inputs, seat).Some? {
      I.StageThresholds(Run(boot, inputs).settings.idle, I.Since(LastActive(inputs, seat).value, w.now));
    }
  }

  /** And the three stages, by their thresholds, for the events and calls they lead to. */
  lemma StagesByThreshold(settings: Settings, service: Option<Uid>, inputs: seq<Input>, w: World, seat: SeatId)
    ensures var boot := Boot(settings, service);
            var d := Run(boot, inputs);
            var policy := d.settings.idle;
            var left := StageLeft(boot, inputs, seat);
            LastActive(inputs, seat).Some? ==>
              var idle := I.Since(LastActive(inputs, seat).value, w.now);
              var suspend, lock := I.Passed(policy.suspendAfter, idle), I.Passed(policy.lockAfter, idle);
              var dim := I.Passed(policy.dimAfter, idle);
              && (Changes(d, Tick(w), seat, I.SuspendRequested) <==> suspend && left != I.SuspendRequested)
              && (Changes(d, Tick(w), seat, I.LockRequested) <==> lock && !suspend && left != I.LockRequested)
              && (Changes(d, Tick(w), seat, I.Dimmed) <==> dim && !lock && !suspend && left != I.Dimmed)
  {
    hide Run; hide StageLeft; hide LastActive; hide I.StageFor; hide I.Since; hide Changes;
    TickChangesExactly(settings, service, inputs, w, seat, I.SuspendRequested);
    TickChangesExactly(settings, service, inputs, w, seat, I.LockRequested);
    TickChangesExactly(settings, service, inputs, w, seat, I.Dimmed);
    if LastActive(inputs, seat).Some? {
      var policy := Run(Boot(settings, service), inputs).settings.idle;
      I.StageThresholds(policy, I.Since(LastActive(inputs, seat).value, w.now));
    }
  }
}
