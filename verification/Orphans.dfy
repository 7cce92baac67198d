/** Open prompts and the sessions they are for. */
module Orphans {
  import opened Common
  import opened Authentication
  import opened Messages
  import opened DaemonModel
  import opened Histories
  import opened Registry
  import Provenance
  import E = ElevationModel
  import ET = ElevationTheorems
  import L = LockModel
  import S = SessionModel
  import T = SeatModel

  /** A prompt that stays open through a step other than one that ends everyone keeps
      its session: ending that session alone would have closed it. */
  lemma SessionStays(d: State, input: Input, id: RequestId)
    requires Numbered(d.sessions) && !EndsEveryone(d, input)
    requires id in d.elevation.pending && d.elevation.pending[id].session in d.sessions.live
    requires id in Step(d, input).elevation.pending
    ensures d.elevation.pending[id].session in Step(d, input).sessions.live
  {
    hide HandleTick; hide HandleDisconnect; hide Dispatch;
    match input
    case Disconnected(conn, w) => DisconnectSessions(d, conn, w);
    case Tick(w) => SameTick(d, w);
    case Command(conn, uid, request, w) =>
      if Authorize(d, conn, uid, request, w.account).None? { SessionStaysCommand(d, conn, request, w, id); }
    case _ =>
  }

  lemma SessionStaysCommand(d: State, conn: ConnId, request: Request, w: World, id: RequestId)
    requires Numbered(d.sessions)
    requires request.Reboot? || request.PowerOff? ==> L.Blocks(d.locks, L.InhibitShutdown)
    requires id in d.elevation.pending && d.elevation.pending[id].session in d.sessions.live
    requires id in Dispatch(d, conn, request, w).0.elevation.pending
    ensures d.elevation.pending[id].session in Dispatch(d, conn, request, w).0.sessions.live
  {
    hide OnTerminateSession; hide OnCreateSession; hide L.Blocks; hide Numbered;
    if request.TerminateSession? {
      TerminateSessions(d, request.session, w);
      if request.session in d.sessions.live { TerminateCloses(d, request.session, w, id); }
    } else if request.CreateSession? {
      CreateEffect(d, request.seatId, request.sessionType, w);
    } else if request.Reboot? || request.PowerOff? {
    } else {
      SameDispatch(d, conn, request, w);
      hide Dispatch;
    }
  }

  lemma TerminateCloses(d: State, s: SessionId, w: World, id: RequestId)
    requires id in OnTerminateSession(d, s, w).0.elevation.pending && s in d.sessions.live
    ensures id in d.elevation.pending && d.elevation.pending[id].session != s
  {
    hide Abandon;
    var ended := d.(sessions := S.Remove(d.sessions, {s}), seats := T.Detach(d.seats, s));
    GrewAbandon(ended, E.CAbandonSession(s), E.OpenFor(d.elevation, s), SessionEnded, w.promptOrder);
  }

  /** Prompt `id` is for a session whose id has been handed out. */
  ghost predicate ForSomeone(d: State, id: RequestId) {
    id in d.elevation.pending ==> d.elevation.pending[id].session < d.sessions.nextId
  }

  /** Whether a prompt open after a step is for a session that is gone. */
  ghost predicate OrphansRight(d: State, d': State, ended: bool, id: RequestId) {
    id in d'.elevation.pending ==>
      var s := d'.elevation.pending[id].session;
      && (s !in d'.sessions.live <==> id in d.elevation.pending && (s !in d.sessions.live || ended))
      && (id !in d.elevation.pending ==> id == d.elevation.nextId + 1)
      && (id in d.elevation.pending ==> d.elevation.pending[id].session == s)
  }

  lemma OrphanStep(d: State, input: Input, id: RequestId)
    requires Numbered(d.sessions) && ET.Consistent(d.elevation) && ForSomeone(d, id)
    ensures ForSomeone(Step(d, input), id)
    ensures OrphansRight(d, Step(d, input), EndsEveryone(d, input), id)
  {
    hide Step; hide Provenance.Asks; hide EndsEveryone;
    SucceedsStep(d, input);
    if id in Step(d, input).elevation.pending {
      Provenance.PendingStep(d, input, id);
      var p := Step(d, input).elevation.pending[id];
      if id in d.elevation.pending && d.elevation.pending[id] == p {
        if EndsEveryone(d, input) {
          EndsAllOnly(d, input);
          EndsOrNot(d, input);
        } else if p.session in d.sessions.live {
          SessionStays(d, input, id);
        }
      } else {
        AskedStays(d, input, id, p);
      }
    }
  }

  lemma EndsAllOnly(d: State, input: Input)
    requires EndsEveryone(d, input)
    ensures EndsAll(input)
  {
  }

  /** The step that asks for a prompt keeps its session alive. */
  lemma AskedStays(d: State, input: Input, id: RequestId, p: E.Prompt)
    requires Numbered(d.sessions) && Provenance.Asks(d, input, id, p)
    ensures p.session in d.sessions.live && p.session in Step(d, input).sessions.live
    ensures id == d.elevation.nextId + 1 && !EndsEveryone(d, input)
  {
    hide StartElevation; hide Finish;
    SucceedsStep(d, input);
    SameElevation(d, input.conn, input.request, input.world);
    FinishSame(Dispatch(d, input.conn, input.request, input.world), input.conn);
  }

  lemma FinishSame(r: (State, Option<Response>), conn: ConnId)
    ensures Finish(r, conn).sessions == r.0.sessions
  {
  }

  /** Step `k` of the run ended every session while prompt `id` was open. */
  ghost predicate OrphanedAt(boot: State, inputs: seq<Input>, k: nat, id: RequestId)
    requires k < |inputs|
  {
    EndsEveryone(Run(boot, inputs[..k]), inputs[k]) && id in Run(boot, inputs[..k]).elevation.pending
  }

  /** Ids already used are below the counter, all along a run. */
  lemma {:induction false} EarlierIds(settings: Settings, service: Option<Uid>, inputs: seq<Input>, k: nat,
                                      id: RequestId)
    requires k <= |inputs| && id in Run(Boot(settings, service), inputs[..k]).elevation.pending
    ensures id <= Run(Boot(settings, service), inputs).elevation.nextId
    decreases |inputs|
  {
    hide Step;
    var boot := Boot(settings, service);
    if k == |inputs| {
      assert inputs[..k] == inputs;
      AlwaysReplayed(settings, service, inputs);
      ET.AlwaysConsistent(Run(boot, inputs).elevationCalls);
    } else {
      var n := |inputs| - 1;
      assert inputs[..n][..k] == inputs[..k];
      EarlierIds(settings, service, inputs[..n], k, id);
      AlwaysReplayed(settings, service, inputs[..n]);
      IdsGrow(Run(boot, inputs[..n]), inputs[n]);
    }
  }

  lemma IdsGrow(d: State, input: Input)
    requires Replayed(d)
    ensures d.elevation.nextId <= Step(d, input).elevation.nextId
  {
    hide Replayed; hide Grew;
    if !input.Reload? {
      GrewStep(d, input);
      hide Step;
      CallsGrowIds(d, Step(d, input));
    }
  }

  lemma CallsGrowIds(d: State, d': State)
    requires Replayed(d) && Grew(d, d')
    ensures d.elevation.nextId <= d'.elevation.nextId
  {
    hide Tallied; hide E.After; hide L.After; hide E.Apply; hide ET.Consistent; hide LockUnder; hide ElevationUnder;
    var more := d'.elevationCalls[|d.elevationCalls|..];
    assert d'.elevationCalls == d.elevationCalls + more;
    E.AfterAppend(E.EMPTY, d.elevationCalls, more);
    ET.AlwaysConsistent(d.elevationCalls);
    ET.IdsNeverReused(d.elevation, more, 0);
  }

  /** In every run, a prompt is open for a session that is gone if and only if a reboot
      or power-off that nothing blocked, or the end of the daemon, came while it was
      open. */
  lemma {:induction false} OrphanedExactly(settings: Settings, service: Option<Uid>, inputs: seq<Input>, id: RequestId)
    requires id in Run(Boot(settings, service), inputs).elevation.pending
    ensures var boot := Boot(settings, service);
            var d := Run(boot, inputs);
            && d.elevation.pending[id].session < d.sessions.nextId
            && (d.elevation.pending[id].session !in d.sessions.live <==>
                  exists k: nat :: k < |inputs| && OrphanedAt(boot, inputs, k, id))
  {
    hide Step; hide EndsEveryone; hide Numbered; hide ET.Consistent; hide Tallied;
    var boot := Boot(settings, service);
    assert inputs != [];
    var n := |inputs| - 1;
    var d := Run(boot, inputs[..n]);
    BootNumbered(settings, service);
    IdentityLasts(boot, inputs[..n]);
    AlwaysReplayed(settings, service, inputs[..n]);
    ET.AlwaysConsistent(d.elevationCalls);
    if id in d.elevation.pending { OrphanedExactly(settings, service, inputs[..n], id); }
    OrphanStep(d, inputs[n], id);
    forall k: nat | k < n ensures OrphanedAt(boot, inputs, k, id) <==> OrphanedAt(boot, inputs[..n], k, id) {
      assert inputs[..n][..k] == inputs[..k];
    }
    assert OrphanedAt(boot, inputs, n, id) <==> EndsEveryone(d, inputs[n]) && id in d.elevation.pending;
    if k: nat :| k < n && OrphanedAt(boot, inputs[..n], k, id) {
      assert OrphanedAt(boot, inputs, k, id);
      assert inputs[..n][..k] == inputs[..k];
      EarlierIds(settings, service, inputs[..n], k, id);
    }
  }

  lemma BootNumbered(settings: Settings, service: Option<Uid>)
    ensures Numbered(Boot(settings, service).sessions)
  {
  }

  /** So in a run without any of those, every open prompt's session is live. */
  lemma PromptsHaveSessions(settings: Settings, service: Option<Uid>, inputs: seq<Input>, id: RequestId)
    requires forall k :: 0 <= k < |inputs| ==> !EndsAll(inputs[k])
    requires id in Run(Boot(settings, service), inputs).elevation.pending
    ensures var d := Run(Boot(settings, service), inputs);
            d.elevation.pending[id].session in d.sessions.live
  {
    hide Run;
    OrphanedExactly(settings, service, inputs, id);
  }
}
