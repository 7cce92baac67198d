/** Where a granted elevation comes from. */
module Provenance {
  import opened Common
  import opened Authentication
  import opened Messages
  import opened DaemonModel
  import opened Histories
  import opened Registry
  import EO = ExactlyOnce
  import E = ElevationModel
  import L = LockModel
  import I = IdleModel
  import S = SessionModel
  import T = SeatModel

  // ---- every open prompt was asked for -------------------------------------------------------

  /** When a prompt opened by this step will time out. */
  function Deadline(d: State, input: Input): Instant
    requires input.Command?
  {
    input.world.now + d.settings.elevation.promptTimeout
  }

  predicate HasDeadline(e: E.Elevation, id: RequestId, deadline: Instant) {
    id in e.promptExpiry && e.promptExpiry[id] == deadline
  }

  /** Prompt `id` is in both, unchanged, deadline included. */
  ghost predicate Kept(e: E.Elevation, e': E.Elevation, id: RequestId) {
    && id in e.pending && id in e'.pending && e'.pending[id] == e.pending[id]
    && (forall deadline :: HasDeadline(e, id, deadline) <==> HasDeadline(e', id, deadline))
  }

  /** The step in which prompt `p`, with this id, was opened: root or the configured
      service asked, for a live session, and it was shown to that session's
      compositor and nobody else. */
  ghost predicate Asks(d: State, input: Input, id: RequestId, p: E.Prompt) {
    && input.Command? && input.request.RequestElevation?
    && input.conn == p.requester && input.request.session == p.session
    && (input.uid == 0 || d.service == Some(input.uid))
    && p.session in d.sessions.live && d.sessions.live[p.session].compositor == Some(p.compositor)
    && id == d.elevation.nextId + 1
    && HasDeadline(Step(d, input).elevation, id, Deadline(d, input))
    && var show := ShowElevationPrompt(id, p.session, input.request.action);
       var shown := Pushed(p.compositor, show, p.compositor in d.registry);
       Step(d, input).log == d.log + [shown] + [PutOff(p.requester, id)]
  }

  /** A request for elevation either opens nothing or opens the next prompt, shown
      to the session's compositor. */
  lemma StartShape(d: State, conn: ConnId, s: SessionId, action: ElevationAction, w: World)
    ensures var (d', reply) := StartElevation(d, conn, s, action, w);
            if reply.Some? then d'.elevation == d.elevation
            else
              && s in d.sessions.live && d.sessions.live[s].compositor.Some?
              && var c := d.sessions.live[s].compositor.value;
                 var id := d.elevation.nextId + 1;
                 && d'.elevation.pending == d.elevation.pending[id := E.Prompt(s, c, conn)] && d'.elevation.nextId == id
                 && d'.elevation.promptExpiry
                    == d.elevation.promptExpiry[id := w.now + d.settings.elevation.promptTimeout]
                 && d'.log == d.log + [Pushed(c, ShowElevationPrompt(id, s, action), c in d.registry)]
  {
    hide E.OpenFor; hide E.IsLockedOut;
  }

  lemma StartOpens(d: State, input: Input, id: RequestId)
    requires input.Command? && input.request.RequestElevation? && id in Step(d, input).elevation.pending
    ensures || Kept(d.elevation, Step(d, input).elevation, id)
            || Asks(d, input, id, Step(d, input).elevation.pending[id])
  {
    hide StartElevation;
    StartShape(d, input.conn, input.request.session, input.request.action, input.world);
  }

  /** Closing keeps what is left as it was. */
  lemma AbandonKeeps(d: State, call: E.Call, ids: set<RequestId>, reason: Reason, order: seq<RequestId>, id: RequestId)
    requires ids <= d.elevation.pending.Keys
    requires call.CAbandonSession? || call.CAbandonConnection? || call.CExpire?
    requires id in Abandon(d, call, ids, reason, order).elevation.pending
    ensures Kept(d.elevation, Abandon(d, call, ids, reason, order).elevation, id)
  {
    hide Abandon;
    GrewAbandon(d, call, ids, reason, order);
  }

  lemma RespondKeeps(d: State, id: RequestId, answer: Answer, w: World, other: RequestId)
    requires other in OnRespondElevation(d, id, answer, w).0.elevation.pending
    ensures Kept(d.elevation, OnRespondElevation(d, id, answer, w).0.elevation, other)
  {
    hide Verdict;
  }

  lemma PendingStep(d: State, input: Input, id: RequestId)
    requires id in Step(d, input).elevation.pending
    ensures || Kept(d.elevation, Step(d, input).elevation, id)
            || Asks(d, input, id, Step(d, input).elevation.pending[id])
  {
    hide Asks; hide Abandon; hide OnRespondElevation; hide StartElevation; hide ApplyChanges;
    match input
    case Disconnected(conn, w) =>
      var gone := d.(registry := d.registry - {conn}, sessions := S.DropConnection(d.sessions, conn));
      var torn := E.Touching(d.elevation, conn);
      AbandonKeeps(gone, E.CAbandonConnection(conn), torn, ConnectionDropped, w.promptOrder, id);
    case Tick(w) =>
      var a := CallIdle(d, I.CTick(w.now, d.settings.idle));
      var changes := Listing(w.changeOrder, I.Changes(d.idle, w.now, d.settings.idle));
      EO.CalmChanges(a, changes, w);
      var c := CallElevation(CallLocks(ApplyChanges(a, changes, w), L.CSweep(w.now)), E.CClearLockouts(w.now));
      AbandonKeeps(c, E.CExpire(w.now), E.Overdue(c.elevation, w.now), TimedOut, w.promptOrder, id);
    case Command(conn, uid, request, w) =>
      if request.RequestElevation? {
        StartOpens(d, input, id);
      } else if request.RespondElevation? {
        if Authorize(d, conn, uid, request, w.account).None? { RespondKeeps(d, request.id, request.answer, w, id); }
      } else if request.TerminateSession? {
        var s := request.session;
        if s in d.sessions.live && Authorize(d, conn, uid, request, w.account).None? {
          var ended := d.(sessions := S.Remove(d.sessions, {s}), seats := T.Detach(d.seats, s));
          AbandonKeeps(ended, E.CAbandonSession(s), E.OpenFor(d.elevation, s), SessionEnded, w.promptOrder, id);
        }
      } else {
        EO.CalmDispatch(d, conn, request, w);
        hide Dispatch;
      }
    case _ =>
  }

  /** Step `j` of the run asked for prompt `p`, and `e` still has the deadline set then. */
  ghost predicate AskedAt(d: State, inputs: seq<Input>, j: nat, id: RequestId, p: E.Prompt, e: E.Elevation)
    requires j < |inputs|
  {
    && Asks(Run(d, inputs[..j]), inputs[j], id, p)
    && inputs[j].Command? && HasDeadline(e, id, Deadline(Run(d, inputs[..j]), inputs[j]))
  }

  /** In every run, every open prompt goes back to the step that asked for it, and times
      out when that step said. */
  lemma {:induction false} EveryPromptWasAsked(d: State, inputs: seq<Input>, id: RequestId)
    requires d.elevation.pending == map[] && id in Run(d, inputs).elevation.pending
    ensures var e := Run(d, inputs).elevation;
            exists j: nat :: j < |inputs| && AskedAt(d, inputs, j, id, e.pending[id], e)
  {
    hide Step; hide Asks; hide HasDeadline;
    var n := |inputs| - 1;
    var before := Run(d, inputs[..n]);
    var e := Run(d, inputs).elevation;
    PendingStep(before, inputs[n], id);
    if Kept(before.elevation, e, id) {
      EveryPromptWasAsked(d, inputs[..n], id);
      var j: nat :| j < n && AskedAt(d, inputs[..n], j, id, before.elevation.pending[id], before.elevation);
      assert inputs[..n][..j] == inputs[..j];
      assert AskedAt(d, inputs, j, id, e.pending[id], e);
    } else {
      AsksSets(before, inputs[n], id, e.pending[id]);
      assert AskedAt(d, inputs, n, id, e.pending[id], e);
    }
  }

  lemma AsksSets(d: State, input: Input, id: RequestId, p: E.Prompt)
    requires Asks(d, input, id, p)
    ensures input.Command? && HasDeadline(Step(d, input).elevation, id, Deadline(d, input))
  {
  }

  // ---- every grant is an accepted password -----------------------------------------------------

  /** A postponed reply that says yes. */
  predicate IsGrant(entry: Entry) {
    entry.Replied? && entry.settles.Postponed? && entry.response == AuthResult(Success)
  }

  ghost predicate NoGrant(log: seq<Entry>, longer: seq<Entry>) {
    log <= longer && forall k :: |log| <= k < |longer| ==> !IsGrant(longer[k])
  }

  lemma {:induction false} NotifyNoGrant(d: State, abandoned: seq<E.Abandoned>, reason: Reason)
    ensures NoGrant(d.log, NotifyAbandoned(d, abandoned, reason).log)
    decreases |abandoned|
  {
    if abandoned != [] {
      var a := abandoned[0];
      var told := Reply(Push(d, a.prompt.compositor, HideElevationPrompt(a.id)),
                        a.prompt.requester, AuthResult(AuthOutcome.Error(reason)), Postponed(a.id));
      NotifyNoGrant(told, abandoned[1..], reason);
    }
  }

  lemma AbandonNoGrant(d: State, call: E.Call, ids: set<RequestId>, reason: Reason, order: seq<RequestId>)
    requires ids <= d.elevation.pending.Keys
    ensures NoGrant(d.log, Abandon(d, call, ids, reason, order).log)
  {
    NotifyNoGrant(CallElevation(d, call), Listed(d.elevation, ids, order), reason);
  }

  /** The step that granted prompt `p`: its own compositor, or root, sent a password
      for it while its session was live, and the authenticator accepted it for that
      session and that session's user. */
  ghost predicate Grants(d: State, input: Input, id: RequestId, p: E.Prompt) {
    && input.Command? && input.request == Request.RespondElevation(id, Password)
    && id in d.elevation.pending && d.elevation.pending[id] == p
    && (input.uid == 0 || input.conn == p.compositor)
    && p.session in d.sessions.live
    && input.world.accepts
    && |d.log| < |Step(d, input).log|
    && Step(d, input).log[|d.log|]
       == Checked(p.session, d.sessions.live[p.session].userName, true, Some(id), d.authenticator)
  }

  /** The entries that answering a prompt adds before the answerer's own reply: at
      most one is a grant, and only an accepted password adds it. */
  lemma RespondEntries(d: State, id: RequestId, answer: Answer, w: World, k: nat)
    requires var log := OnRespondElevation(d, id, answer, w).0.log;
             |d.log| <= k < |log| && IsGrant(log[k])
    ensures var entry := OnRespondElevation(d, id, answer, w).0.log[k];
            && id in d.elevation.pending && entry.settles == Postponed(id)
            && entry.conn == d.elevation.pending[id].requester
            && answer.Password? && w.accepts
            && d.elevation.pending[id].session in d.sessions.live
    ensures d.log <= OnRespondElevation(d, id, answer, w).0.log
    ensures OnRespondElevation(d, id, answer, w).0.log[|d.log|]
         == var s := d.elevation.pending[id].session;
            Checked(s, d.sessions.live[s].userName, true, Some(id), d.authenticator)
  {
    hide E.Apply; hide Verdict;
    var p := d.elevation.pending[id];
    if answer.Password? && p.session in d.sessions.live {
      var r := E.AttemptOutcome(d.elevation, id, w.accepts, d.settings.elevationAuth).value;
      assert r.outcome.Success? <==> w.accepts;
      var userName := d.sessions.live[p.session].userName;
      var checked := d.log + [Checked(p.session, userName, w.accepts, Some(id), d.authenticator)];
      ResolveEntries(d, checked, id, r, OnRespondElevation(d, id, answer, w).0.log, k);
    } else {
      ResolveEntries(d, d.log, id, E.Resolution(p, Cancelled, true), OnRespondElevation(d, id, answer, w).0.log, k);
    }
  }

  lemma ResolveEntries(d: State, log: seq<Entry>, id: RequestId, r: E.Resolution, log': seq<Entry>, k: nat)
    requires d.log <= log && forall i :: |d.log| <= i < |log| ==> !IsGrant(log[i])
    requires exists d0: State :: d0.log == log && Resolve(d0, id, r).log == log'
    requires |d.log| <= k < |log'| && IsGrant(log'[k])
    ensures log <= log' && log'[k].settles == Postponed(id) && log'[k].conn == r.prompt.requester && r.outcome.Success?
  {
  }

  lemma RespondGrants(d: State, input: Input, k: nat)
    requires input.Command? && input.request.RespondElevation?
    requires |d.log| <= k < |Step(d, input).log| && IsGrant(Step(d, input).log[k])
    ensures var entry := Step(d, input).log[k];
            && entry.settles.id in d.elevation.pending
            && entry.conn == d.elevation.pending[entry.settles.id].requester
            && Grants(d, input, entry.settles.id, d.elevation.pending[entry.settles.id])
  {
    hide OnRespondElevation;
    var id := input.request.id;
    var log := OnRespondElevation(d, id, input.request.answer, input.world).0.log;
    if Authorize(d, input.conn, input.uid, input.request, input.world.account).None? && k < |log| {
      RespondEntries(d, id, input.request.answer, input.world, k);
    }
  }

  lemma GrantStep(d: State, input: Input, k: nat)
    requires |d.log| <= k < |Step(d, input).log| && IsGrant(Step(d, input).log[k])
    ensures var entry := Step(d, input).log[k];
            && entry.settles.id in d.elevation.pending
            && entry.conn == d.elevation.pending[entry.settles.id].requester
            && Grants(d, input, entry.settles.id, d.elevation.pending[entry.settles.id])
  {
    if input.Command? && input.request.RespondElevation? {
      RespondGrants(d, input, k);
    } else {
      OthersNoGrant(d, input);
    }
  }

  lemma OthersNoGrant(d: State, input: Input)
    requires !(input.Command? && input.request.RespondElevation?)
    ensures NoGrant(d.log, Step(d, input).log)
  {
    hide Abandon; hide StartElevation; hide ApplyChanges; hide OnTerminateSession; hide Dispatch;
    match input
    case Disconnected(conn, w) =>
      var gone := d.(registry := d.registry - {conn}, sessions := S.DropConnection(d.sessions, conn));
      AbandonNoGrant(gone, E.CAbandonConnection(conn), E.Touching(d.elevation, conn), ConnectionDropped, w.promptOrder);
    case Tick(w) =>
      var a := CallIdle(d, I.CTick(w.now, d.settings.idle));
      var changes := Listing(w.changeOrder, I.Changes(d.idle, w.now, d.settings.idle));
      EO.CalmChanges(a, changes, w);
      var c := CallElevation(CallLocks(ApplyChanges(a, changes, w), L.CSweep(w.now)), E.CClearLockouts(w.now));
      AbandonNoGrant(c, E.CExpire(w.now), E.Overdue(c.elevation, w.now), TimedOut, w.promptOrder);
    case Command(conn, uid, request, w) =>
      if request.RequestElevation? {
        StartNoGrant(d, conn, request, w);
      } else if request.TerminateSession? {
        TerminateNoGrant(d, conn, request.session, w);
      } else {
        EO.CalmDispatch(d, conn, request, w);
      }
    case _ =>
  }

  lemma StartNoGrant(d: State, conn: ConnId, request: Request, w: World)
    requires request.RequestElevation?
    ensures NoGrant(d.log, Dispatch(d, conn, request, w).0.log)
  {
    hide E.Apply; hide E.BeginOutcome;
  }

  lemma TerminateNoGrant(d: State, conn: ConnId, s: SessionId, w: World)
    ensures NoGrant(d.log, Dispatch(d, conn, TerminateSession(s), w).0.log)
  {
    hide Abandon;
    if s in d.sessions.live {
      var ended := d.(sessions := S.Remove(d.sessions, {s}), seats := T.Detach(d.seats, s));
      AbandonNoGrant(ended, E.CAbandonSession(s), E.OpenFor(d.elevation, s), SessionEnded, w.promptOrder);
    }
  }

  // ---- the two together ---------------------------------------------------------------------------

  /** Step `j` asked for the prompt that step `k` granted to `requester`, and the
      session, alive at both, belongs to the same user. */
  ghost predicate AskedAndGranted(boot: State, inputs: seq<Input>, j: nat, k: nat, id: RequestId, p: E.Prompt)
    requires j < k < |inputs|
  {
    var asked, granted := Run(boot, inputs[..j]), Run(boot, inputs[..k]);
    && Asks(asked, inputs[j], id, p)
    && Grants(granted, inputs[k], id, p)
    && S.SameIdentity(asked.sessions.live[p.session], granted.sessions.live[p.session])
  }

  ghost predicate Traceable(boot: State, inputs: seq<Input>, id: RequestId, requester: ConnId) {
    exists j: nat, k: nat, p: E.Prompt ::
      j < k < |inputs| && p.requester == requester && AskedAndGranted(boot, inputs, j, k, id, p)
  }

  lemma GrantedNow(boot: State, inputs: seq<Input>, i: nat)
    requires inputs != [] && boot.elevation.pending == map[] && Numbered(boot.sessions)
    requires var n := |inputs| - 1;
             |Run(boot, inputs[..n]).log| <= i < |Run(boot, inputs).log| && IsGrant(Run(boot, inputs).log[i])
    ensures Traceable(boot, inputs, Run(boot, inputs).log[i].settles.id, Run(boot, inputs).log[i].conn)
  {
    hide Step; hide Asks; hide Grants; hide IsGrant; hide Run; hide Numbered; hide S.SameIdentity;
    var n := |inputs| - 1;
    var before := Run(boot, inputs[..n]);
    RunLast(boot, inputs);
    GrantStep(before, inputs[n], i);
    var entry := Run(boot, inputs).log[i];
    assert entry.Replied? && entry.settles.Postponed? by { GrantShape(entry); }
    var id := entry.settles.id;
    var p := before.elevation.pending[id];
    EveryPromptWasAsked(boot, inputs[..n], id);
    var j: nat :| j < n && AskedAt(boot, inputs[..n], j, id, p, before.elevation);
    assert inputs[..n][..j] == inputs[..j] && inputs[..n][j] == inputs[j];
    var asked := Run(boot, inputs[..j]);
    IdentityLasts(boot, inputs[..j]);
    RunAppend(boot, inputs[..j], inputs[j..n]);
    assert inputs[..j] + inputs[j..n] == inputs[..n];
    IdentityLasts(asked, inputs[j..n]);
    AsksLive(asked, inputs[j], id, p);
    GrantsLive(before, inputs[n], id, p);
    assert AskedAndGranted(boot, inputs, j, n, id, p);
  }

  lemma GrantShape(entry: Entry)
    requires IsGrant(entry)
    ensures entry.Replied? && entry.settles.Postponed?
  {
  }

  lemma AsksLive(d: State, input: Input, id: RequestId, p: E.Prompt)
    requires Asks(d, input, id, p)
    ensures p.session in d.sessions.live
  {
  }

  lemma GrantsLive(d: State, input: Input, id: RequestId, p: E.Prompt)
    requires Grants(d, input, id, p)
    ensures p.session in d.sessions.live
  {
  }

  lemma TraceableLater(boot: State, inputs: seq<Input>, n: nat, id: RequestId, requester: ConnId)
    requires n <= |inputs|
    ensures Traceable(boot, inputs[..n], id, requester) ==> Traceable(boot, inputs, id, requester)
  {
    hide Run; hide Asks; hide Grants;
    if Traceable(boot, inputs[..n], id, requester) {
      var j: nat, k: nat, p: E.Prompt :|
        j < k < n && p.requester == requester && AskedAndGranted(boot, inputs[..n], j, k, id, p);
      assert inputs[..n][..j] == inputs[..j] && inputs[..n][..k] == inputs[..k];
      assert AskedAndGranted(boot, inputs, j, k, id, p);
    }
  }

  /** Provenance of success. In every run, a requester gets a postponed yes only if
      it asked as root or as the configured service, the prompt was shown to the
      session's own compositor, and later that compositor or root sent a password
      which the authenticator accepted for that session under that session's user
      name, the same user as when it was asked. */
  lemma {:induction false} EveryGrantIsTraceable(settings: Settings, service: Option<Uid>, inputs: seq<Input>, i: nat)
    requires var log := Run(Boot(settings, service), inputs).log;
             i < |log| && IsGrant(log[i])
    ensures var entry := Run(Boot(settings, service), inputs).log[i];
            Traceable(Boot(settings, service), inputs, entry.settles.id, entry.conn)
    decreases |inputs|
  {
    hide Step; hide IsGrant; hide Traceable;
    var boot := Boot(settings, service);
    var n := |inputs| - 1;
    var before := Run(boot, inputs[..n]);
    if i < |before.log| {
      LogGrows(before, inputs[n]);
      assert before.log[i] == Run(boot, inputs).log[i];
      EveryGrantIsTraceable(settings, service, inputs[..n], i);
      GrantShape(before.log[i]);
      TraceableLater(boot, inputs, n, before.log[i].settles.id, before.log[i].conn);
    } else {
      GrantedNow(boot, inputs, i);
    }
  }
}
