/** Why a requester gets the answer it gets: every postponed reply, whatever it says,
    goes back to the one event that can cause it. */
module Causes {
  import opened Common
  import opened Authentication
  import opened Messages
  import opened DaemonModel
  import opened Histories
  import opened Provenance
  import EO = ExactlyOnce
  import E = ElevationModel
  import L = LockModel
  import I = IdleModel
  import S = SessionModel
  import T = SeatModel

  predicate IsAnswer(entry: Entry) {
    entry.Replied? && entry.settles.Postponed?
  }

  // ---- what causes what ---------------------------------------------------------------------

  /** The prompt's own compositor, or root, gives this answer to it. */
  predicate Answers(d: State, input: Input, id: RequestId, answer: Answer) {
    && input.Command? && input.request == Request.RespondElevation(id, answer)
    && id in d.elevation.pending
    && (input.uid == 0 || input.conn == d.elevation.pending[id].compositor)
  }

  /** The step is the one that explains this outcome for prompt `id`. */
  ghost predicate Explains(d: State, input: Input, id: RequestId, outcome: AuthOutcome) {
    && id in d.elevation.pending
    && var p := d.elevation.pending[id];
       match outcome
       case Success => Answers(d, input, id, Password) && p.session in d.sessions.live && input.world.accepts
       case Cancelled => Answers(d, input, id, Decline)
       case LockedOut(retryAfter) =>
         && Answers(d, input, id, Password) && p.session in d.sessions.live && !input.world.accepts
         && E.GuessesOf(d.elevation, p.session).attempts + 1 >= Budget(d.settings.elevationAuth)
         && retryAfter == d.settings.elevationAuth.lockout
       case Error(TimedOut) =>
         input.Tick? && id in d.elevation.promptExpiry && d.elevation.promptExpiry[id] <= input.world.now
       case Error(SessionEnded) =>
         && input.Command? && input.request == TerminateSession(p.session) && p.session in d.sessions.live
         && Authorize(d, input.conn, input.uid, input.request, input.world.account).None?
       case Error(ConnectionDropped) => input.Disconnected? && input.conn in {p.compositor, p.requester}
       case _ => false
  }

  /** If the entry is an answer, it goes to its prompt's requester and this step explains
      it. */
  ghost predicate Explained(d: State, input: Input, entry: Entry) {
    IsAnswer(entry) ==>
      && entry.response.AuthResult?
      && Explains(d, input, entry.settles.id, entry.response.outcome)
      && entry.conn == d.elevation.pending[entry.settles.id].requester
  }

  ghost predicate AllExplained(d: State, input: Input, log: seq<Entry>, longer: seq<Entry>) {
    log <= longer && forall k :: |log| <= k < |longer| ==> Explained(d, input, longer[k])
  }

  lemma QuietExplained(d: State, input: Input, log: seq<Entry>, longer: seq<Entry>)
    requires QuietlyExtends(log, longer)
    ensures AllExplained(d, input, log, longer)
  {
    hide Explains;
  }

  lemma ExplainedTwice(d: State, input: Input, a: seq<Entry>, b: seq<Entry>, c: seq<Entry>)
    requires AllExplained(d, input, a, b) && AllExplained(d, input, b, c)
    ensures AllExplained(d, input, a, c)
  {
    hide Explained;
  }

  // ---- prompts torn down ------------------------------------------------------------------------

  lemma {:induction false} NotifyExplained(d: State, input: Input, from: State, torn: seq<E.Abandoned>, reason: Reason)
    requires forall k :: 0 <= k < |torn| ==>
               && Explains(d, input, torn[k].id, AuthOutcome.Error(reason))
               && d.elevation.pending[torn[k].id] == torn[k].prompt
    ensures AllExplained(d, input, from.log, NotifyAbandoned(from, torn, reason).log)
    decreases |torn|
  {
    hide Explains;
    if torn != [] {
      var a := torn[0];
      var hidden := Push(from, a.prompt.compositor, HideElevationPrompt(a.id));
      var told := Reply(hidden, a.prompt.requester, AuthResult(AuthOutcome.Error(reason)), Postponed(a.id));
      NotifyExplained(d, input, told, torn[1..], reason);
      assert AllExplained(d, input, from.log, told.log);
      ExplainedTwice(d, input, from.log, told.log, NotifyAbandoned(from, torn, reason).log);
    }
  }

  lemma AbandonExplained(d: State, input: Input, from: State, call: E.Call, ids: set<RequestId>, reason: Reason,
                         order: seq<RequestId>)
    requires ids <= from.elevation.pending.Keys && from.elevation.pending == d.elevation.pending
    requires forall id :: id in ids ==> Explains(d, input, id, AuthOutcome.Error(reason))
    ensures AllExplained(d, input, from.log, Abandon(from, call, ids, reason, order).log)
  {
    hide Explains;
    var torn := Listed(from.elevation, ids, order);
    var listing := Listing(order, ids);
    forall k | 0 <= k < |torn|
      ensures Explains(d, input, torn[k].id, AuthOutcome.Error(reason))
      ensures d.elevation.pending[torn[k].id] == torn[k].prompt
    {
      assert listing[k] in (set x | x in listing);
    }
    NotifyExplained(d, input, CallElevation(from, call), torn, reason);
  }

  lemma DisconnectExplained(d: State, conn: ConnId, w: World)
    ensures AllExplained(d, Disconnected(conn, w), d.log, HandleDisconnect(d, conn, w).log)
  {
    hide Abandon; hide AllExplained;
    var gone := d.(registry := d.registry - {conn}, sessions := S.DropConnection(d.sessions, conn));
    AbandonExplained(d, Disconnected(conn, w), gone, E.CAbandonConnection(conn), E.Touching(d.elevation, conn),
                     ConnectionDropped, w.promptOrder);
  }

  lemma TickExplained(d: State, w: World)
    ensures AllExplained(d, Tick(w), d.log, HandleTick(d, w).log)
  {
    hide Abandon; hide ApplyChanges; hide AllExplained;
    var a := CallIdle(d, I.CTick(w.now, d.settings.idle));
    var changes := Listing(w.changeOrder, I.Changes(d.idle, w.now, d.settings.idle));
    var b := ApplyChanges(a, changes, w);
    EO.CalmChanges(a, changes, w);
    QuietExplained(d, Tick(w), d.log, b.log);
    var c := CallElevation(CallLocks(b, L.CSweep(w.now)), E.CClearLockouts(w.now));
    AbandonExplained(d, Tick(w), c, E.CExpire(w.now), E.Overdue(c.elevation, w.now), TimedOut, w.promptOrder);
    ExplainedTwice(d, Tick(w), d.log, b.log, HandleTick(d, w).log);
  }

  lemma TerminateExplained(d: State, input: Input)
    requires input.Command? && input.request.TerminateSession?
    requires Authorize(d, input.conn, input.uid, input.request, input.world.account).None?
    ensures AllExplained(d, input, d.log, OnTerminateSession(d, input.request.session, input.world).0.log)
  {
    hide Abandon; hide Authorize;
    var s, w := input.request.session, input.world;
    if s in d.sessions.live {
      var ended := d.(sessions := S.Remove(d.sessions, {s}), seats := T.Detach(d.seats, s));
      AbandonExplained(d, input, ended, E.CAbandonSession(s), E.OpenFor(d.elevation, s), SessionEnded, w.promptOrder);
    }
  }

  // ---- prompts answered -------------------------------------------------------------------------

  lemma ResolveExplained(d: State, input: Input, from: State, id: RequestId, r: E.Resolution)
    requires r.terminal ==> Explains(d, input, id, r.outcome) && r.prompt == d.elevation.pending[id]
    ensures AllExplained(d, input, from.log, Resolve(from, id, r).log)
  {
    hide Explains;
  }

  lemma RespondExplained(d: State, input: Input)
    requires input.Command? && input.request.RespondElevation?
    requires Authorize(d, input.conn, input.uid, input.request, input.world.account).None?
    ensures var d' := OnRespondElevation(d, input.request.id, input.request.answer, input.world).0;
            AllExplained(d, input, d.log, d'.log)
  {
    hide E.Apply; hide Resolve; hide Explained;
    var id, w := input.request.id, input.world;
    if id in d.elevation.pending {
      match input.request.answer
      case Decline =>
        var r := E.CancelOutcome(d.elevation, id).value;
        ResolveExplained(d, input, CallElevation(d, E.CCancel(id)), id, r);
      case Password =>
        var s := d.elevation.pending[id].session;
        if s in d.sessions.live {
          var r := E.AttemptOutcome(d.elevation, id, w.accepts, d.settings.elevationAuth).value;
          var checked := Log(d, Checked(s, d.sessions.live[s].userName, w.accepts, Some(id), d.authenticator));
          var called := CallElevation(checked, E.CAttempt(id, w.accepts, d.settings.elevationAuth, w.now));
          ResolveExplained(d, input, called, id, r);
          CheckExplained(d, input, checked.log);
          ExplainedTwice(d, input, d.log, checked.log, Resolve(called, id, r).log);
        }
    }
  }

  lemma CheckExplained(d: State, input: Input, longer: seq<Entry>)
    requires |longer| == |d.log| + 1 && d.log <= longer && longer[|d.log|].Checked?
    ensures AllExplained(d, input, d.log, longer)
  {
  }

  lemma StartExplained(d: State, input: Input)
    requires input.Command? && input.request.RequestElevation?
    ensures var d' := StartElevation(d, input.conn, input.request.session, input.request.action, input.world).0;
            AllExplained(d, input, d.log, d'.log)
  {
    hide E.Apply; hide E.BeginOutcome; hide Explains;
  }

  // ---- every step, every run --------------------------------------------------------------------

  lemma FinishExplained(d: State, input: Input, r: (State, Option<Response>), conn: ConnId)
    ensures AllExplained(d, input, r.0.log, Finish(r, conn).log)
  {
    hide Explains;
  }

  lemma CommandExplained(d: State, input: Input)
    requires input.Command? && Authorize(d, input.conn, input.uid, input.request, input.world.account).None?
    ensures AllExplained(d, input, d.log, Dispatch(d, input.conn, input.request, input.world).0.log)
  {
    hide AllExplained; hide OnTerminateSession; hide OnRespondElevation; hide StartElevation; hide Authorize;
    match input.request
    case TerminateSession(_) => TerminateExplained(d, input);
    case RespondElevation(_, _) => RespondExplained(d, input);
    case RequestElevation(_, _) => StartExplained(d, input);
    case _ =>
      EO.CalmDispatch(d, input.conn, input.request, input.world);
      hide Dispatch;
      QuietExplained(d, input, d.log, Dispatch(d, input.conn, input.request, input.world).0.log);
  }

  lemma StepExplained(d: State, input: Input)
    ensures AllExplained(d, input, d.log, Step(d, input).log)
  {
    hide AllExplained; hide HandleDisconnect; hide HandleTick; hide Dispatch; hide Finish; hide Authorize;
    match input
    case Disconnected(conn, w) => DisconnectExplained(d, conn, w);
    case Tick(w) => TickExplained(d, w);
    case Command(conn, uid, request, w) =>
      var refused := Authorize(d, conn, uid, request, w.account);
      if refused.None? {
        CommandExplained(d, input);
        FinishExplained(d, input, Dispatch(d, conn, request, w), conn);
        ExplainedTwice(d, input, d.log, Dispatch(d, conn, request, w).0.log, Step(d, input).log);
      } else {
        FinishExplained(d, input, (d, Some(Failed(refused.value))), conn);
        EO.FinishIsReply((d, Some(Failed(refused.value))), conn);
      }
    case _ => SameExplained(d, input);
  }

  lemma SameExplained(d: State, input: Input)
    ensures AllExplained(d, input, d.log, d.log)
  {
  }

  /** Step `j` asked for the prompt, for `requester`, and step `k` explains the outcome;
      a timeout not before the deadline that step `j` set. */
  ghost predicate AskedAndExplained(boot: State, inputs: seq<Input>, j: nat, k: nat, id: RequestId, requester: ConnId,
                                    outcome: AuthOutcome)
    requires j < k < |inputs|
  {
    var asked, answered := Run(boot, inputs[..j]), Run(boot, inputs[..k]);
    && Explains(answered, inputs[k], id, outcome)
    && var p := answered.elevation.pending[id];
       && Asks(asked, inputs[j], id, p) && p.requester == requester
       && (outcome == AuthOutcome.Error(TimedOut) ==>
             inputs[j].Command? && inputs[k].Tick? && inputs[k].world.now >= Deadline(asked, inputs[j]))
  }

  ghost predicate HasCause(boot: State, inputs: seq<Input>, entry: Entry)
    requires IsAnswer(entry)
  {
    && entry.response.AuthResult?
    && exists j: nat, k: nat ::
         j < k < |inputs| && AskedAndExplained(boot, inputs, j, k, entry.settles.id, entry.conn, entry.response.outcome)
  }

  lemma CausedNow(boot: State, inputs: seq<Input>, i: nat)
    requires inputs != [] && boot.elevation.pending == map[]
    ensures var before, log := Run(boot, inputs[..|inputs| - 1]).log, Run(boot, inputs).log;
            |before| <= i < |log| && IsAnswer(log[i]) ==> HasCause(boot, inputs, log[i])
  {
    hide Step; hide Asks; hide Run; hide Explains;
    var n := |inputs| - 1;
    var before, log := Run(boot, inputs[..n]), Run(boot, inputs).log;
    if |before.log| <= i < |log| && IsAnswer(log[i]) {
      RunLast(boot, inputs);
      StepExplained(before, inputs[n]);
      var entry := log[i];
      assert Explained(before, inputs[n], entry);
      var id := entry.settles.id;
      ExplainsOpen(before, inputs[n], id, entry.response.outcome);
      EveryPromptWasAsked(boot, inputs[..n], id);
      var j: nat :| j < n && AskedAt(boot, inputs[..n], j, id, before.elevation.pending[id], before.elevation);
      assert inputs[..n][..j] == inputs[..j] && inputs[..n][j] == inputs[j];
      assert AskedAndExplained(boot, inputs, j, n, id, entry.conn, entry.response.outcome);
    }
  }

  lemma ExplainsOpen(d: State, input: Input, id: RequestId, outcome: AuthOutcome)
    requires Explains(d, input, id, outcome)
    ensures id in d.elevation.pending
    ensures outcome == AuthOutcome.Error(TimedOut) ==>
              input.Tick? && id in d.elevation.promptExpiry && d.elevation.promptExpiry[id] <= input.world.now
  {
  }

  lemma CausedLater(boot: State, inputs: seq<Input>, n: nat, entry: Entry)
    requires n <= |inputs| && IsAnswer(entry)
    ensures HasCause(boot, inputs[..n], entry) ==> HasCause(boot, inputs, entry)
  {
    hide Run; hide Asks; hide Explains;
    if HasCause(boot, inputs[..n], entry) {
      var id, outcome := entry.settles.id, entry.response.outcome;
      var j: nat, k: nat :| j < k < n && AskedAndExplained(boot, inputs[..n], j, k, id, entry.conn, outcome);
      assert inputs[..n][..j] == inputs[..j] && inputs[..n][..k] == inputs[..k];
      assert AskedAndExplained(boot, inputs, j, k, id, entry.conn, outcome);
    }
  }

  /** In every run, every postponed reply goes to a requester that asked for that prompt
      and was allowed to, and has its cause: yes, an accepted password; cancelled, a
      decline; locked out, a wrong password that reached the limit; timed out, a tick at
      or past the deadline set when it was asked for; session ended, the termination of
      its session; connection dropped, the loss of one of its two connections. Nothing
      else is ever answered. */
  lemma {:induction false} EveryAnswerHasItsCause(settings: Settings, service: Option<Uid>, inputs: seq<Input>, i: nat)
    requires var log := Run(Boot(settings, service), inputs).log;
             i < |log| && IsAnswer(log[i])
    ensures HasCause(Boot(settings, service), inputs, Run(Boot(settings, service), inputs).log[i])
    decreases |inputs|
  {
    hide Step; hide IsAnswer; hide HasCause;
    var boot := Boot(settings, service);
    var n := |inputs| - 1;
    var before := Run(boot, inputs[..n]);
    if i < |before.log| {
      LogGrows(before, inputs[n]);
      assert before.log[i] == Run(boot, inputs).log[i];
      EveryAnswerHasItsCause(settings, service, inputs[..n], i);
      CausedLater(boot, inputs, n, before.log[i]);
    } else {
      CausedNow(boot, inputs, i);
    }
  }
}
