/** The log of every step holds exactly what is due in it. */
module ObservableSteps {
  import opened Common
  import opened Authentication
  import opened Messages
  import opened DaemonModel
  import opened Histories
  import opened Authority
  import opened Causes
  import opened Observables
  import Connections
  import Provenance
  import EO = ExactlyOnce
  import Registry
  import E = ElevationModel
  import L = LockModel
  import I = IdleModel
  import S = SessionModel
  import T = SeatModel

  // ---- the entries a log has more than another --------------------------------------------------

  ghost function New(log: seq<Entry>, longer: seq<Entry>): set<Entry> {
    set k | |log| <= k < |longer| :: longer[k]
  }

  lemma NewTwice(a: seq<Entry>, b: seq<Entry>, c: seq<Entry>)
    requires a <= b <= c
    ensures New(a, c) == New(a, b) + New(b, c)
  {
    forall e | e in New(a, c) ensures e in New(a, b) + New(b, c) {
      var k :| |a| <= k < |c| && c[k] == e;
      if k < |b| { assert b[k] == e; }
    }
    forall e | e in New(a, b) ensures e in New(a, c) {
      var k :| |a| <= k < |b| && b[k] == e;
      assert c[k] == e;
    }
  }

  lemma NewOne(log: seq<Entry>, entry: Entry)
    ensures New(log, log + [entry]) == {entry}
    ensures New(log, log) == {}
  {
    assert (log + [entry])[|log|] == entry;
  }

  lemma NewPush(d: State, c: ConnId, event: Event)
    ensures New(d.log, Push(d, c, event).log) == {Pushed(c, event, c in d.registry)}
  {
    NewOne(d.log, Pushed(c, event, c in d.registry));
  }

  lemma NewPushTo(d: State, c: Option<ConnId>, event: Event)
    ensures New(d.log, PushTo(d, c, event).log)
         == if c.Some? then {Pushed(c.value, event, c.value in d.registry)} else {}
  {
    NewOne(d.log, PutOff(0, 0));
    if c.Some? { NewPush(d, c.value, event); }
  }

  // ---- immediate replies ---------------------------------------------------------------------------

  lemma SessionsOfOwned(d: State, uid: Uid)
    ensures SessionsOf(d, uid) == S.OwnedBy(d.sessions, uid)
  {
  }

  lemma PromptsForOpen(d: State, s: SessionId)
    ensures PromptsFor(d, s) == E.OpenFor(d.elevation, s)
  {
  }

  lemma CreateReply(d: State, request: Request, w: World, r: Response)
    requires request.CreateSession?
    ensures OnCreateSession(d, request.seatId, request.sessionType, w).1 == r <==> Owed(d, request, w, r)
  {
    hide T.Attach; hide S.OwnedBy; hide E.OpenFor; hide PromptsFor; hide SessionsOf; hide L.Blocks;
    if w.account.Some? { SessionsOfOwned(d, w.account.value.uid); }
  }

  lemma LockReply(d: State, request: Request, w: World, r: Response)
    requires request.LockSession?
    ensures OnLockSession(d, request.session, w).1 == r <==> Owed(d, request, w, r)
  {
    hide LockAndShow; hide L.Blocks; hide E.OpenFor; hide PromptsFor; hide SessionsOf;
  }

  lemma UnlockReply(d: State, request: Request, w: World, r: Response)
    requires request.Unlock?
    ensures OnUnlock(d, request.session, request.userName, w).1 == r <==> Owed(d, request, w, r)
  {
    hide L.Apply; hide L.Blocks; hide E.OpenFor; hide PromptsFor; hide SessionsOf;
  }

  lemma StartReply(d: State, conn: ConnId, request: Request, w: World, r: Response)
    requires request.RequestElevation?
    ensures var reply := StartElevation(d, conn, request.session, request.action, w).1;
            && (reply == Some(r) <==> Owed(d, request, w, r))
            && (reply == None <==> Prompts(d, request.session, request.action, w))
  {
    hide E.Apply; hide E.OpenFor; hide PromptsFor; hide SessionsOf; hide L.Blocks; hide E.IsLockedOut;
    PromptsForOpen(d, request.session);
  }

  lemma RespondReply(d: State, request: Request, w: World, r: Response)
    requires request.RespondElevation?
    ensures OnRespondElevation(d, request.id, request.answer, w).1 == r <==> Owed(d, request, w, r)
  {
    hide E.Apply; hide L.Blocks; hide Resolve; hide E.OpenFor; hide PromptsFor; hide SessionsOf;
  }

  lemma PowerReply(d: State, request: Request, w: World, r: Response)
    requires request.Suspend? || request.Reboot? || request.PowerOff?
    ensures var reply := if request.Suspend? then OnSuspend(d, w).1 else OnPowerDown(d, ToReboot, w).1;
            reply == r <==> Owed(d, request, w, r)
    ensures OnPowerDown(d, ToPowerOff, w).1 == OnPowerDown(d, ToReboot, w).1
  {
    hide L.Apply; hide L.Blocks; hide L.Delays; hide S.Compositors; hide E.OpenFor; hide PromptsFor; hide SessionsOf;
  }

  lemma SessionReply(d: State, conn: ConnId, request: Request, w: World, r: Response)
    requires request.TerminateSession? || request.RegisterCompositor? || request.SwitchSession?
    ensures Dispatch(d, conn, request, w).1 == Some(r) <==> Owed(d, request, w, r)
  {
    hide Abandon; hide L.IsLocked; hide T.Switch; hide L.Blocks; hide E.OpenFor; hide PromptsFor; hide SessionsOf;
    hide S.Transition; hide T.Detach;
  }

  lemma QueryReply(d: State, conn: ConnId, request: Request, w: World, r: Response)
    requires || request.ListSessions? || request.SessionStatus? || request.ListInhibitors?
             || request.ReportActivity? || request.Inhibit? || request.ReleaseInhibit?
    ensures Dispatch(d, conn, request, w).1 == Some(r) <==> Owed(d, request, w, r)
  {
    hide L.Apply; hide I.Apply; hide L.Blocks; hide E.OpenFor; hide PromptsFor; hide SessionsOf;
    if request.ListSessions? { ListReply(d, request, w, r); }
  }

  lemma ListReply(d: State, request: Request, w: World, r: Response)
    requires request.ListSessions?
    ensures r == SessionList(set s | s in d.sessions.live :: Info(s, d.sessions.live[s])) <==> Owed(d, request, w, r)
  {
    var infos := set s | s in d.sessions.live :: Info(s, d.sessions.live[s]);
    assert forall info: SessionInfo ::
        info in infos <==> info.id in d.sessions.live && Describes(info, d.sessions.live[info.id]) by {
      forall info: SessionInfo | info.id in d.sessions.live && Describes(info, d.sessions.live[info.id])
        ensures info in infos
      {
        assert info == Info(info.id, d.sessions.live[info.id]);
      }
    }
    if r.SessionList? && Owed(d, request, w, r) { assert forall info :: info in r.infos <==> info in infos; }
  }

  /** The reply to a request from someone entitled to it is the one owed, and there is
      none exactly when a prompt is put up instead. */
  lemma ReplyExactly(d: State, conn: ConnId, request: Request, w: World, r: Response)
    ensures Dispatch(d, conn, request, w).1 == Some(r) <==> Owed(d, request, w, r)
    ensures Dispatch(d, conn, request, w).1 == None
       <==> request.RequestElevation? && Prompts(d, request.session, request.action, w)
  {
    hide Owed; hide OnCreateSession; hide OnTerminateSession; hide OnRegisterCompositor; hide OnLockSession;
    hide OnUnlock; hide OnSwitchSession; hide OnSuspend; hide OnPowerDown; hide OnRespondElevation; hide StartElevation;
    hide Prompts;
    match request
    case CreateSession(_, _, _) => CreateReply(d, request, w, r);
    case LockSession(_) => LockReply(d, request, w, r);
    case Unlock(_, _) => UnlockReply(d, request, w, r);
    case RequestElevation(_, _) => StartReply(d, conn, request, w, r);
    case RespondElevation(_, _) => RespondReply(d, request, w, r);
    case Suspend => PowerReply(d, request, w, r);
    case Reboot => PowerReply(d, request, w, r);
    case PowerOff => PowerReply(d, request, w, r);
    case TerminateSession(_) => SessionReply(d, conn, request, w, r);
    case RegisterCompositor(_) => SessionReply(d, conn, request, w, r);
    case SwitchSession(_, _) => SessionReply(d, conn, request, w, r);
    case _ => QueryReply(d, conn, request, w, r);
  }

  // ---- what each command adds before its reply -----------------------------------------------------

  /** Replies to the request at hand, and notes that one is put off, come last. */
  predicate Closes(entry: Entry) {
    entry.PutOff? || (entry.Replied? && entry.settles.Current?)
  }

  /** The entry is new in `d'`, exactly if it is due; closing entries are not there yet,
      and of a call of the backend it is only said that it is due. */
  ghost predicate Right(d: State, input: Input, d': State, entry: Entry) {
    && d.log <= d'.log
    && (Closes(entry) ==> entry !in New(d.log, d'.log))
    && (entry in New(d.log, d'.log) ==> Due(d, input, entry))
    && (Due(d, input, entry) && !Closes(entry) && !entry.PowerCall? ==> entry in New(d.log, d'.log))
  }

  ghost function Told(d: State, c: Option<ConnId>, event: Event): set<Entry> {
    if c.Some? then {Pushed(c.value, event, c.value in d.registry)} else {}
  }

  lemma NewLock(d: State, s: SessionId, reason: LockReason)
    ensures d.log <= LockAndShow(d, s, reason).log
    ensures New(d.log, LockAndShow(d, s, reason).log)
         == if CanLock(d) then Told(d, S.CompositorOf(d.sessions, s), ShowLockScreen(s, reason)) else {}
  {
    hide New; hide L.Apply; hide L.Blocks; hide S.Transition;
    NewOne(d.log, PutOff(0, 0));
    var called := CallLocks(d, L.CLock({s}, d.settings.lock));
    var recorded := called.(sessions := S.Transition(d.sessions, s, S.Locked));
    NewPushTo(recorded, S.CompositorOf(d.sessions, s), ShowLockScreen(s, reason));
  }

  lemma LockRight(d: State, input: Input, entry: Entry)
    requires input.Command? && input.request.LockSession? && Asked(d, input, input.request)
    ensures Right(d, input, OnLockSession(d, input.request.session, input.world).0, entry)
  {
    hide New; hide LockAndShow; hide L.Blocks; hide Explains; hide Entitled; hide L.Delays; hide Owed; hide E.OpenFor;
    hide PromptsFor; hide SessionsOf;
    NewOne(d.log, PutOff(0, 0));
    NewLock(d, input.request.session, Manual);
    NothingExplained(d, input);
  }

  function ResultEvent(s: SessionId, result: AuthOutcome): Event {
    if result.Success? then HideLockScreen(s) else AuthFeedback(s, result)
  }

  lemma NewUnlock(d: State, s: SessionId, name: string, w: World)
    ensures var d' := OnUnlock(d, s, name, w).0;
            var result := UnlockResult(d, s, w);
            && d.log <= d'.log
            && New(d.log, d'.log)
               == (if LockedOutNow(d, s) then {} else {Checked(s, name, w.accepts, None, d.authenticator)})
                  + Told(d, S.CompositorOf(d.sessions, s), ResultEvent(s, result))
  {
    hide New; hide L.Apply; hide S.Transition;
    var checked := Guess(d, s, name, w.accepts);
    NewOne(d.log, Checked(s, name, w.accepts, None, d.authenticator));
    var called := CallLocks(checked, L.CUnlock(s, w.accepts, d.settings.unlockAuth, w.now));
    var recorded := called.(sessions := S.Transition(d.sessions, s, S.Active));
    var result := UnlockResult(d, s, w);
    var c := S.CompositorOf(d.sessions, s);
    NewPushTo(recorded, c, HideLockScreen(s));
    NewPushTo(called, c, AuthFeedback(s, result));
    NewTwice(d.log, checked.log, OnUnlock(d, s, name, w).0.log);
  }

  lemma UnlockRight(d: State, input: Input, entry: Entry)
    requires input.Command? && input.request.Unlock? && Asked(d, input, input.request)
    ensures Right(d, input, OnUnlock(d, input.request.session, input.request.userName, input.world).0, entry)
  {
    hide New; hide OnUnlock; hide L.Blocks; hide Explains; hide Entitled; hide L.Delays; hide Owed; hide UnlockResult;
    hide LockedOutNow; hide E.OpenFor; hide PromptsFor; hide SessionsOf;
    NewUnlock(d, input.request.session, input.request.userName, input.world);
    NothingExplained(d, input);
  }

  lemma RegisterRight(d: State, input: Input, entry: Entry)
    requires input.Command? && input.request.RegisterCompositor? && Asked(d, input, input.request)
    ensures Right(d, input, OnRegisterCompositor(d, input.conn, input.request.session).0, entry)
  {
    hide New; hide L.Blocks; hide Explains; hide Entitled; hide L.Delays; hide Owed; hide S.Transition; hide S.Update;
    hide L.IsLocked; hide E.OpenFor; hide PromptsFor; hide SessionsOf;
    var s := input.request.session;
    NewOne(d.log, Pushed(input.conn, ShowLockScreen(s, Manual), input.conn in d.registry));
    NothingExplained(d, input);
  }

  lemma NewSwitch(d: State, seat: SeatId, s: SessionId)
    ensures var d' := OnSwitchSession(d, seat, s).0;
            && d.log <= d'.log
            && New(d.log, d'.log)
               == if !Registry.OnSeat(d.seats, seat, s) then {}
                  else Told(d, S.CompositorOf(d.sessions, s), SessionActivated(seat, s))
  {
    hide New; hide T.Switch; hide T.HasSession;
    NewOne(d.log, PutOff(0, 0));
    NewPushTo(d.(seats := T.Switch(d.seats, seat, s)), S.CompositorOf(d.sessions, s), SessionActivated(seat, s));
  }

  lemma SwitchRight(d: State, input: Input, entry: Entry)
    requires input.Command? && input.request.SwitchSession? && Asked(d, input, input.request)
    ensures Right(d, input, OnSwitchSession(d, input.request.seat, input.request.session).0, entry)
  {
    hide New; hide L.Blocks; hide Explains; hide Entitled; hide L.Delays; hide Owed; hide OnSwitchSession;
    hide Registry.OnSeat; hide E.OpenFor; hide PromptsFor; hide SessionsOf;
    NewSwitch(d, input.request.seat, input.request.session);
    NothingExplained(d, input);
  }

  lemma NewStart(d: State, conn: ConnId, s: SessionId, action: ElevationAction, w: World)
    ensures var d' := StartElevation(d, conn, s, action, w).0;
            && d.log <= d'.log
            && New(d.log, d'.log)
               == if !Prompts(d, s, action, w) then {}
                  else Told(d, S.CompositorOf(d.sessions, s), ShowElevationPrompt(d.elevation.nextId + 1, s, action))
  {
    hide New; hide E.Apply; hide E.OpenFor; hide PromptsFor; hide SessionsOf; hide E.IsLockedOut;
    PromptsForOpen(d, s);
    NewOne(d.log, PutOff(0, 0));
    if s in d.sessions.live && d.sessions.live[s].compositor.Some? {
      var c := d.sessions.live[s].compositor.value;
      NewOne(d.log, Pushed(c, ShowElevationPrompt(d.elevation.nextId + 1, s, action), c in d.registry));
    }
  }

  lemma StartRight(d: State, input: Input, entry: Entry)
    requires input.Command? && input.request.RequestElevation? && Asked(d, input, input.request)
    ensures var d' := StartElevation(d, input.conn, input.request.session, input.request.action, input.world).0;
            Right(d, input, d', entry)
  {
    hide New; hide L.Blocks; hide Explains; hide Entitled; hide L.Delays; hide Owed; hide StartElevation;
    hide E.OpenFor; hide PromptsFor; hide SessionsOf; hide HasRoom; hide E.IsLockedOut; hide HasPassword;
    NewStart(d, input.conn, input.request.session, input.request.action, input.world);
    NothingExplained(d, input);
  }

  /** The commands that send nothing but their reply. */
  lemma SilentRight(d: State, input: Input, entry: Entry)
    requires input.Command? && Asked(d, input, input.request)
    requires var r := input.request;
             || r.CreateSession? || r.ListSessions? || r.SessionStatus? || r.ReportActivity? || r.Inhibit?
             || r.ReleaseInhibit? || r.ListInhibitors?
    ensures Right(d, input, Dispatch(d, input.conn, input.request, input.world).0, entry)
  {
    hide New; hide L.Blocks; hide Explains; hide Entitled; hide L.Delays; hide Owed; hide L.Apply; hide I.Apply;
    hide OnCreateSession; hide E.OpenFor; hide PromptsFor; hide SessionsOf;
    NewOne(d.log, PutOff(0, 0));
    SameLog(d, input);
    NothingExplained(d, input);
  }

  lemma SameLog(d: State, input: Input)
    requires input.Command?
    requires var r := input.request;
             || r.CreateSession? || r.ListSessions? || r.SessionStatus? || r.ReportActivity? || r.Inhibit?
             || r.ReleaseInhibit? || r.ListInhibitors?
    ensures Dispatch(d, input.conn, input.request, input.world).0.log == d.log
  {
    hide L.Apply; hide I.Apply; hide T.Attach; hide S.Create; hide S.CreateOutcome; hide Info; hide KindOf;
  }

  /** Only answers, terminations, ticks and disconnects end prompts. */
  lemma NothingExplained(d: State, input: Input)
    requires input.Command? && !input.request.RespondElevation? && !input.request.TerminateSession?
    ensures forall id, outcome :: !Explains(d, input, id, outcome)
  {
  }

  // ---- prompts that end ----------------------------------------------------------------------------

  function Dismissal(d: State, id: RequestId, p: E.Prompt): Entry {
    Pushed(p.compositor, HideElevationPrompt(id), p.compositor in d.registry)
  }

  function Settlement(d: State, id: RequestId, p: E.Prompt, outcome: AuthOutcome): Entry {
    Replied(p.requester, AuthResult(outcome), Postponed(id), p.requester in d.registry)
  }

  /** The entry dismisses or settles one of these prompts, with this outcome. */
  ghost predicate Tears(d: State, ids: set<RequestId>, outcome: AuthOutcome, entry: Entry)
    requires ids <= d.elevation.pending.Keys
  {
    exists id :: id in ids &&
      entry in {Dismissal(d, id, d.elevation.pending[id]), Settlement(d, id, d.elevation.pending[id], outcome)}
  }

  lemma {:induction false} NewNotify(d: State, torn: seq<E.Abandoned>, reason: Reason, entry: Entry)
    ensures d.log <= NotifyAbandoned(d, torn, reason).log
    ensures entry in New(d.log, NotifyAbandoned(d, torn, reason).log) <==>
              exists a :: a in torn &&
                entry in {Dismissal(d, a.id, a.prompt), Settlement(d, a.id, a.prompt, AuthOutcome.Error(reason))}
    decreases |torn|
  {
    hide New;
    if torn == [] {
      NewOne(d.log, PutOff(0, 0));
    } else {
      var a := torn[0];
      var hidden := Push(d, a.prompt.compositor, HideElevationPrompt(a.id));
      var told := Reply(hidden, a.prompt.requester, AuthResult(AuthOutcome.Error(reason)), Postponed(a.id));
      NewNotify(told, torn[1..], reason, entry);
      NewOne(d.log, Dismissal(d, a.id, a.prompt));
      NewOne(hidden.log, Settlement(d, a.id, a.prompt, AuthOutcome.Error(reason)));
      NewTwice(d.log, hidden.log, told.log);
      NewTwice(d.log, told.log, NotifyAbandoned(d, torn, reason).log);
      assert forall b :: b in torn <==> b == a || b in torn[1..];
    }
  }

  lemma NewAbandon(d: State, call: E.Call, ids: set<RequestId>, reason: Reason, order: seq<RequestId>, entry: Entry)
    requires ids <= d.elevation.pending.Keys
    ensures d.log <= Abandon(d, call, ids, reason, order).log
    ensures entry in New(d.log, Abandon(d, call, ids, reason, order).log) <==>
              Tears(d, ids, AuthOutcome.Error(reason), entry)
  {
    hide New; hide E.Apply; hide NotifyAbandoned;
    var torn := Listed(d.elevation, ids, order);
    var listing := Listing(order, ids);
    NewNotify(CallElevation(d, call), torn, reason, entry);
    forall id | id in ids ensures E.Abandoned(id, d.elevation.pending[id]) in torn {
      assert id in (set x | x in listing);
      var k :| 0 <= k < |listing| && listing[k] == id;
      assert torn[k] == E.Abandoned(id, d.elevation.pending[id]);
    }
    forall a | a in torn ensures a.id in ids && a.prompt == d.elevation.pending[a.id] {
      var k :| 0 <= k < |torn| && torn[k] == a;
      assert listing[k] in (set x | x in listing);
    }
  }

  /** The prompts a step ends, and how. */
  lemma EndedExactly(d: State, input: Input, id: RequestId, outcome: AuthOutcome)
    ensures input.Disconnected? ==>
              (Explains(d, input, id, outcome) <==>
                 id in E.Touching(d.elevation, input.conn) && outcome == AuthOutcome.Error(ConnectionDropped))
    ensures input.Tick? ==>
              (Explains(d, input, id, outcome) <==>
                 id in E.Overdue(d.elevation, input.world.now) && outcome == AuthOutcome.Error(TimedOut))
    ensures input.Command? && input.request.TerminateSession? && Asked(d, input, input.request) ==>
              (Explains(d, input, id, outcome) <==>
                 && id in E.OpenFor(d.elevation, input.request.session) && input.request.session in d.sessions.live
                 && outcome == AuthOutcome.Error(SessionEnded))
    ensures input.Command? && input.request.RespondElevation? && Asked(d, input, input.request) ==>
              (Explains(d, input, id, outcome) <==>
                 && id == input.request.id && id in d.elevation.pending
                 && AnswerResult(d, id, input.request.answer, input.world) == Some(outcome) && !outcome.Failure?)
    ensures input.Connected? || input.ChildExit? || input.Reload? || input.Terminate? ==>
              !Explains(d, input, id, outcome)
  {
    if input.Command? { PolicyExactly(d, input.conn, input.uid, input.request, input.world.account); }
  }

  lemma DisconnectRight(d: State, input: Input, entry: Entry)
    requires input.Disconnected?
    ensures Right(d, input, HandleDisconnect(d, input.conn, input.world), entry)
  {
    hide New; hide Abandon; hide Explains; hide Owed; hide E.Touching;
    var gone := d.(registry := d.registry - {input.conn}, sessions := S.DropConnection(d.sessions, input.conn));
    var ids := E.Touching(d.elevation, input.conn);
    assert ids <= d.elevation.pending.Keys by { TouchingOpen(d.elevation, input.conn); }
    NewAbandon(gone, E.CAbandonConnection(input.conn), ids, ConnectionDropped, input.world.promptOrder, entry);
    forall id, outcome
      ensures Explains(d, input, id, outcome) <==> id in ids && outcome == AuthOutcome.Error(ConnectionDropped)
    {
      EndedExactly(d, input, id, outcome);
    }
    TearsRight(d, gone, input, ids, ConnectionDropped, entry);
  }

  lemma TouchingOpen(e: E.Elevation, conn: ConnId)
    ensures E.Touching(e, conn) <= e.pending.Keys
  {
  }

  /** Tearing down exactly the prompts whose end the step explains is right for it. */
  lemma TearsRight(d: State, from: State, input: Input, ids: set<RequestId>, reason: Reason, entry: Entry)
    requires ids <= from.elevation.pending.Keys && from.elevation.pending == d.elevation.pending
    requires from.registry == Outboxes(d, input)
    requires forall id, outcome ::
               Explains(d, input, id, outcome) <==> id in ids && outcome == AuthOutcome.Error(reason)
    ensures Tears(from, ids, AuthOutcome.Error(reason), entry) <==>
              && Due(d, input, entry)
              && ((entry.Pushed? && entry.event.HideElevationPrompt?) || (entry.Replied? && entry.settles.Postponed?))
  {
    hide Explains; hide Owed; hide Entitled; hide L.Blocks; hide L.Delays;
    if Tears(from, ids, AuthOutcome.Error(reason), entry) {
      var id :| id in ids && entry in {Dismissal(from, id, from.elevation.pending[id]),
                                       Settlement(from, id, from.elevation.pending[id], AuthOutcome.Error(reason))};
      assert Explains(d, input, id, AuthOutcome.Error(reason));
    }
  }

  lemma TerminateRight(d: State, input: Input, entry: Entry)
    requires input.Command? && input.request.TerminateSession? && Asked(d, input, input.request)
    ensures Right(d, input, OnTerminateSession(d, input.request.session, input.world).0, entry)
  {
    hide New; hide Abandon; hide Explains; hide Owed; hide E.OpenFor; hide PromptsFor; hide SessionsOf; hide Entitled;
    hide L.Blocks; hide L.Delays;
    var s, w := input.request.session, input.world;
    var ids := if s in d.sessions.live then E.OpenFor(d.elevation, s) else {};
    forall id, outcome
      ensures Explains(d, input, id, outcome) <==> id in ids && outcome == AuthOutcome.Error(SessionEnded)
    {
      EndedExactly(d, input, id, outcome);
    }
    OpenForOpen(d.elevation, s);
    TearsRight(d, d, input, ids, SessionEnded, entry);
    NewOne(d.log, PutOff(0, 0));
    if s in d.sessions.live {
      var ended := d.(sessions := S.Remove(d.sessions, {s}), seats := T.Detach(d.seats, s));
      NewAbandon(ended, E.CAbandonSession(s), ids, SessionEnded, w.promptOrder, entry);
      assert Tears(ended, ids, AuthOutcome.Error(SessionEnded), entry) <==>
             Tears(d, ids, AuthOutcome.Error(SessionEnded), entry);
    }
  }

  lemma OpenForOpen(e: E.Elevation, s: SessionId)
    ensures E.OpenFor(e, s) <= e.pending.Keys
  {
  }

  /** What answering the open prompt `id` adds. */
  ghost function AnswerEntries(d: State, id: RequestId, answer: Answer, w: World): set<Entry>
    requires id in d.elevation.pending
  {
    var p := d.elevation.pending[id];
    var result := AnswerResult(d, id, answer, w);
    if result.None? then {}
    else
      (if answer.Decline? then {}
       else {Checked(p.session, d.sessions.live[p.session].userName, w.accepts, Some(id), d.authenticator)})
      + {Pushed(p.compositor, ElevationFeedback(id, result.value), p.compositor in d.registry)}
      + (if result.value.Failure? then {} else {Dismissal(d, id, p), Settlement(d, id, p, result.value)})
  }

  lemma NewResolve(d: State, id: RequestId, res: E.Resolution)
    ensures d.log <= Resolve(d, id, res).log
    ensures New(d.log, Resolve(d, id, res).log)
         == {Pushed(res.prompt.compositor, ElevationFeedback(id, res.outcome), res.prompt.compositor in d.registry)}
            + (if res.terminal then {Dismissal(d, id, res.prompt), Settlement(d, id, res.prompt, res.outcome)} else {})
  {
    hide New;
    var told := Push(d, res.prompt.compositor, ElevationFeedback(id, res.outcome));
    var hidden := Push(told, res.prompt.compositor, HideElevationPrompt(id));
    NewPush(d, res.prompt.compositor, ElevationFeedback(id, res.outcome));
    NewPush(told, res.prompt.compositor, HideElevationPrompt(id));
    NewOne(hidden.log, Settlement(d, id, res.prompt, res.outcome));
    if res.terminal {
      NewTwice(told.log, hidden.log, Resolve(d, id, res).log);
      NewTwice(d.log, told.log, Resolve(d, id, res).log);
    }
  }

  lemma NewRespond(d: State, id: RequestId, answer: Answer, w: World)
    ensures var d' := OnRespondElevation(d, id, answer, w).0;
            && d.log <= d'.log
            && New(d.log, d'.log) == if id in d.elevation.pending then AnswerEntries(d, id, answer, w) else {}
  {
    hide New; hide Resolve; hide E.Apply;
    NewOne(d.log, PutOff(0, 0));
    if id in d.elevation.pending {
      match answer
      case Decline => NewResolve(CallElevation(d, E.CCancel(id)), id, E.CancelOutcome(d.elevation, id).value);
      case Password =>
        var s := d.elevation.pending[id].session;
        if s in d.sessions.live {
          var res := E.AttemptOutcome(d.elevation, id, w.accepts, d.settings.elevationAuth).value;
          var entry := Checked(s, d.sessions.live[s].userName, w.accepts, Some(id), d.authenticator);
          var called := CallElevation(Log(d, entry), E.CAttempt(id, w.accepts, d.settings.elevationAuth, w.now));
          NewOne(d.log, entry);
          NewResolve(called, id, res);
          NewTwice(d.log, called.log, Resolve(called, id, res).log);
        }
    }
  }

  /** An answer from someone entitled to it explains its own outcome, if final. */
  lemma AnswerExplains(d: State, input: Input)
    requires input.Command? && input.request.RespondElevation? && AnswersPrompt(d, input, input.request.id)
    ensures forall i, outcome :: Explains(d, input, i, outcome) <==>
              && i == input.request.id && i in d.elevation.pending
              && AnswerResult(d, i, input.request.answer, input.world) == Some(outcome) && !outcome.Failure?
  {
    hide Explains; hide AnswerResult; hide Entitled;
    forall i, outcome
      ensures Explains(d, input, i, outcome) <==>
                && i == input.request.id && i in d.elevation.pending
                && AnswerResult(d, i, input.request.answer, input.world) == Some(outcome) && !outcome.Failure?
    {
      EndedExactly(d, input, i, outcome);
    }
  }

  lemma RespondPushes(d: State, input: Input, entry: Entry)
    requires input.Command? && input.request.RespondElevation? && AnswersPrompt(d, input, input.request.id)
    requires entry.Pushed?
    ensures var id := input.request.id;
            Due(d, input, entry) <==>
              id in d.elevation.pending && entry in AnswerEntries(d, id, input.request.answer, input.world)
  {
    hide Explains; hide AnswerResult; hide Entitled; hide L.Blocks; hide DueReply;
    AnswerExplains(d, input);
    var id := input.request.id;
    if id in d.elevation.pending {
      var result := AnswerResult(d, id, input.request.answer, input.world);
      if result.Some? && !result.value.Failure? { assert Explains(d, input, id, result.value); }
    }
  }

  lemma RespondRest(d: State, input: Input, entry: Entry)
    requires input.Command? && input.request.RespondElevation? && AnswersPrompt(d, input, input.request.id)
    requires !entry.Pushed? && !Closes(entry)
    ensures var id := input.request.id;
            Due(d, input, entry) <==>
              id in d.elevation.pending && entry in AnswerEntries(d, id, input.request.answer, input.world)
  {
    hide Explains; hide Entitled; hide L.Blocks; hide L.Delays; hide DueEvent; hide Owed; hide GuessOutcome;
    AnswerExplains(d, input);
  }

  lemma RespondRight(d: State, input: Input, entry: Entry)
    requires input.Command? && input.request.RespondElevation? && Asked(d, input, input.request)
    ensures Right(d, input, OnRespondElevation(d, input.request.id, input.request.answer, input.world).0, entry)
  {
    hide New; hide OnRespondElevation; hide Due; hide AnswerResult; hide Entitled;
    NewRespond(d, input.request.id, input.request.answer, input.world);
    if entry.Pushed? {
      RespondPushes(d, input, entry);
    } else if !Closes(entry) {
      RespondRest(d, input, entry);
    }
  }

  // ---- power ----------------------------------------------------------------------------------------

  lemma NewPause(d: State, kind: PowerKind)
    ensures d.log <= Pause(d, kind).log
    ensures New(d.log, Pause(d, kind).log)
         == if L.Delays(d.locks, Holding(kind)) then {Paused(kind, d.settings.grace)} else {}
  {
    hide New; hide L.Delays;
    NewOne(d.log, Paused(kind, d.settings.grace));
  }

  /** The entry is one a suspend adds that calls the backend with these locks. */
  predicate SuspendEntry(d: State, locks: L.Locks, entry: Entry) {
    || entry == Broadcast(S.Compositors(d.sessions), PrepareForSleep, d.registry)
    || (L.Delays(d.locks, L.InhibitSuspend) && entry == Paused(ToSuspend, d.settings.grace))
    || entry == PowerCall(ToSuspend, d.sessions.live.Keys, locks, d.settings.lock, d.settings.grace)
  }

  lemma NewSuspend(d: State, w: World, entry: Entry)
    ensures var d' := OnSuspend(d, w).0;
            && d.log <= d'.log
            && (entry in New(d.log, d'.log) <==>
                  !L.Blocks(d.locks, L.InhibitSuspend) && SuspendEntry(d, d'.locks, entry))
  {
    hide New; hide L.Apply; hide L.Blocks; hide L.Delays; hide S.Compositors;
    NewOne(d.log, PutOff(0, 0));
    if !L.Blocks(d.locks, L.InhibitSuspend) {
      var d' := OnSuspend(d, w).0;
      var waited := Pause(d, ToSuspend).log;
      var told := Broadcast(S.Compositors(d.sessions), PrepareForSleep, d.registry);
      var call := PowerCall(ToSuspend, d.sessions.live.Keys, d'.locks, d.settings.lock, d.settings.grace);
      NewPause(d, ToSuspend);
      NewOne(waited, told);
      NewOne(waited + [told], call);
      NewTwice(d.log, waited, waited + [told]);
      NewTwice(d.log, waited + [told], d'.log);
    }
  }

  lemma CompositorsExactly(d: State, to: map<SessionId, ConnId>)
    ensures EveryCompositor(d, to) <==> to == S.Compositors(d.sessions)
  {
    if EveryCompositor(d, to) { assert to == S.Compositors(d.sessions); }
  }

  lemma SuspendRight(d: State, input: Input, entry: Entry)
    requires input.Command? && input.request.Suspend? && Asked(d, input, input.request)
    ensures Right(d, input, OnSuspend(d, input.world).0, entry)
  {
    hide New; hide OnSuspend; hide Explains; hide Owed; hide Entitled; hide L.Blocks; hide L.Delays;
    hide EveryCompositor; hide S.Compositors; hide E.OpenFor; hide PromptsFor; hide SessionsOf;
    NewSuspend(d, input.world, entry);
    NothingExplained(d, input);
    if entry.Broadcast? { CompositorsExactly(d, entry.to); }
  }

  lemma NewPowerDown(d: State, kind: PowerKind, w: World)
    ensures var d' := OnPowerDown(d, kind, w).0;
            && d.log <= d'.log
            && New(d.log, d'.log)
               == if L.Blocks(d.locks, L.InhibitShutdown) then {}
                  else (if L.Delays(d.locks, Holding(kind)) then {Paused(kind, d.settings.grace)} else {})
                       + {PowerCall(kind, {}, d.locks, d.settings.lock, d.settings.grace)}
  {
    hide New; hide L.Blocks; hide L.Delays;
    NewOne(d.log, PutOff(0, 0));
    if !L.Blocks(d.locks, L.InhibitShutdown) {
      var waited := Pause(d, kind).log;
      var call := PowerCall(kind, {}, d.locks, d.settings.lock, d.settings.grace);
      assert S.Remove(d.sessions, d.sessions.live.Keys).live.Keys == {};
      NewPause(d, kind);
      NewOne(waited, call);
      NewTwice(d.log, waited, OnPowerDown(d, kind, w).0.log);
    }
  }

  lemma PowerDownRight(d: State, input: Input, kind: PowerKind, entry: Entry)
    requires input.Command? && Asked(d, input, input.request)
    requires (input.request.Reboot? && kind.ToReboot?) || (input.request.PowerOff? && kind.ToPowerOff?)
    ensures Right(d, input, OnPowerDown(d, kind, input.world).0, entry)
  {
    hide New; hide Explains; hide Owed; hide Entitled; hide L.Blocks; hide L.Delays; hide EveryCompositor;
    hide E.OpenFor; hide PromptsFor; hide SessionsOf; hide OnPowerDown;
    NewPowerDown(d, kind, input.world);
    NothingExplained(d, input);
  }

  // ---- ticks ----------------------------------------------------------------------------------------

  /** The entry is one that acting on this change adds. */
  ghost predicate ChangeDue(d: State, change: I.Change, w: World, entry: Entry) {
    var active := ActiveOn(d.seats, change.seat);
    match change.stage
    case StageActive => false
    case Dimmed => active.Some? && entry in Told(d, S.CompositorOf(d.sessions, active.value), Dim(change.seat))
    case LockRequested =>
      && active.Some? && CanLock(d) && d.settings.lock.lockOnIdle && HasPassword(d, active.value, w)
      && entry in Told(d, S.CompositorOf(d.sessions, active.value), ShowLockScreen(active.value, Idling))
    case SuspendRequested =>
      && !L.Blocks(d.locks, L.InhibitSuspend)
      && (SuspendEntry(d, d.locks, entry) || (entry.PowerCall? && SuspendEntry(d, entry.locks, entry)))
  }

  /** Whatever decides what a change adds is the same. */
  ghost predicate SameAround(d: State, d': State) {
    && d'.settings == d.settings && d'.seats == d.seats && d'.registry == d.registry
    && d'.locks.inhibitors == d.locks.inhibitors && d'.sessions.live.Keys == d.sessions.live.Keys
    && S.Compositors(d'.sessions) == S.Compositors(d.sessions)
    && (forall s :: S.CompositorOf(d'.sessions, s) == S.CompositorOf(d.sessions, s))
    && (forall s :: s in d.sessions.live ==> d'.sessions.live[s].userName == d.sessions.live[s].userName)
  }

  lemma LockSameAround(d: State, s: SessionId, reason: LockReason)
    ensures SameAround(d, LockAndShow(d, s, reason))
  {
    hide L.MayLock; hide S.Transition; hide S.Compositors; hide S.CompositorOf;
    TransitionKeeps(d.sessions, s, S.Locked);
  }

  lemma TransitionKeeps(r: S.Sessions, s: SessionId, to: S.SessionState)
    ensures var r' := S.Transition(r, s, to);
            && r'.live.Keys == r.live.Keys && S.Compositors(r') == S.Compositors(r)
            && (forall t :: S.CompositorOf(r', t) == S.CompositorOf(r, t))
            && (forall t :: t in r.live ==> r'.live[t].userName == r.live[t].userName)
  {
    hide S.Moved;
    assert S.Compositors(S.Transition(r, s, to)) == S.Compositors(r);
  }

  lemma ChangeSameAround(d: State, change: I.Change, w: World)
    ensures SameAround(d, ApplyChange(d, change, w))
  {
    hide LockAndShow; hide L.MayLock; hide L.Blocks; hide L.Delays;
    var active := ActiveOn(d.seats, change.seat);
    if change.stage.LockRequested? && active.Some? { LockSameAround(d, active.value, Idling); }
  }

  lemma ChangeDueAround(d: State, d': State, change: I.Change, w: World, entry: Entry)
    requires SameAround(d, d')
    ensures ChangeDue(d', change, w, entry) <==> ChangeDue(d, change, w, entry)
  {
    assert L.Blocks(d'.locks, L.InhibitSuspend) == L.Blocks(d.locks, L.InhibitSuspend);
    assert L.Blocks(d'.locks, L.InhibitLock) == L.Blocks(d.locks, L.InhibitLock);
    assert L.Delays(d'.locks, L.InhibitSuspend) == L.Delays(d.locks, L.InhibitSuspend);
    hide S.Compositors; hide S.CompositorOf;
  }

  /** The entries new in `longer` are those that are due, calls of the backend aside. */
  ghost predicate Matches(log: seq<Entry>, longer: seq<Entry>, entry: Entry, due: bool) {
    && log <= longer
    && (entry in New(log, longer) ==> due)
    && (due && !entry.PowerCall? ==> entry in New(log, longer))
  }

  lemma NewChange(d: State, change: I.Change, w: World, entry: Entry)
    ensures Matches(d.log, ApplyChange(d, change, w).log, entry, ChangeDue(d, change, w, entry))
  {
    hide New; hide LockAndShow; hide OnSuspend; hide L.Blocks; hide L.Delays; hide S.Compositors;
    NewOne(d.log, PutOff(0, 0));
    var active := ActiveOn(d.seats, change.seat);
    match change.stage
    case StageActive =>
    case Dimmed => if active.Some? { NewPushTo(d, S.CompositorOf(d.sessions, active.value), Dim(change.seat)); }
    case LockRequested => if active.Some? { NewLock(d, active.value, Idling); }
    case SuspendRequested => NewSuspend(d, w, entry);
  }

  ghost predicate AnyDue(d: State, changes: seq<I.Change>, w: World, entry: Entry) {
    exists c :: c in changes && ChangeDue(d, c, w, entry)
  }

  lemma {:induction false} NewChanges(d: State, changes: seq<I.Change>, w: World, entry: Entry)
    ensures Matches(d.log, ApplyChanges(d, changes, w).log, entry, AnyDue(d, changes, w, entry))
    decreases |changes|
  {
    hide New; hide ApplyChange; hide ChangeDue; hide SameAround;
    if changes == [] {
      NewOne(d.log, PutOff(0, 0));
    } else {
      var first, rest := changes[0], changes[1..];
      var next := ApplyChange(d, first, w);
      NewChange(d, first, w, entry);
      NewChanges(next, rest, w, entry);
      NewTwice(d.log, next.log, ApplyChanges(d, changes, w).log);
      ChangeSameAround(d, first, w);
      forall c ensures ChangeDue(next, c, w, entry) <==> ChangeDue(d, c, w, entry) {
        ChangeDueAround(d, next, c, w, entry);
      }
      assert forall c :: c in changes <==> c == first || c in rest;
    }
  }

  /** A tick's changes account for all that is due in it but the prompts that time out. */
  lemma TickDue(d: State, w: World, changes: seq<I.Change>, entry: Entry)
    requires Lists(changes, I.Changes(d.idle, w.now, d.settings.idle))
    requires !Closes(entry) && !(entry.Pushed? && entry.event.HideElevationPrompt?) && !entry.Replied?
    ensures AnyDue(d, changes, w, entry) <==> Due(d, Tick(w), entry)
  {
    hide L.Blocks; hide L.Delays; hide I.Changes; hide Explains; hide S.Compositors; hide EveryCompositor;
    hide HasPassword;
    var all := I.Changes(d.idle, w.now, d.settings.idle);
    assert forall c :: c in changes <==> c in all by {
      assert forall c :: c in changes <==> c in (set x | x in changes);
    }
    if entry.Broadcast? { CompositorsExactly(d, entry.to); }
    if AnyDue(d, changes, w, entry) {
      var c :| c in changes && ChangeDue(d, c, w, entry);
      assert Changes(d, Tick(w), c.seat, c.stage);
      var active := ActiveOn(d.seats, c.seat);
      if active.Some? { assert Foremost(d, c.seat, active.value); }
    }
    if Due(d, Tick(w), entry) { DueHasChange(d, w, entry); }
  }

  lemma DueHasChange(d: State, w: World, entry: Entry)
    requires Due(d, Tick(w), entry)
    requires !Closes(entry) && !(entry.Pushed? && entry.event.HideElevationPrompt?) && !entry.Replied?
    ensures exists c :: c in I.Changes(d.idle, w.now, d.settings.idle) && ChangeDue(d, c, w, entry)
  {
    hide L.Blocks; hide L.Delays; hide I.Changes; hide Explains; hide S.Compositors; hide EveryCompositor;
    hide HasPassword;
    var all := I.Changes(d.idle, w.now, d.settings.idle);
    if entry.Pushed? {
      match entry.event
      case ShowLockScreen(s, _) =>
        var seat :| Changes(d, Tick(w), seat, I.LockRequested) && Foremost(d, seat, s);
        assert I.Change(seat, I.LockRequested) in all && ChangeDue(d, I.Change(seat, I.LockRequested), w, entry);
      case Dim(seat) =>
        var s :| Foremost(d, seat, s) && DisplayedOn(d, s, entry.conn);
        assert I.Change(seat, I.Dimmed) in all && ChangeDue(d, I.Change(seat, I.Dimmed), w, entry);
      case _ =>
    } else {
      if entry.Broadcast? { CompositorsExactly(d, entry.to); }
      var seat :| Changes(d, Tick(w), seat, I.SuspendRequested);
      assert I.Change(seat, I.SuspendRequested) in all && ChangeDue(d, I.Change(seat, I.SuspendRequested), w, entry);
    }
  }

  predicate EndsPrompt(entry: Entry) {
    (entry.Pushed? && entry.event.HideElevationPrompt?) || (entry.Replied? && entry.settles.Postponed?)
  }

  lemma ChangesEndNothing(d: State, changes: seq<I.Change>, w: World, entry: Entry)
    requires EndsPrompt(entry) || Closes(entry)
    ensures !AnyDue(d, changes, w, entry)
  {
  }

  lemma TickRight(d: State, w: World, entry: Entry)
    ensures Right(d, Tick(w), HandleTick(d, w), entry)
  {
    hide New; hide Abandon; hide ApplyChanges; hide Due; hide ChangeDue; hide I.Changes; hide E.Overdue; hide Explains;
    hide AnyDue; hide Tears;
    var a := CallIdle(d, I.CTick(w.now, d.settings.idle));
    var changes := Listing(w.changeOrder, I.Changes(d.idle, w.now, d.settings.idle));
    var b := ApplyChanges(a, changes, w);
    EO.CalmChanges(a, changes, w);
    NewChanges(a, changes, w, entry);
    AnyDueIdle(d, a, changes, w, entry);
    var c := CallElevation(CallLocks(b, L.CSweep(w.now)), E.CClearLockouts(w.now));
    SweptOverdue(d, c, w);
    ChangesRegistry(a, changes, w);
    var ids := E.Overdue(c.elevation, w.now);
    NewAbandon(c, E.CExpire(w.now), ids, TimedOut, w.promptOrder, entry);
    NewTwice(d.log, b.log, HandleTick(d, w).log);
    forall id, outcome
      ensures Explains(d, Tick(w), id, outcome) <==> id in ids && outcome == AuthOutcome.Error(TimedOut)
    {
      EndedExactly(d, Tick(w), id, outcome);
    }
    TearsRight(d, c, Tick(w), ids, TimedOut, entry);
    if EndsPrompt(entry) || Closes(entry) {
      ChangesEndNothing(d, changes, w, entry);
      if Closes(entry) { NoTickCloses(d, w, entry); }
    } else {
      TickDue(d, w, changes, entry);
    }
  }

  lemma AnyDueIdle(d: State, a: State, changes: seq<I.Change>, w: World, entry: Entry)
    requires a == d.(idle := a.idle, idleCalls := a.idleCalls)
    ensures AnyDue(a, changes, w, entry) <==> AnyDue(d, changes, w, entry)
  {
    hide ChangeDue; hide SameAround;
    forall c ensures ChangeDue(a, c, w, entry) <==> ChangeDue(d, c, w, entry) {
      SameAroundIdle(d, a);
      ChangeDueAround(d, a, c, w, entry);
    }
  }

  lemma SameAroundIdle(d: State, a: State)
    requires a == d.(idle := a.idle, idleCalls := a.idleCalls)
    ensures SameAround(d, a)
  {
  }

  lemma NoTickCloses(d: State, w: World, entry: Entry)
    requires Closes(entry)
    ensures !Due(d, Tick(w), entry)
  {
  }

  lemma SweptOverdue(d: State, c: State, w: World)
    requires c.elevation == E.Apply(d.elevation, E.CClearLockouts(w.now))
    ensures E.Overdue(c.elevation, w.now) == E.Overdue(d.elevation, w.now)
    ensures E.Overdue(c.elevation, w.now) <= c.elevation.pending.Keys && c.elevation.pending == d.elevation.pending
  {
  }

  lemma {:induction false} ChangesRegistry(d: State, changes: seq<I.Change>, w: World)
    ensures ApplyChanges(d, changes, w).registry == d.registry
    decreases |changes|
  {
    hide ApplyChange;
    if changes != [] {
      assert ApplyChange(d, changes[0], w).registry == d.registry by { ChangeSameAround(d, changes[0], w); }
      ChangesRegistry(ApplyChange(d, changes[0], w), changes[1..], w);
    }
  }

  // ---- every step -------------------------------------------------------------------------------------

  lemma CommandRight(d: State, input: Input, entry: Entry)
    requires input.Command? && Asked(d, input, input.request)
    ensures Right(d, input, Dispatch(d, input.conn, input.request, input.world).0, entry)
  {
    hide Right; hide OnCreateSession; hide OnTerminateSession; hide OnRegisterCompositor; hide OnLockSession;
    hide OnUnlock; hide OnSwitchSession; hide OnSuspend; hide OnPowerDown; hide OnRespondElevation; hide StartElevation;
    hide Entitled;
    match input.request
    case LockSession(_) => LockRight(d, input, entry);
    case Unlock(_, _) => UnlockRight(d, input, entry);
    case RegisterCompositor(_) => RegisterRight(d, input, entry);
    case SwitchSession(_, _) => SwitchRight(d, input, entry);
    case RequestElevation(_, _) => StartRight(d, input, entry);
    case RespondElevation(_, _) => RespondRight(d, input, entry);
    case TerminateSession(_) => TerminateRight(d, input, entry);
    case Suspend => SuspendRight(d, input, entry);
    case Reboot => PowerDownRight(d, input, ToReboot, entry);
    case PowerOff => PowerDownRight(d, input, ToPowerOff, entry);
    case _ => SilentRight(d, input, entry);
  }

  /** What a step adds to the log is what is due in it, no more and no less; of a call of
      the power backend, only the locks it finds are not said here. */
  ghost predicate LogRight(d: State, input: Input, d': State, entry: Entry) {
    && d.log <= d'.log
    && (entry in New(d.log, d'.log) ==> Due(d, input, entry))
    && (Due(d, input, entry) && !entry.PowerCall? ==> entry in New(d.log, d'.log))
  }

  lemma CommandLog(d: State, input: Input, entry: Entry)
    requires input.Command?
    ensures LogRight(d, input, Step(d, input), entry)
  {
    hide New; hide Dispatch; hide Owed; hide Entitled; hide Explains; hide DueEvent; hide Excuse; hide Prompts;
    hide DueCheck; hide PowersDown; hide EveryCompositor; hide L.Delays;
    var conn, uid, request, w := input.conn, input.uid, input.request, input.world;
    PolicyExactly(d, conn, uid, request, w.account);
    if Entitled(d, conn, uid, request, w.account) {
      var r := Dispatch(d, conn, request, w);
      CommandRight(d, input, entry);
      ClosingEntry(d, input, r);
      NewTwice(d.log, r.0.log, Step(d, input).log);
      var response := if entry.Replied? then entry.response else Ok;
      ReplyExactly(d, conn, request, w, response);
      DispatchNumbers(d, conn, request, w);
    } else {
      NewOne(d.log, Replied(conn, Failed(Excuse(d, request)), Current, conn in d.registry));
      NothingUnasked(d, input, entry);
    }
  }

  lemma ClosingEntry(d: State, input: Input, r: (State, Option<Response>))
    requires input.Command?
    ensures r.0.log <= Finish(r, input.conn).log
    ensures New(r.0.log, Finish(r, input.conn).log)
         == if r.1.Some? then {Replied(input.conn, r.1.value, Current, input.conn in r.0.registry)}
            else {PutOff(input.conn, r.0.elevation.nextId)}
  {
    hide New;
    NewOne(r.0.log, if r.1.Some? then Replied(input.conn, r.1.value, Current, input.conn in r.0.registry)
                    else PutOff(input.conn, r.0.elevation.nextId));
  }

  lemma DispatchNumbers(d: State, conn: ConnId, request: Request, w: World)
    ensures Dispatch(d, conn, request, w).0.registry == d.registry
    ensures request.RequestElevation? && Prompts(d, request.session, request.action, w) ==>
              Dispatch(d, conn, request, w).0.elevation.nextId == d.elevation.nextId + 1
  {
    hide L.Apply; hide I.Apply; hide LockAndShow; hide OnUnlock; hide OnCreateSession; hide OnRegisterCompositor;
    hide OnSwitchSession; hide OnSuspend; hide OnPowerDown; hide OnRespondElevation; hide StartElevation;
    hide OnTerminateSession; hide Prompts; hide Connections.CompositorsIn;
    var open := d.registry + S.Compositors(d.sessions).Values + {conn};
    AllCompositors(d, open);
    match request
    case TerminateSession(s) => TerminateRegistry(d, s, w);
    case CreateSession(_, _, _) => Connections.CreateCompositors(d, conn, request, w, open);
    case RequestElevation(s, action) =>
      Connections.StartSameRegistry(d, conn, s, action, w);
      StartReply(d, conn, request, w, Ok);
      Provenance.StartShape(d, conn, s, action, w);
    case _ =>
      Connections.DispatchCompositors(d, conn, request, w, open);
      hide Dispatch;
  }

  lemma AllCompositors(d: State, open: set<ConnId>)
    requires S.Compositors(d.sessions).Values <= open
    ensures Connections.CompositorsIn(d.sessions, open)
  {
    forall s | s in d.sessions.live && d.sessions.live[s].compositor.Some?
      ensures d.sessions.live[s].compositor.value in open
    {
      assert S.Compositors(d.sessions)[s] in S.Compositors(d.sessions).Values;
    }
  }

  lemma TerminateRegistry(d: State, s: SessionId, w: World)
    ensures OnTerminateSession(d, s, w).0.registry == d.registry
  {
    hide Abandon;
    if s in d.sessions.live {
      var ended := d.(sessions := S.Remove(d.sessions, {s}), seats := T.Detach(d.seats, s));
      GrewAbandon(ended, E.CAbandonSession(s), E.OpenFor(d.elevation, s), SessionEnded, w.promptOrder);
    }
  }

  /** Someone not entitled to a request causes nothing but the excuse. */
  lemma NothingUnasked(d: State, input: Input, entry: Entry)
    requires input.Command? && !Entitled(d, input.conn, input.uid, input.request, input.world.account)
    ensures Due(d, input, entry) <==>
              entry == Replied(input.conn, Failed(Excuse(d, input.request)), Current, input.conn in d.registry)
  {
  }

  /** The whole of it, for every state and every input: an entry is new after a step if
      and only if it is due in that step. */
  lemma StepExactly(d: State, input: Input, entry: Entry)
    ensures LogRight(d, input, Step(d, input), entry)
  {
    hide New; hide Due; hide HandleDisconnect; hide HandleTick; hide HandleCommand;
    match input
    case Disconnected(conn, w) =>
      DisconnectRight(d, input, entry);
      if Closes(entry) { OnlyCommandsClose(d, input, entry); }
    case Tick(w) =>
      TickRight(d, w, entry);
      if Closes(entry) { OnlyCommandsClose(d, input, entry); }
    case Command(_, _, _, _) => CommandLog(d, input, entry);
    case _ =>
      NewOne(d.log, PutOff(0, 0));
      QuietInput(d, input, entry);
  }

  lemma OnlyCommandsClose(d: State, input: Input, entry: Entry)
    requires !input.Command? && Closes(entry)
    ensures !Due(d, input, entry)
  {
  }

  lemma QuietInput(d: State, input: Input, entry: Entry)
    requires input.Connected? || input.ChildExit? || input.Reload? || input.Terminate?
    ensures Step(d, input).log == d.log && !Due(d, input, entry)
  {
    hide Owed; hide L.Blocks;
  }
}
