/** Every command gets one reply, and every elevation prompt one dismissal, at
    the right connection, however the run goes. */
module ExactlyOnce {
  import opened Common
  import opened Authentication
  import opened Messages
  import opened DaemonModel
  import E = ElevationModel
  import ET = ElevationTheorems
  import I = IdleModel
  import L = LockModel
  import S = SessionModel
  import T = SeatModel
  import opened Histories

  // ---- the ledger ------------------------------------------------------------------

  /** The books on prompt `id`, given the prompts now open. An open prompt has
      been shown once, to its compositor, and put off once, for its requester, and
      neither side has heard the end of it. A closed one has been dismissed
      wherever it was shown, and answered whoever it was put off for, equally
      often. An id not handed out yet appears nowhere. */
  ghost predicate Balanced(log: seq<Entry>, open: map<RequestId, E.Prompt>, nextId: nat, id: RequestId, c: ConnId) {
    && (id in open ==>
          && Count(log, ShownTo(id, c)) == (if open[id].compositor == c then 1 else 0)
          && Count(log, PutOffFor(id, c)) == (if open[id].requester == c then 1 else 0))
    && Count(log, HiddenFrom(id, c)) == (if id in open then 0 else Count(log, ShownTo(id, c)))
    && Count(log, AnsweredTo(id, c)) == (if id in open then 0 else Count(log, PutOffFor(id, c)))
    && (!(1 <= id <= nextId) ==> Count(log, ShownTo(id, c)) == 0 && Count(log, PutOffFor(id, c)) == 0)
  }

  /** A handed-out id was shown on exactly one connection, once, and put off for
      exactly one, once. */
  ghost predicate Single(log: seq<Entry>, id: RequestId, shown: ConnId, asked: ConnId) {
    && (forall c :: Count(log, ShownTo(id, c)) == if c == shown then 1 else 0)
    && (forall c :: Count(log, PutOffFor(id, c)) == if c == asked then 1 else 0)
  }

  ghost predicate Once(log: seq<Entry>, id: RequestId) {
    exists shown, asked :: Single(log, id, shown, asked)
  }

  ghost predicate Ledger(log: seq<Entry>, open: map<RequestId, E.Prompt>, nextId: nat) {
    && (forall id, c :: Balanced(log, open, nextId, id, c))
    && (forall id :: 1 <= id <= nextId ==> Once(log, id))
    && Count(log, AnyAnswer) + |open| == Count(log, AnyPutOff)
  }

  ghost predicate Books(d: State) {
    Ledger(d.log, d.elevation.pending, d.elevation.nextId)
  }

  /** Replies sent at once, and replies put off. */
  function Acknowledged(d: State): nat {
    Count(d.log, AnyImmediate) + Count(d.log, AnyPutOff)
  }

  // ---- entries that do not touch the books --------------------------------------------

  /** Nothing the ledger counts changes between these two logs. */
  ghost predicate SameCounts(log: seq<Entry>, log': seq<Entry>) {
    && (forall id, c :: Count(log', ShownTo(id, c)) == Count(log, ShownTo(id, c)))
    && (forall id, c :: Count(log', PutOffFor(id, c)) == Count(log, PutOffFor(id, c)))
    && (forall id, c :: Count(log', HiddenFrom(id, c)) == Count(log, HiddenFrom(id, c)))
    && (forall id, c :: Count(log', AnsweredTo(id, c)) == Count(log, AnsweredTo(id, c)))
    && Count(log', AnyAnswer) == Count(log, AnyAnswer)
    && Count(log', AnyPutOff) == Count(log, AnyPutOff)
  }

  lemma SameCountsLedger(log: seq<Entry>, log': seq<Entry>, open: map<RequestId, E.Prompt>, nextId: nat)
    requires SameCounts(log, log') && Ledger(log, open, nextId)
    ensures Ledger(log', open, nextId)
  {
    hide Count;
    forall id, c ensures Balanced(log', open, nextId, id, c) {
      assert Balanced(log, open, nextId, id, c);
    }
    forall id | 1 <= id <= nextId ensures Once(log', id) {
      assert Once(log, id);
      var shown, asked :| Single(log, id, shown, asked);
      assert Single(log', id, shown, asked);
    }
  }

  lemma QuietLedger(log: seq<Entry>, log': seq<Entry>, open: map<RequestId, E.Prompt>, nextId: nat)
    requires QuietlyExtends(log, log') && Ledger(log, open, nextId)
    ensures Ledger(log', open, nextId)
    ensures Count(log', AnyImmediate) == Count(log, AnyImmediate) && Count(log', AnyPutOff) == Count(log, AnyPutOff)
  {
    forall mark: Mark ensures Count(log', mark) == Count(log, mark) {
      QuietCount(log, log', mark);
    }
    SameCountsLedger(log, log', open, nextId);
  }

  lemma ImmediateLedger(log: seq<Entry>, entry: Entry, open: map<RequestId, E.Prompt>, nextId: nat)
    requires entry.Replied? && entry.settles.Current? && Ledger(log, open, nextId)
    ensures Ledger(log + [entry], open, nextId)
    ensures Count(log + [entry], AnyImmediate) == Count(log, AnyImmediate) + 1
    ensures Count(log + [entry], AnyPutOff) == Count(log, AnyPutOff)
  {
    forall mark: Mark ensures Count(log + [entry], mark) == Count(log, mark) + if Bears(entry, mark) then 1 else 0 {
      CountSnoc(log, entry, mark);
    }
    SameCountsLedger(log, log + [entry], open, nextId);
  }

  // ---- opening and settling a prompt ----------------------------------------------------

  /** Counts after the two entries that settle a prompt, or open one. */
  lemma CountTwo(log: seq<Entry>, a: Entry, b: Entry, mark: Mark)
    ensures Count(log + [a] + [b], mark)
         == Count(log, mark) + (if Bears(a, mark) then 1 else 0) + (if Bears(b, mark) then 1 else 0)
  {
    CountSnoc(log, a, mark);
    CountSnoc(log + [a], b, mark);
  }

  /** The dismissal and the postponed answer close the books on one prompt. */
  lemma Settle(log: seq<Entry>, open: map<RequestId, E.Prompt>, nextId: nat, id: RequestId,
               response: Response, hid: bool, replied: bool)
    requires Ledger(log, open, nextId) && id in open
    ensures var hide' := Pushed(open[id].compositor, HideElevationPrompt(id), hid);
            var answer := Replied(open[id].requester, response, Postponed(id), replied);
            && Ledger(log + [hide'] + [answer], open - {id}, nextId)
            && Count(log + [hide'] + [answer], AnyImmediate) == Count(log, AnyImmediate)
            && Count(log + [hide'] + [answer], AnyPutOff) == Count(log, AnyPutOff)
  {
    var a := Pushed(open[id].compositor, HideElevationPrompt(id), hid);
    var b := Replied(open[id].requester, response, Postponed(id), replied);
    var log' := log + [a] + [b];
    forall mark: Mark
      ensures Count(log', mark)
           == Count(log, mark) + (if Bears(a, mark) then 1 else 0) + (if Bears(b, mark) then 1 else 0)
    {
      CountTwo(log, a, b, mark);
    }
    hide Count;
    var fewer := open - {id};
    forall i, c ensures Balanced(log', fewer, nextId, i, c) {
      assert Balanced(log, open, nextId, i, c);
    }
    forall i | 1 <= i <= nextId ensures Once(log', i) {
      assert Once(log, i);
      var shown, asked :| Single(log, i, shown, asked);
      assert Single(log', i, shown, asked);
    }
    assert (open - {id}).Keys == open.Keys - {id};
    assert |open - {id}| == |open| - 1;
  }

  /** Showing a new prompt and putting its reply off opens the books on its id. */
  lemma Open(log: seq<Entry>, open: map<RequestId, E.Prompt>, nextId: nat, p: E.Prompt, action: ElevationAction,
             shown: bool)
    requires Ledger(log, open, nextId) && nextId + 1 !in open
    ensures var id := nextId + 1;
            var show := Pushed(p.compositor, ShowElevationPrompt(id, p.session, action), shown);
            && Ledger(log + [show] + [PutOff(p.requester, id)], open[id := p], id)
            && Count(log + [show] + [PutOff(p.requester, id)], AnyImmediate) == Count(log, AnyImmediate)
            && Count(log + [show] + [PutOff(p.requester, id)], AnyPutOff) == Count(log, AnyPutOff) + 1
  {
    var id := nextId + 1;
    var a := Pushed(p.compositor, ShowElevationPrompt(id, p.session, action), shown);
    var b := PutOff(p.requester, id);
    var log' := log + [a] + [b];
    forall mark: Mark
      ensures Count(log', mark)
           == Count(log, mark) + (if Bears(a, mark) then 1 else 0) + (if Bears(b, mark) then 1 else 0)
    {
      CountTwo(log, a, b, mark);
    }
    hide Count;
    var more := open[id := p];
    forall i, c ensures Balanced(log', more, id, i, c) {
      assert Balanced(log, open, nextId, i, c);
    }
    forall i | 1 <= i <= id ensures Once(log', i) {
      if i == id {
        forall c ensures Count(log, ShownTo(id, c)) == 0 && Count(log, PutOffFor(id, c)) == 0 {
          assert Balanced(log, open, nextId, id, c);
        }
        assert Single(log', id, p.compositor, p.requester);
      } else {
        assert Once(log, i);
        var s, q :| Single(log, i, s, q);
        assert Single(log', i, s, q);
      }
    }
  }

  // ---- steps that leave the books alone -----------------------------------------------

  ghost predicate Calm(d: State, d': State) {
    QuietlyExtends(d.log, d'.log) && d'.elevation == d.elevation
  }

  lemma CalmLock(d: State, s: SessionId, reason: LockReason)
    ensures Calm(d, LockAndShow(d, s, reason))
  {
  }

  lemma CalmSuspend(d: State, w: World)
    ensures Calm(d, OnSuspend(d, w).0)
  {
  }

  lemma {:induction false} CalmChanges(d: State, changes: seq<I.Change>, w: World)
    ensures Calm(d, ApplyChanges(d, changes, w))
    decreases |changes|
  {
    if changes != [] {
      var next := ApplyChange(d, changes[0], w);
      assert Calm(d, next) by {
        hide ApplyChanges;
        if changes[0].stage.SuspendRequested? { CalmSuspend(d, w); }
      }
      CalmChanges(next, changes[1..], w);
    }
  }

  predicate ConcernsElevation(request: Request) {
    request.TerminateSession? || request.RequestElevation? || request.RespondElevation?
  }

  lemma CalmDispatch(d: State, conn: ConnId, request: Request, w: World)
    requires !ConcernsElevation(request)
    ensures Calm(d, Dispatch(d, conn, request, w).0) && Dispatch(d, conn, request, w).1.Some?
  {
    hide LockAndShow; hide OnSuspend; hide OnUnlock; hide OnCreateSession; hide OnRegisterCompositor;
    hide OnSwitchSession;
    hide L.Apply; hide I.Apply;
    match request
    case LockSession(s) => CalmLock(d, s, Manual);
    case Unlock(s, userName) => CalmUnlock(d, s, userName, w);
    case Suspend => CalmSuspend(d, w);
    case CreateSession(_, seatId, sessionType) => CalmCreate(d, seatId, sessionType, w);
    case RegisterCompositor(s) => CalmRegister(d, conn, s);
    case SwitchSession(seat, s) => CalmSwitch(d, seat, s);
    case _ =>
  }

  lemma CalmUnlock(d: State, s: SessionId, userName: string, w: World)
    ensures Calm(d, OnUnlock(d, s, userName, w).0)
  {
    hide L.Apply; hide L.UnlockOutcome;
  }

  lemma CalmCreate(d: State, seatId: Option<SeatId>, sessionType: Option<string>, w: World)
    ensures Calm(d, OnCreateSession(d, seatId, sessionType, w).0)
  {
    hide T.Attach; hide S.Create;
  }

  lemma CalmRegister(d: State, conn: ConnId, s: SessionId)
    ensures Calm(d, OnRegisterCompositor(d, conn, s).0)
  {
    hide L.IsLocked;
  }

  lemma CalmSwitch(d: State, seat: SeatId, s: SessionId)
    ensures Calm(d, OnSwitchSession(d, seat, s).0)
  {
    hide T.Switch;
  }

  // ---- steps that end prompts -----------------------------------------------------------

  predicate AllOpen(abandoned: seq<E.Abandoned>, open: map<RequestId, E.Prompt>) {
    && (forall k :: 0 <= k < |abandoned| ==> abandoned[k].id in open && open[abandoned[k].id] == abandoned[k].prompt)
    && (forall j, k :: 0 <= j < k < |abandoned| ==> abandoned[j].id != abandoned[k].id)
  }

  function Ids(abandoned: seq<E.Abandoned>): set<RequestId> {
    set k | 0 <= k < |abandoned| :: abandoned[k].id
  }

  /** Notifying both sides settles every abandoned prompt, whatever the order. */
  lemma {:induction false} NotifySettles(d: State, abandoned: seq<E.Abandoned>, reason: Reason,
                                         open: map<RequestId, E.Prompt>, nextId: nat)
    requires Ledger(d.log, open, nextId) && AllOpen(abandoned, open)
    ensures var d' := NotifyAbandoned(d, abandoned, reason);
            && Ledger(d'.log, open - Ids(abandoned), nextId)
            && Acknowledged(d') == Acknowledged(d)
            && d'.elevation == d.elevation
    decreases |abandoned|
  {
    hide Ledger; hide Count;
    if abandoned == [] {
      assert open - Ids(abandoned) == open;
    } else {
      var a, rest := abandoned[0], abandoned[1..];
      Settle(d.log, open, nextId, a.id, AuthResult(AuthOutcome.Error(reason)),
             a.prompt.compositor in d.registry, a.prompt.requester in d.registry);
      var told := Reply(Push(d, a.prompt.compositor, HideElevationPrompt(a.id)),
                        a.prompt.requester, AuthResult(AuthOutcome.Error(reason)), Postponed(a.id));
      assert AllOpen(rest, open - {a.id});
      NotifySettles(told, rest, reason, open - {a.id}, nextId);
      assert Ids(abandoned) == {a.id} + Ids(rest) by {
        assert abandoned == [a] + rest;
        forall i | i in Ids(abandoned) ensures i in {a.id} + Ids(rest) {
          var k :| 0 <= k < |abandoned| && abandoned[k].id == i;
          if k > 0 { assert rest[k - 1].id == i; }
        }
        forall i | i in Ids(rest) ensures i in Ids(abandoned) {
          var k :| 0 <= k < |rest| && rest[k].id == i;
          assert abandoned[k + 1].id == i;
        }
      }
      assert open - {a.id} - Ids(rest) == open - Ids(abandoned);
    }
  }

  lemma ListedIds(e: E.Elevation, ids: set<RequestId>, order: seq<RequestId>)
    requires ids <= e.pending.Keys
    ensures AllOpen(Listed(e, ids, order), e.pending)
    ensures Ids(Listed(e, ids, order)) == ids
  {
    var listing := Listing(order, ids);
    var listed := Listed(e, ids, order);
    assert forall k :: 0 <= k < |listing| ==> listed[k].id == listing[k];
    assert (set x | x in listing) == ids;
    forall i | i in ids ensures i in Ids(listed) {
      assert i in (set x | x in listing);
      var k :| 0 <= k < |listing| && listing[k] == i;
      assert listed[k].id == i;
    }
    forall i | i in Ids(listed) ensures i in ids {
      var k :| 0 <= k < |listed| && listed[k].id == i;
      assert listing[k] in (set x | x in listing);
    }
  }

  lemma AbandonSettles(d: State, call: E.Call, ids: set<RequestId>, reason: Reason, order: seq<RequestId>)
    requires Books(d) && ids <= d.elevation.pending.Keys
    requires E.Apply(d.elevation, call).pending == d.elevation.pending - ids
    requires E.Apply(d.elevation, call).nextId == d.elevation.nextId
    ensures Books(Abandon(d, call, ids, reason, order))
    ensures Acknowledged(Abandon(d, call, ids, reason, order)) == Acknowledged(d)
    ensures Abandon(d, call, ids, reason, order).elevation == E.Apply(d.elevation, call)
  {
    hide Ledger; hide Count; hide Listed; hide AllOpen; hide NotifyAbandoned;
    ListedIds(d.elevation, ids, order);
    NotifySettles(CallElevation(d, call), Listed(d.elevation, ids, order), reason, d.elevation.pending,
                  d.elevation.nextId);
  }

  lemma ResolveSettles(d: State, called: State, id: RequestId, r: E.Resolution)
    requires Books(d) && id in d.elevation.pending && r.prompt == d.elevation.pending[id]
    requires QuietlyExtends(d.log, called.log)
    requires called.elevation.nextId == d.elevation.nextId
    requires called.elevation.pending == if r.terminal then d.elevation.pending - {id} else d.elevation.pending
    ensures Books(Resolve(called, id, r)) && Acknowledged(Resolve(called, id, r)) == Acknowledged(d)
    ensures Resolve(called, id, r).elevation == called.elevation
  {
    hide Ledger; hide Count;
    var told := Push(called, r.prompt.compositor, ElevationFeedback(id, r.outcome));
    assert QuietlyExtends(d.log, told.log);
    QuietLedger(d.log, told.log, d.elevation.pending, d.elevation.nextId);
    if r.terminal {
      Settle(told.log, d.elevation.pending, d.elevation.nextId, id, AuthResult(r.outcome),
             r.prompt.compositor in told.registry, r.prompt.requester in told.registry);
    }
  }

  // ---- the two elevation commands ----------------------------------------------------------

  /** The answer is the last word on the prompt: it declines, or the password is
      checked and is accepted or locks the session out. */
  predicate Final(d: State, id: RequestId, answer: Answer, w: World) {
    && id in d.elevation.pending
    && var s := d.elevation.pending[id].session;
       var used := E.GuessesOf(d.elevation, s).attempts + 1 >= Budget(d.settings.elevationAuth);
       answer.Decline? || (s in d.sessions.live && (w.accepts || used))
  }

  /** An answer closes its prompt, in the table and in the books, if and only if it is
      final, and touches no other. */
  lemma RespondBooks(d: State, id: RequestId, answer: Answer, w: World)
    requires Books(d)
    ensures Books(OnRespondElevation(d, id, answer, w).0)
    ensures Acknowledged(OnRespondElevation(d, id, answer, w).0) == Acknowledged(d)
    ensures OnRespondElevation(d, id, answer, w).0.elevation.pending
         == if Final(d, id, answer, w) then d.elevation.pending - {id} else d.elevation.pending
  {
    hide Ledger; hide Count; hide Resolve;
    if id in d.elevation.pending {
      var s := d.elevation.pending[id].session;
      match answer
      case Decline =>
        ResolveSettles(d, CallElevation(d, E.CCancel(id)), id, E.CancelOutcome(d.elevation, id).value);
      case Password =>
        if s in d.sessions.live {
          var r := E.AttemptOutcome(d.elevation, id, w.accepts, d.settings.elevationAuth).value;
          var checked := Log(d, Checked(s, d.sessions.live[s].userName, w.accepts, Some(id), d.authenticator));
          var called := CallElevation(checked, E.CAttempt(id, w.accepts, d.settings.elevationAuth, w.now));
          ResolveSettles(d, called, id, r);
        }
    }
  }

  /** Asking for elevation either answers at once or opens exactly one prompt. */
  lemma StartBooks(d: State, conn: ConnId, s: SessionId, action: ElevationAction, w: World)
    requires Books(d) && ET.Consistent(d.elevation)
    ensures var d' := Finish(StartElevation(d, conn, s, action, w), conn);
            Books(d') && Acknowledged(d') == Acknowledged(d) + 1
  {
    hide Ledger; hide Count;
    var r := StartElevation(d, conn, s, action, w);
    if r.1.Some? {
      assert r.0.log == d.log && r.0.elevation.pending == d.elevation.pending;
      assert r.0.elevation.nextId == d.elevation.nextId;
      ImmediateLedger(d.log, Replied(conn, r.1.value, Current, conn in r.0.registry), d.elevation.pending,
                      d.elevation.nextId);
    } else {
      var compositor := d.sessions.live[s].compositor.value;
      Open(d.log, d.elevation.pending, d.elevation.nextId, E.Prompt(s, compositor, conn), action,
           compositor in d.registry);
    }
  }

  lemma FinishBooks(r: (State, Option<Response>), conn: ConnId)
    requires Books(r.0) && r.1.Some?
    ensures Books(Finish(r, conn)) && Acknowledged(Finish(r, conn)) == Acknowledged(r.0) + 1
  {
    hide Ledger; hide Count;
    ImmediateLedger(r.0.log, Replied(conn, r.1.value, Current, conn in r.0.registry), r.0.elevation.pending,
                    r.0.elevation.nextId);
  }

  // ---- every step, every run ------------------------------------------------------------------

  lemma CalmBooks(d: State, d': State)
    requires Books(d) && Calm(d, d')
    ensures Books(d') && Acknowledged(d') == Acknowledged(d)
  {
    hide Ledger; hide Count;
    QuietLedger(d.log, d'.log, d.elevation.pending, d.elevation.nextId);
  }

  lemma TerminateBooks(d: State, s: SessionId, w: World)
    requires Books(d)
    ensures Books(OnTerminateSession(d, s, w).0) && Acknowledged(OnTerminateSession(d, s, w).0) == Acknowledged(d)
  {
    hide Ledger; hide Count; hide Abandon;
    if s in d.sessions.live {
      var ended := d.(sessions := S.Remove(d.sessions, {s}), seats := T.Detach(d.seats, s));
      AbandonSettles(ended, E.CAbandonSession(s), E.OpenFor(d.elevation, s), SessionEnded, w.promptOrder);
    }
  }

  lemma CommandBooks(d: State, conn: ConnId, uid: Uid, request: Request, w: World)
    requires Books(d) && ET.Consistent(d.elevation)
    ensures Books(HandleCommand(d, conn, uid, request, w))
    ensures Acknowledged(HandleCommand(d, conn, uid, request, w)) == Acknowledged(d) + 1
  {
    hide Books; hide Acknowledged; hide ET.Consistent; hide OnTerminateSession; hide OnRespondElevation;
    hide StartElevation; hide Finish;
    if Authorize(d, conn, uid, request, w.account).Some? {
      var r := (d, Some(Failed(Authorize(d, conn, uid, request, w.account).value)));
      FinishBooks(r, conn);
      FinishIsReply(r, conn);
    } else if request.RequestElevation? {
      StartBooks(d, conn, request.session, request.action, w);
    } else {
      var r := Dispatch(d, conn, request, w);
      if request.TerminateSession? {
        TerminateBooks(d, request.session, w);
      } else if request.RespondElevation? {
        RespondBooks(d, request.id, request.answer, w);
      } else {
        CalmDispatch(d, conn, request, w);
        hide Dispatch;
        CalmBooks(d, r.0);
      }
      FinishBooks(r, conn);
    }
  }

  lemma FinishIsReply(r: (State, Option<Response>), conn: ConnId)
    requires r.1.Some?
    ensures Finish(r, conn) == Reply(r.0, conn, r.1.value, Current)
  {
  }

  lemma TickBooks(d: State, w: World)
    requires Books(d) && ET.Consistent(d.elevation)
    ensures Books(HandleTick(d, w)) && Acknowledged(HandleTick(d, w)) == Acknowledged(d)
  {
    hide Ledger; hide Count; hide Abandon; hide ApplyChanges;
    var a := CallIdle(d, I.CTick(w.now, d.settings.idle));
    var changes := Listing(w.changeOrder, I.Changes(d.idle, w.now, d.settings.idle));
    var b := ApplyChanges(a, changes, w);
    CalmChanges(a, changes, w);
    CalmBooks(d, b);
    var c := CallElevation(CallLocks(b, L.CSweep(w.now)), E.CClearLockouts(w.now));
    assert c.log == b.log && c.elevation.pending == b.elevation.pending && c.elevation.nextId == b.elevation.nextId;
    ET.ApplyConsistent(b.elevation, E.CClearLockouts(w.now));
    AbandonSettles(c, E.CExpire(w.now), E.Overdue(c.elevation, w.now), TimedOut, w.promptOrder);
  }

  /** Each step keeps the books and acknowledges a command exactly when it handles one. */
  lemma StepBooks(d: State, input: Input)
    requires Books(d) && ET.Consistent(d.elevation)
    ensures Books(Step(d, input))
    ensures Acknowledged(Step(d, input)) == Acknowledged(d) + if input.Command? then 1 else 0
  {
    hide Ledger; hide Count; hide Abandon; hide HandleCommand; hide HandleTick;
    match input
    case Disconnected(conn, w) =>
      var gone := d.(registry := d.registry - {conn}, sessions := S.DropConnection(d.sessions, conn));
      AbandonSettles(gone, E.CAbandonConnection(conn), E.Touching(d.elevation, conn), ConnectionDropped, w.promptOrder);
    case Command(conn, uid, request, w) => CommandBooks(d, conn, uid, request, w);
    case Tick(w) => TickBooks(d, w);
    case _ =>
  }

  function Commands(inputs: seq<Input>): nat {
    if inputs == [] then 0
    else Commands(inputs[..|inputs| - 1]) + if inputs[|inputs| - 1].Command? then 1 else 0
  }

  lemma {:induction false} RunBooks(settings: Settings, service: Option<Uid>, inputs: seq<Input>)
    ensures Books(Run(Boot(settings, service), inputs))
    ensures Acknowledged(Run(Boot(settings, service), inputs)) == Commands(inputs)
  {
    if inputs == [] {
      BootBooks(settings, service);
    } else {
      hide Books; hide Acknowledged; hide Step;
      var n := |inputs| - 1;
      var d := Run(Boot(settings, service), inputs[..n]);
      RunBooks(settings, service, inputs[..n]);
      AlwaysReplayed(settings, service, inputs[..n]);
      ET.AlwaysConsistent(d.elevationCalls);
      StepBooks(d, inputs[n]);
    }
  }

  lemma BootBooks(settings: Settings, service: Option<Uid>)
    ensures Books(Boot(settings, service)) && Acknowledged(Boot(settings, service)) == 0
  {
    var d := Boot(settings, service);
    forall id, c ensures Balanced(d.log, d.elevation.pending, d.elevation.nextId, id, c) {}
  }

  /** Exactly-once replies over every run. Commands handled are accounted for by
      immediate replies, answers to elevation requests, and prompts still open.
      Every request id handed out was shown once, on one connection, and put off
      once, for one requester; from the step that closes it on, that connection
      has been told to dismiss it once and that requester has had one answer, and
      nobody else has had either. */
  lemma ExactlyOnce(settings: Settings, service: Option<Uid>, inputs: seq<Input>)
    ensures var d := Run(Boot(settings, service), inputs);
            && Commands(inputs) == Count(d.log, AnyImmediate) + Count(d.log, AnyAnswer) + |d.elevation.pending|
            && forall id :: 1 <= id <= d.elevation.nextId ==> SettledOnce(d, id)
  {
    hide Step; hide Count;
    RunBooks(settings, service, inputs);
    var d := Run(Boot(settings, service), inputs);
    forall id | 1 <= id <= d.elevation.nextId ensures SettledOnce(d, id) {
      assert Once(d.log, id);
      var shown, asked :| Single(d.log, id, shown, asked);
      forall c ensures Settled(d, id, shown, asked, c) {
        assert Balanced(d.log, d.elevation.pending, d.elevation.nextId, id, c);
      }
      assert SettledBetween(d, id, shown, asked);
    }
  }

  /** What connection `c` has seen of prompt `id`, shown to `shown` for `asked`. */
  ghost predicate Settled(d: State, id: RequestId, shown: ConnId, asked: ConnId, c: ConnId) {
    var over := if id in d.elevation.pending then 0 else 1;
    && Count(d.log, ShownTo(id, c)) == (if c == shown then 1 else 0)
    && Count(d.log, HiddenFrom(id, c)) == (if c == shown then over else 0)
    && Count(d.log, PutOffFor(id, c)) == (if c == asked then 1 else 0)
    && Count(d.log, AnsweredTo(id, c)) == (if c == asked then over else 0)
    && (id in d.elevation.pending && c == shown ==> d.elevation.pending[id].compositor == c)
    && (id in d.elevation.pending && c == asked ==> d.elevation.pending[id].requester == c)
  }

  ghost predicate SettledOnce(d: State, id: RequestId) {
    exists shown, asked :: SettledBetween(d, id, shown, asked)
  }

  ghost predicate SettledBetween(d: State, id: RequestId, shown: ConnId, asked: ConnId) {
    forall c :: Settled(d, id, shown, asked, c)
  }
}
