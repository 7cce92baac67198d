/** What goes over the IPC socket, and the record the daemon's theorems read. */
module Messages {
  import opened Common
  import opened Authentication
  import LockModel
  import SessionModel

  /** Display text of an elevation prompt; only whether its labels are well
      formed matters to the daemon. */
  datatype ElevationAction = ElevationAction(text: string, wellFormed: bool)

  /** The password itself stays outside the model: whether it is accepted is an
      input of the step that checks it. */
  datatype Answer = Password | Decline

  datatype Request =
    | CreateSession(userName: string, seatId: Option<SeatId>, sessionType: Option<string>)
    | TerminateSession(session: SessionId)
    | RegisterCompositor(session: SessionId)
    | ListSessions
    | SessionStatus(session: SessionId)
    | LockSession(session: SessionId)
    | Unlock(session: SessionId, userName: string)
    | ReportActivity(seat: SeatId)
    | SwitchSession(seat: SeatId, session: SessionId)
    | Inhibit(inhibitor: LockModel.Inhibitor)
    | ReleaseInhibit(inhibitId: nat)
    | ListInhibitors
    | Suspend
    | Reboot
    | PowerOff
    | RequestElevation(session: SessionId, action: ElevationAction)
    | RespondElevation(id: RequestId, answer: Answer)

  datatype SessionError =
    | UnknownUser
    | UnknownSeat
    | UnknownSession(session: SessionId)
    | UnknownInhibitor
    | UnknownElevationRequest(id: RequestId)
    | PermissionDenied
    | Unsupported
    | Io

  datatype SessionInfo = SessionInfo(id: SessionId, uid: Uid, userName: string, seat: SeatId,
                                     kind: SessionModel.SessionType, state: SessionModel.SessionState, locked: bool)

  datatype Response =
    | Ok
    | SessionList(infos: set<SessionInfo>)
    | OneSession(info: SessionInfo)
    | AuthResult(outcome: AuthOutcome)
    | InhibitGranted(inhibitId: nat)
    | InhibitorList(inhibitors: map<nat, LockModel.Inhibitor>)
    | Failed(error: SessionError)

  datatype LockReason = Manual | Idling

  datatype Event =
    | ShowLockScreen(session: SessionId, reason: LockReason)
    | HideLockScreen(session: SessionId)
    | AuthFeedback(session: SessionId, outcome: AuthOutcome)
    | Dim(seat: SeatId)
    | PrepareForSleep
    | SessionActivated(seat: SeatId, session: SessionId)
    | ShowElevationPrompt(id: RequestId, session: SessionId, action: ElevationAction)
    | ElevationFeedback(id: RequestId, outcome: AuthOutcome)
    | HideElevationPrompt(id: RequestId)

  datatype PowerKind = ToSuspend | ToReboot | ToPowerOff

  /** Which request a response settles: the one being handled, or an elevation
      request whose reply was put off. */
  datatype Settles = Current | Postponed(id: RequestId)

  /** One observable act of the daemon. `delivered` says whether the connection
      still had an outbox; a broadcast sends one event per session to its compositor,
      delivered to those with an outbox. A check names the PAM service it ran under. */
  datatype Entry =
    | Replied(conn: ConnId, response: Response, settles: Settles, delivered: bool)
    | PutOff(conn: ConnId, id: RequestId)
    | Pushed(conn: ConnId, event: Event, delivered: bool)
    | Broadcast(to: map<SessionId, ConnId>, event: Event, outboxes: set<ConnId>)
    | Checked(session: SessionId, userName: string, accepted: bool, prompt: Option<RequestId>, pamService: string)
    | Paused(kind: PowerKind, grace: Duration)
    | PowerCall(kind: PowerKind, live: set<SessionId>, locks: LockModel.Locks, policy: LockModel.LockPolicy,
                grace: Duration)

  /** Kinds of entry that are counted. */
  datatype Mark =
    | ShownTo(id: RequestId, conn: ConnId)
    | HiddenFrom(id: RequestId, conn: ConnId)
    | PutOffFor(id: RequestId, conn: ConnId)
    | AnsweredTo(id: RequestId, conn: ConnId)
    | AnyPutOff
    | AnyAnswer
    | AnyImmediate

  predicate Bears(entry: Entry, mark: Mark) {
    match mark
    case ShownTo(id, c) => entry.Pushed? && entry.conn == c && entry.event.ShowElevationPrompt? && entry.event.id == id
    case HiddenFrom(id, c) => entry.Pushed? && entry.conn == c && entry.event == HideElevationPrompt(id)
    case PutOffFor(id, c) => entry == PutOff(c, id)
    case AnsweredTo(id, c) => entry.Replied? && entry.conn == c && entry.settles == Postponed(id)
    case AnyPutOff => entry.PutOff?
    case AnyAnswer => entry.Replied? && entry.settles.Postponed?
    case AnyImmediate => entry.Replied? && entry.settles.Current?
  }

  function Count(log: seq<Entry>, mark: Mark): nat {
    if log == [] then 0
    else Count(log[..|log| - 1], mark) + if Bears(log[|log| - 1], mark) then 1 else 0
  }

  lemma CountSnoc(log: seq<Entry>, entry: Entry, mark: Mark)
    ensures Count(log + [entry], mark) == Count(log, mark) + if Bears(entry, mark) then 1 else 0
  {
    assert (log + [entry])[..|log|] == log;
  }

  /** An entry no mark counts. */
  predicate Quiet(entry: Entry) {
    match entry
    case Pushed(_, event, _) => !event.ShowElevationPrompt? && !event.HideElevationPrompt?
    case Broadcast(_, _, _) => true
    case Checked(_, _, _, _, _) => true
    case Paused(_, _) => true
    case PowerCall(_, _, _, _, _) => true
    case _ => false
  }

  /** `log` continued with quiet entries only. */
  ghost predicate QuietlyExtends(log: seq<Entry>, longer: seq<Entry>) {
    log <= longer && forall k :: |log| <= k < |longer| ==> Quiet(longer[k])
  }

  lemma {:induction false} QuietCount(log: seq<Entry>, longer: seq<Entry>, mark: Mark)
    requires QuietlyExtends(log, longer)
    ensures Count(longer, mark) == Count(log, mark)
    decreases |longer|
  {
    if |longer| == |log| {
      assert longer == log;
    } else {
      QuietCount(log, longer[..|longer| - 1], mark);
      assert Quiet(longer[|longer| - 1]);
    }
  }
}
