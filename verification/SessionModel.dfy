/** The session registry and the lifecycle of one session. */
module SessionModel {
  import opened Common

  datatype SessionState = Starting | Active | Idle | Locked | Closing | Closed

  datatype SessionType = Wayland | X11 | Tty

  datatype Context = Context(
    uid: Uid,
    userName: string,
    seat: SeatId,
    kind: SessionType,
    state: SessionState,
    compositor: Option<ConnId>,
    process: Option<Pid>,
    restarts: nat)

  datatype Sessions = Sessions(live: map<SessionId, Context>, nextId: SessionId)

  const NO_SESSIONS := Sessions(map[], 1)

  predicate CanTransition(from: SessionState, to: SessionState) {
    match from
    case Starting => to in {Active, Closing, Locked}
    case Active => to in {Idle, Locked, Closing, Starting}
    case Idle => to in {Active, Locked, Closing, Starting}
    case Locked => to in {Active, Closing, Starting}
    case Closing => to == Closed
    case Closed => false
  }

  predicate IsLive(state: SessionState) {
    state.Starting? || state.Active? || state.Idle? || state.Locked?
  }

  /** The lifecycle, told apart from the table: a session moves freely among the states of
      a live one, except that only an active one goes idle; from any of them it may close;
      and closing leads to closed and nowhere else. */
  lemma Lifecycle(from: SessionState, to: SessionState)
    ensures CanTransition(from, to) <==>
              || (IsLive(from) && IsLive(to) && from != to && (to.Idle? ==> from.Active?))
              || (IsLive(from) && to.Closing?)
              || (from.Closing? && to.Closed?)
  {
  }

  /** A refused transition leaves the state as it was. */
  function Moved(from: SessionState, to: SessionState): SessionState {
    if CanTransition(from, to) then to else from
  }

  /** What identifies a session for as long as it lives. */
  predicate SameIdentity(a: Context, b: Context) {
    a.uid == b.uid && a.userName == b.userName && a.seat == b.seat && a.kind == b.kind
  }

  function OwnedBy(r: Sessions, uid: Uid): set<SessionId> {
    set s | s in r.live && r.live[s].uid == uid
  }

  /** Those are the sessions the per-user limit counts: the user's live ones, all of them
      and no others. */
  lemma OwnedByExactly(r: Sessions, uid: Uid, s: SessionId)
    ensures s in OwnedBy(r, uid) <==> s in r.live && r.live[s].uid == uid
  {
  }

  datatype CreateResult = Created(id: SessionId) | RefusedTooMany | RefusedNotReady

  function CreateOutcome(r: Sessions, uid: Uid, limit: nat, ready: bool): CreateResult {
    if |OwnedBy(r, uid)| >= limit then RefusedTooMany
    else if !ready then RefusedNotReady
    else Created(r.nextId)
  }

  /** An id is spent even when the home or runtime directory is not usable. */
  function Create(r: Sessions, uid: Uid, name: string, seat: SeatId, kind: SessionType, limit: nat,
                  ready: bool): Sessions {
    match CreateOutcome(r, uid, limit, ready)
    case RefusedTooMany => r
    case RefusedNotReady => r.(nextId := r.nextId + 1)
    case Created(id) =>
      r.(nextId := id + 1,
         live := r.live[id := Context(uid, name, seat, kind, Starting, None, None, 0)])
  }

  function Remove(r: Sessions, ids: set<SessionId>): Sessions {
    r.(live := r.live - ids)
  }

  /** Replace the record of a live session; a dead one is left alone. */
  function Update(r: Sessions, s: SessionId, ctx: Context): Sessions {
    if s in r.live then r.(live := r.live[s := ctx]) else r
  }

  function Transition(r: Sessions, s: SessionId, to: SessionState): Sessions {
    if s in r.live then Update(r, s, r.live[s].(state := Moved(r.live[s].state, to))) else r
  }

  /** Forget a connection wherever it was a session's compositor. */
  function DropConnection(r: Sessions, conn: ConnId): Sessions {
    r.(live := map s | s in r.live ::
      if r.live[s].compositor == Some(conn) then r.live[s].(compositor := None) else r.live[s])
  }

  /** The registered compositor of every session that has one. */
  function Compositors(r: Sessions): map<SessionId, ConnId> {
    map s | s in r.live && r.live[s].compositor.Some? :: r.live[s].compositor.value
  }

  function CompositorOf(r: Sessions, s: SessionId): Option<ConnId> {
    if s in r.live then r.live[s].compositor else None
  }
}
