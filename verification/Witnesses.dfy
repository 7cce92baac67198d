/** Runs from start-up that reach the states the exact conditions speak of. */
module Witnesses {
  import opened Common
  import opened Authentication
  import opened Messages
  import opened DaemonModel
  import opened Registry
  import opened LockSafety
  import opened LockRecords
  import E = ElevationModel
  import L = LockModel
  import S = SessionModel

  const ALICE := Account(7, "alice")

  /** The world at time 0: alice has a password and a home, and PAM says `accepts`. */
  function Calm(accepts: bool): World {
    World(0, {}, accepts, Some(ALICE), true, None, true, [], [], 0)
  }

  function Ask(uid: Uid, request: Request): Input {
    Command(1, uid, request, Calm(true))
  }

  /** Root logs alice in on a terminal, and her session registers over connection 1. */
  function Login(): seq<Input> {
    [Connected(1), Ask(0, Request.CreateSession("alice", None, Some("tty"))), Ask(7, RegisterCompositor(1))]
  }

  function AliceActive(settings: Settings): S.Context {
    S.Context(7, "alice", settings.defaultSeat, S.Tty, S.Active, Some(1), None, 0)
  }

  /** What the runs below need to know of the state after the login. */
  ghost predicate LoggedIn(d: State, settings: Settings) {
    && d.settings == settings
    && d.sessions == S.Sessions(map[1 := AliceActive(settings)], 2)
    && d.locks == L.NOTHING_LOCKED && d.elevation == E.EMPTY
    && d.authenticator == settings.authService && d.lockCalls == [] && d.elevationCalls == []
    && OnSeat(d.seats, settings.defaultSeat, 1)
  }

  lemma CreatedAlice(d: State, settings: Settings)
    requires d == Boot(settings, d.service).(registry := d.registry) && settings.sessionLimit >= 1
    ensures var d' := OnCreateSession(d, None, Some("tty"), Calm(true)).0;
            && d'.settings == settings && d'.locks == d.locks && d'.elevation == d.elevation
            && d'.authenticator == d.authenticator
            && d'.lockCalls == d.lockCalls && d'.elevationCalls == d.elevationCalls
            && d'.sessions == S.Sessions(map[1 := AliceActive(settings).(state := S.Starting, compositor := None)], 2)
            && OnSeat(d'.seats, settings.defaultSeat, 1)
  {
    assert S.OwnedBy(d.sessions, 7) == {};
  }

  lemma RegisteredAlice(d: State, settings: Settings)
    requires d.settings == settings && d.locks == L.NOTHING_LOCKED
    requires d.sessions == S.Sessions(map[1 := AliceActive(settings).(state := S.Starting, compositor := None)], 2)
    ensures var d' := OnRegisterCompositor(d, 1, 1).0;
            && d'.sessions == S.Sessions(map[1 := AliceActive(settings)], 2)
            && d' == d.(sessions := d'.sessions)
  {
  }

  lemma LoginReaches(settings: Settings, service: Option<Uid>)
    requires settings.sessionLimit >= 1
    ensures LoggedIn(Run(Boot(settings, service), Login()), settings)
  {
    hide OnCreateSession; hide OnRegisterCompositor; hide OnSeat;
    var boot := Boot(settings, service);
    var d1 := Step(boot, Login()[0]);
    var d2 := Step(d1, Login()[1]);
    var d3 := Step(d2, Login()[2]);
    CreatedAlice(d1, settings);
    RegisteredAlice(d2, settings);
    RunThree(boot, Login());
  }

  lemma RunThree(d: State, inputs: seq<Input>)
    requires |inputs| == 3
    ensures Run(d, inputs) == Step(Step(Step(d, inputs[0]), inputs[1]), inputs[2])
  {
    hide Step; hide Run;
    RunNone(d);
    RunSnoc(d, [], inputs[0]);
    RunSnoc(d, [inputs[0]], inputs[1]);
    RunSnoc(d, [inputs[0], inputs[1]], inputs[2]);
    assert [] + [inputs[0]] == [inputs[0]];
    assert [inputs[0]] + [inputs[1]] == [inputs[0], inputs[1]];
    assert [inputs[0], inputs[1]] + [inputs[2]] == inputs;
  }

  lemma RunTwoMore(d: State, inputs: seq<Input>, a: Input, b: Input)
    ensures Run(d, inputs + [a]) == Step(Run(d, inputs), a)
    ensures Run(d, inputs + [a, b]) == Step(Step(Run(d, inputs), a), b)
  {
    hide Step; hide Run;
    RunSnoc(d, inputs, a);
    RunSnoc(d, inputs + [a], b);
    assert inputs + [a] + [b] == inputs + [a, b];
  }

  /** Alice logs in and the machine is suspended: her session is locked and her record
      still says Active. Under any settings that lock on suspend. */
  lemma SuspendReaches(settings: Settings, service: Option<Uid>)
    requires settings.sessionLimit >= 1 && settings.lock.enabled && settings.lock.lockOnSuspend
    ensures var d := Run(Boot(settings, service), Login());
            var d' := Run(Boot(settings, service), Login() + [Ask(7, Suspend)]);
            && 1 in d.sessions.live && LockRecords.Current(d, 1) && FallsBehind(d, Ask(7, Suspend), 1)
            && 1 in d'.sessions.live && d'.sessions.live[1].state == S.Active && L.IsLocked(d'.locks, 1)
  {
    hide Run; hide Step;
    LoginReaches(settings, service);
    var d := Run(Boot(settings, service), Login());
    RunTwoMore(Boot(settings, service), Login(), Ask(7, Suspend), Terminate);
    assert SuspendLocks(d);
    SuspendStep(d);
    SuspendLeavesRecords(d, Calm(true), 1);
  }

  lemma SuspendStep(d: State)
    ensures Step(d, Ask(7, Suspend)).sessions == OnSuspend(d, Calm(true)).0.sessions
    ensures Step(d, Ask(7, Suspend)).locks == OnSuspend(d, Calm(true)).0.locks
  {
    hide OnSuspend;
  }

  /** Root asks for an elevation on alice's session and reboots: the prompt stays open
      for a session that is gone, and she still sits on her seat. Under any settings
      that let a prompt open. */
  lemma RebootReaches(settings: Settings, service: Option<Uid>)
    requires settings.sessionLimit >= 1 && settings.elevation.enabled && settings.elevation.maxPending >= 1
    ensures var ask := Ask(0, RequestElevation(1, ElevationAction("mount", true)));
            var d := Run(Boot(settings, service), Login() + [ask, Ask(0, Reboot)]);
            && 1 in d.elevation.pending && d.elevation.pending[1].session !in d.sessions.live
            && !NoGhosts(d.sessions, d.seats)
  {
    hide Run; hide Step; hide OnSeat;
    LoginReaches(settings, service);
    var d := Run(Boot(settings, service), Login());
    var action := ElevationAction("mount", true);
    var ask := Ask(0, RequestElevation(1, action));
    RunTwoMore(Boot(settings, service), Login(), ask, Ask(0, Reboot));
    AskStep(d, settings, action);
    var d' := Step(d, ask);
    RebootStep(d');
    assert OnSeat(Step(d', Ask(0, Reboot)).seats, settings.defaultSeat, 1);
  }

  lemma AskStep(d: State, settings: Settings, action: ElevationAction)
    requires LoggedIn(d, settings) && action.wellFormed
    requires settings.elevation.enabled && settings.elevation.maxPending >= 1
    ensures var d' := Step(d, Ask(0, RequestElevation(1, action)));
            && d'.sessions == d.sessions && d'.seats == d.seats && d'.locks == d.locks
            && d'.settings == d.settings && d'.authenticator == d.authenticator
            && 1 in d'.elevation.pending && d'.elevation.pending[1].session == 1
  {
    assert E.OpenFor(d.elevation, 1) == {};
  }

  lemma RebootStep(d: State)
    requires d.locks == L.NOTHING_LOCKED
    ensures var d' := Step(d, Ask(0, Reboot));
            d'.sessions.live == map[] && d'.seats == d.seats && d'.elevation == d.elevation
  {
  }

  /** Root locks the id of a session that does not exist yet, and logs alice in under it:
      her session is locked and her record says Starting. Under any settings with
      locking enabled. */
  lemma UnbornReaches(settings: Settings, service: Option<Uid>)
    requires settings.sessionLimit >= 1 && settings.lock.enabled
    ensures var login := Ask(0, Request.CreateSession("alice", None, Some("tty")));
            var inputs := [Connected(1), Ask(0, LockSession(1)), login];
            var d := Run(Boot(settings, service), inputs);
            1 in d.sessions.live && d.sessions.live[1].state == S.Starting && L.IsLocked(d.locks, 1)
  {
    hide OnCreateSession;
    var boot := Boot(settings, service);
    var login := Ask(0, Request.CreateSession("alice", None, Some("tty")));
    var inputs := [Connected(1), Ask(0, LockSession(1)), login];
    var d1 := Step(boot, inputs[0]);
    LockUnborn(d1);
    var d2 := Step(d1, inputs[1]);
    CreatedOver(d2);
    RunThree(boot, inputs);
  }

  lemma LockUnborn(d: State)
    requires d.sessions == S.NO_SESSIONS && d.locks == L.NOTHING_LOCKED && d.settings.lock.enabled
    ensures var d' := Step(d, Ask(0, LockSession(1)));
            && d'.sessions == d.sessions && d'.settings == d.settings
            && L.IsLocked(d'.locks, 1)
  {
  }

  lemma CreatedOver(d: State)
    requires d.sessions == S.NO_SESSIONS && d.settings.sessionLimit >= 1
    ensures var d' := OnCreateSession(d, None, Some("tty"), Calm(true)).0;
            1 in d'.sessions.live && d'.sessions.live[1].state == S.Starting && d'.locks == d.locks
  {
    assert S.OwnedBy(d.sessions, 7) == {};
  }

  /** Root asks for an elevation on alice's session and answers it with a password that is
      accepted: it is checked under the service of `[authentication]`. Where that is not
      the one of `[elevation]`, this is a check of a prompt that does not run under the
      latter. */
  lemma OtherServiceReaches(settings: Settings, service: Option<Uid>)
    requires settings.sessionLimit >= 1 && settings.elevation.enabled && settings.elevation.maxPending >= 1
    ensures var ask := Ask(0, RequestElevation(1, ElevationAction("mount", true)));
            var answer := Ask(0, Request.RespondElevation(1, Password));
            var d := Run(Boot(settings, service), Login() + [ask, answer]);
            Checked(1, "alice", true, Some(1), settings.authService) in d.log
  {
    hide Run; hide Step; hide OnSeat;
    LoginReaches(settings, service);
    var d := Run(Boot(settings, service), Login());
    var action := ElevationAction("mount", true);
    RunTwoMore(Boot(settings, service), Login(), Ask(0, RequestElevation(1, action)),
               Ask(0, Request.RespondElevation(1, Password)));
    AskStep(d, settings, action);
    AnswerStep(Step(d, Ask(0, RequestElevation(1, action))));
  }

  lemma AnswerStep(d: State)
    requires 1 in d.elevation.pending && d.elevation.pending[1].session == 1 && 1 in d.sessions.live
    ensures Checked(1, d.sessions.live[1].userName, true, Some(1), d.authenticator)
            in Step(d, Ask(0, Request.RespondElevation(1, Password))).log
  {
    hide E.Apply;
    var input := Ask(0, Request.RespondElevation(1, Password));
    assert Step(d, input).log[|d.log|] == Checked(1, d.sessions.live[1].userName, true, Some(1), d.authenticator);
  }

  /** Alice locks her screen and it is opened with mallory's name and password. Under
      any settings with locking enabled. */
  lemma OtherNameReaches(settings: Settings, service: Option<Uid>)
    requires settings.sessionLimit >= 1 && settings.lock.enabled
    ensures var before := Login() + [Ask(7, LockSession(1))];
            var d := Run(Boot(settings, service), before);
            var d' := Run(Boot(settings, service), Login() + [Ask(7, LockSession(1)), Ask(7, Unlock(1, "mallory"))]);
            && 1 in d.sessions.live && d.sessions.live[1].userName == "alice" && L.IsLocked(d.locks, 1)
            && !L.IsLocked(d'.locks, 1)
  {
    hide Run; hide Step;
    LoginReaches(settings, service);
    var d := Run(Boot(settings, service), Login());
    RunTwoMore(Boot(settings, service), Login(), Ask(7, LockSession(1)), Ask(7, Unlock(1, "mallory")));
    LockStep(d, settings);
    var d' := Step(d, Ask(7, LockSession(1)));
    assert Authorize(d', 1, 7, Unlock(1, "mallory"), Some(ALICE)).None?;
    OpensUnderAnyName(d', Ask(7, Unlock(1, "mallory")), 1);
  }

  lemma LockStep(d: State, settings: Settings)
    requires LoggedIn(d, settings) && settings.lock.enabled
    ensures var d' := Step(d, Ask(7, LockSession(1)));
            && d'.sessions.live == map[1 := AliceActive(settings).(state := S.Locked)]
            && L.LockOf(d'.locks, 1).state.Locked?
  {
  }
}
