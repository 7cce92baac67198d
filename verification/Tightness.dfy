/** The bounds on wrong passwords are reached by the daemon itself, in runs from
    start-up. */
module Tightness {
  import opened Common
  import opened Authentication
  import opened Messages
  import opened DaemonModel
  import opened Histories
  import opened Guarantees
  import opened Witnesses
  import E = ElevationModel
  import ET = ElevationTheorems
  import EG = ElevationGuessing
  import L = LockModel
  import LT = LockTheorems

  // ---- elevation prompts ----------------------------------------------------------------------

  /** Alice's session is there, with its compositor. */
  ghost predicate Ready(d: State, settings: Settings) {
    d.settings == settings && 1 in d.sessions.live && d.sessions.live[1] == AliceActive(settings)
  }

  const MOUNT := ElevationAction("mount", true)

  /** Root asks for an elevation on alice's session `n` times. */
  function Asking(n: nat): seq<Input> {
    if n == 0 then [] else Asking(n - 1) + [Ask(0, RequestElevation(1, MOUNT))]
  }

  lemma AskOnce(d: State, settings: Settings)
    requires Ready(d, settings) && settings.elevation.enabled && ET.Consistent(d.elevation)
    requires !E.IsLockedOut(d.elevation, 1) && |E.OpenFor(d.elevation, 1)| < settings.elevation.maxPending
    ensures var d' := Step(d, Ask(0, RequestElevation(1, MOUNT)));
            && Ready(d', settings)
            && |E.OpenFor(d'.elevation, 1)| == |E.OpenFor(d.elevation, 1)| + 1
            && E.GuessesOf(d'.elevation, 1) == E.GuessesOf(d.elevation, 1)
  {
    var e := d.elevation;
    var e' := Step(d, Ask(0, RequestElevation(1, MOUNT))).elevation;
    var id := e.nextId + 1;
    assert e'.pending == e.pending[id := E.Prompt(1, 1, 1)];
    ET.OpenForAfterBegin(e, 1, id, E.Prompt(1, 1, 1));
    ET.OpenForSame(e.(pending := e'.pending), e', 1);
    assert id !in E.OpenFor(e, 1);
  }

  lemma {:induction false} AskedRun(settings: Settings, service: Option<Uid>, n: nat)
    requires settings.sessionLimit >= 1 && settings.elevation.enabled && n <= settings.elevation.maxPending
    ensures var d := Run(Boot(settings, service), Login() + Asking(n));
            && Ready(d, settings)
            && |E.OpenFor(d.elevation, 1)| == n && E.GuessesOf(d.elevation, 1) == E.Guesses(false, 0)
    ensures NoReload(Login() + Asking(n))
  {
    hide Step; hide Run; hide E.OpenFor; hide ET.Consistent; hide Tallied;
    LoginReaches(settings, service);
    if n == 0 {
      assert Login() + Asking(0) == Login();
      NothingOpen();
    } else {
      AskedRun(settings, service, n - 1);
      var before := Login() + Asking(n - 1);
      var d := Run(Boot(settings, service), before);
      AlwaysReplayed(settings, service, before);
      ET.AlwaysConsistent(d.elevationCalls);
      AskOnce(d, settings);
      RunSnoc(Boot(settings, service), before, Ask(0, RequestElevation(1, MOUNT)));
      assert before + [Ask(0, RequestElevation(1, MOUNT))] == Login() + Asking(n);
    }
  }

  lemma NothingOpen()
    ensures E.OpenFor(E.EMPTY, 1) == {}
  {
  }

  /** A wrong answer, by root, to the prompt of this call. */
  function Answer(call: E.Call): Input {
    Command(1, 0, Request.RespondElevation(if call.CAttempt? then call.id else 0, Password), Calm(false))
  }

  lemma AnswerOnce(d: State, settings: Settings, call: E.Call)
    requires Ready(d, settings) && EG.FailsOn(d.elevation, call, 1)
    requires call == E.CAttempt(call.id, false, settings.elevationAuth, 0)
    ensures var d' := Step(d, Answer(call));
            && Ready(d', settings)
            && d'.elevation == E.Apply(d.elevation, call) && d'.elevationCalls == d.elevationCalls + [call]
  {
    hide E.Apply; hide E.AttemptOutcome;
  }

  function Answering(window: seq<E.Call>): seq<Input> {
    if window == [] then [] else Answering(window[..|window| - 1]) + [Answer(window[|window| - 1])]
  }

  lemma {:induction false} AnsweredRun(d: State, settings: Settings, window: seq<E.Call>)
    requires Ready(d, settings) && EG.AllGuesses(d.elevation, window, 1, settings.elevationAuth)
    ensures var d' := Run(d, Answering(window));
            && Ready(d', settings)
            && d'.elevation == E.After(d.elevation, window) && d'.elevationCalls == d.elevationCalls + window
    ensures NoReload(Answering(window))
  {
    hide Step; hide E.Apply; hide EG.FailsOn;
    if window != [] {
      var n := |window| - 1;
      var earlier := window[..n];
      forall k | 0 <= k < n ensures EG.GuessAt(d.elevation, earlier, 1, settings.elevationAuth, k) {
        assert EG.GuessAt(d.elevation, window, 1, settings.elevationAuth, k);
        assert earlier[..k] == window[..k];
      }
      AnsweredRun(d, settings, earlier);
      assert EG.GuessAt(d.elevation, window, 1, settings.elevationAuth, n);
      AnswerOnce(Run(d, Answering(earlier)), settings, window[n]);
      RunSnoc(d, Answering(earlier), Answer(window[n]));
      assert window == earlier + [window[n]];
    }
  }

  /** For every limit and every cap that lets a prompt open, a run of the daemon in which
      exactly (attempt limit + prompt cap - 1) wrong passwords are checked for one
      session, with none accepted and no lockout run out in between. */
  lemma ElevationBoundReached(settings: Settings, service: Option<Uid>)
    returns (before: seq<Input>, stretch: seq<Input>)
    requires settings.sessionLimit >= 1 && settings.elevation.enabled && settings.elevation.maxPending >= 1
    ensures NoReload(before) && NoReload(stretch)
    ensures var d := Run(Boot(settings, service), before);
            var d' := Run(d, stretch);
            && d.elevationCalls <= d'.elevationCalls && EG.NoReset(d.elevation, NewElevationCalls(d, d'), 1)
            && Wrong(d'.log, 1, true) - Wrong(d.log, 1, true)
               == Budget(settings.elevationAuth) + settings.elevation.maxPending - 1
  {
    hide Run; hide E.After; hide L.After; hide Wrong; hide EG.NoReset; hide EG.Failed; hide LT.Count; hide E.OpenFor;
    var boot := Boot(settings, service);
    before := Login() + Asking(settings.elevation.maxPending);
    AskedRun(settings, service, settings.elevation.maxPending);
    var d := Run(boot, before);
    assert E.OpenFor(d.elevation, 1) != {};
    var window := EG.Exhaust(d.elevation, 1, settings.elevation, settings.elevationAuth);
    AnsweredRun(d, settings, window);
    stretch := Answering(window);
    var d' := Run(d, stretch);
    assert NewElevationCalls(d, d') == window;
    TallyGrows(settings, service, before, stretch, window);
  }

  /** Over a stretch, the wrong answers on record grow by those of the calls it made. */
  lemma TallyGrows(settings: Settings, service: Option<Uid>, before: seq<Input>, stretch: seq<Input>,
                   window: seq<E.Call>)
    requires var d := Run(Boot(settings, service), before);
             Run(d, stretch).elevationCalls == d.elevationCalls + window
    ensures var d := Run(Boot(settings, service), before);
            Wrong(Run(d, stretch).log, 1, true) - Wrong(d.log, 1, true) == EG.Failed(d.elevation, window, 1)
  {
    hide Run; hide E.After; hide L.After; hide Wrong; hide EG.Failed; hide LT.Count;
    var boot := Boot(settings, service);
    var d := Run(boot, before);
    AlwaysReplayed(settings, service, before);
    AlwaysReplayed(settings, service, before + stretch);
    RunAppend(boot, before, stretch);
    assert Tallied(d, 1) && Tallied(Run(d, stretch), 1);
    FailedAppend(d.elevationCalls, window, 1);
  }

  // ---- the lock screen --------------------------------------------------------------------------

  /** Alice's session is there, and hers. */
  ghost predicate Present(d: State, settings: Settings) {
    d.settings == settings && 1 in d.sessions.live && d.sessions.live[1].uid == 7
  }

  /** Alice tries a wrong password, or locks her screen, as this call says. */
  function Enter(call: L.Call): Input {
    if call.CUnlock? then Command(1, 7, Unlock(1, "alice"), Calm(false)) else Ask(7, LockSession(1))
  }

  lemma GuessOnce(d: State, settings: Settings)
    requires Present(d, settings)
    ensures var call := LT.WrongGuess(1, settings.unlockAuth);
            var d' := Step(d, Enter(call));
            Present(d', settings) && d'.locks == L.Apply(d.locks, call) && d'.lockCalls == d.lockCalls + [call]
  {
    hide L.Apply; hide L.UnlockOutcome; hide L.LockOf;
  }

  lemma RelockOnce(d: State, settings: Settings)
    requires Present(d, settings)
    ensures var call := LT.Relock(1, settings.lock);
            var d' := Step(d, Enter(call));
            Present(d', settings) && d'.locks == L.Apply(d.locks, call) && d'.lockCalls == d.lockCalls + [call]
  {
    hide L.Apply; hide L.MayLock; hide L.Blocks;
  }

  function Entering(calls: seq<L.Call>): seq<Input> {
    if calls == [] then [] else Entering(calls[..|calls| - 1]) + [Enter(calls[|calls| - 1])]
  }

  ghost predicate Enterable(call: L.Call, settings: Settings) {
    call == LT.WrongGuess(1, settings.unlockAuth) || call == LT.Relock(1, settings.lock)
  }

  lemma {:induction false} EnteredRun(d: State, settings: Settings, calls: seq<L.Call>)
    requires Present(d, settings) && forall k :: 0 <= k < |calls| ==> Enterable(calls[k], settings)
    ensures var d' := Run(d, Entering(calls));
            && Present(d', settings)
            && d'.locks == L.After(d.locks, calls) && d'.lockCalls == d.lockCalls + calls
    ensures NoReload(Entering(calls))
  {
    hide Step; hide L.Apply;
    if calls != [] {
      var n := |calls| - 1;
      var earlier := calls[..n];
      EnteredRun(d, settings, earlier);
      var d' := Run(d, Entering(earlier));
      assert Enterable(calls[n], settings);
      if calls[n].CUnlock? { GuessOnce(d', settings); } else { RelockOnce(d', settings); }
      RunSnoc(d, Entering(earlier), Enter(calls[n]));
      assert calls == earlier + [calls[n]];
    }
  }

  /** For every limit and every number of relocks, a run of the daemon in which exactly
      that many wrong passwords more than the limit are checked at the lock screen of one
      session, each paid for by a lock during a lockout, with none forgiven. */
  lemma UnlockBoundReached(settings: Settings, service: Option<Uid>, relocks: nat) returns (stretch: seq<Input>)
    requires settings.sessionLimit >= 1 && settings.lock.enabled
    ensures NoReload(Login()) && NoReload(stretch)
    ensures var d := Run(Boot(settings, service), Login());
            var d' := Run(d, stretch);
            && d.lockCalls <= d'.lockCalls && LT.NoReset(d.locks, NewLockCalls(d, d'), 1)
            && LT.Count(d.locks, NewLockCalls(d, d'), 1).relocked == relocks
            && Wrong(d'.log, 1, false) - Wrong(d.log, 1, false) == Budget(settings.unlockAuth) + relocks
  {
    hide Run; hide E.After; hide L.After; hide Wrong; hide LT.NoReset; hide LT.Count; hide EG.Failed;
    var boot := Boot(settings, service);
    var d := Run(boot, Login());
    LoginReaches(settings, service);
    var calls := LT.GuessBoundIsTight(relocks, 1, settings.unlockAuth, settings.lock);
    EnteredRun(d, settings, calls);
    stretch := Entering(calls);
    var d' := Run(d, stretch);
    assert NewLockCalls(d, d') == calls && d'.lockCalls == calls;
    AlwaysReplayed(settings, service, Login());
    AlwaysReplayed(settings, service, Login() + stretch);
    RunAppend(boot, Login(), stretch);
    assert Tallied(d, 1) && Tallied(d', 1);
    NothingCounted();
  }

  lemma NothingCounted()
    ensures LT.Count(L.NOTHING_LOCKED, [], 1).failed == 0
  {
  }
}
