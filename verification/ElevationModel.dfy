/** The elevation relay as a value: what every operation of the manager does to
    the open prompts, the per-session guess counters and the two timers. */
module ElevationModel {
  import opened Common
  import opened Authentication

  datatype ElevationPolicy = ElevationPolicy(enabled: bool, promptTimeout: Duration, maxPending: nat)

  /** An open prompt: who is being verified, who shows it, who is waiting. */
  datatype Prompt = Prompt(session: SessionId, compositor: ConnId, requester: ConnId)

  datatype Guesses = Guesses(lockedOut: bool, attempts: nat)

  datatype Elevation = Elevation(
    pending: map<RequestId, Prompt>,
    nextId: nat,
    guesses: map<SessionId, Guesses>,
    promptExpiry: map<RequestId, Instant>,
    lockoutExpiry: map<SessionId, Instant>)

  const EMPTY := Elevation(map[], 0, map[], map[], map[])

  datatype BeginResult = Opened(id: RequestId) | RefusedLockedOut(retryAfter: Duration) | RefusedTooMany

  /** What one answer to a prompt led to. */
  datatype Resolution = Resolution(prompt: Prompt, outcome: AuthOutcome, terminal: bool)

  /** A prompt torn down without being answered. */
  datatype Abandoned = Abandoned(id: RequestId, prompt: Prompt)

  function GuessesOf(e: Elevation, s: SessionId): Guesses {
    if s in e.guesses then e.guesses[s] else Guesses(false, 0)
  }

  predicate IsLockedOut(e: Elevation, s: SessionId) {
    GuessesOf(e, s).lockedOut
  }

  /** The prompts currently open for one session. */
  function OpenFor(e: Elevation, s: SessionId): set<RequestId> {
    set id | id in e.pending && e.pending[id].session == s
  }

  function BeginOutcome(e: Elevation, s: SessionId, policy: ElevationPolicy, auth: AuthPolicy): BeginResult {
    if IsLockedOut(e, s) then RefusedLockedOut(auth.lockout)
    else if |OpenFor(e, s)| >= policy.maxPending then RefusedTooMany
    else Opened(e.nextId + 1)
  }

  function Begin(e: Elevation, s: SessionId, compositor: ConnId, requester: ConnId,
                 policy: ElevationPolicy, auth: AuthPolicy, now: Instant): Elevation
  {
    match BeginOutcome(e, s, policy, auth)
    case Opened(id) =>
      e.(nextId := id,
         pending := e.pending[id := Prompt(s, compositor, requester)],
         promptExpiry := e.promptExpiry[id := now + policy.promptTimeout])
    case _ => e
  }

  /** Close a set of prompts: they leave the table and their timers stop. */
  function Close(e: Elevation, ids: set<RequestId>): Elevation {
    e.(pending := e.pending - ids, promptExpiry := e.promptExpiry - ids)
  }

  function AttemptOutcome(e: Elevation, id: RequestId, accepted: bool, auth: AuthPolicy): Option<Resolution> {
    if id !in e.pending then None
    else
      var outcome := Verdict(accepted, auth, GuessesOf(e, e.pending[id].session).attempts).0;
      Some(Resolution(e.pending[id], outcome, !outcome.Failure?))
  }

  /** The counters and the lockout timer after a checked guess on session `s`. */
  function Guessed(e: Elevation, s: SessionId, accepted: bool, auth: AuthPolicy, now: Instant): Elevation {
    var before := GuessesOf(e, s);
    var verdict := Verdict(accepted, auth, before.attempts);
    if verdict.0.LockedOut? then
      e.(guesses := e.guesses[s := Guesses(true, verdict.1)],
         lockoutExpiry := e.lockoutExpiry[s := now + auth.lockout])
    else
      e.(guesses := e.guesses[s := Guesses(before.lockedOut, verdict.1)])
  }

  function Attempt(e: Elevation, id: RequestId, accepted: bool, auth: AuthPolicy, now: Instant): Elevation {
    match AttemptOutcome(e, id, accepted, auth)
    case None => e
    case Some(r) =>
      var checked := Guessed(e, r.prompt.session, accepted, auth, now);
      if r.terminal then Close(checked, {id}) else checked
  }

  function CancelOutcome(e: Elevation, id: RequestId): Option<Resolution> {
    if id in e.pending then Some(Resolution(e.pending[id], Cancelled, true)) else None
  }

  function ExpiredLockouts(e: Elevation, now: Instant): set<SessionId> {
    set s | s in e.lockoutExpiry && e.lockoutExpiry[s] <= now
  }

  /** Forget the wrong guesses of the sessions in `ids`. */
  function Forgiven(guesses: map<SessionId, Guesses>, ids: set<SessionId>): map<SessionId, Guesses> {
    map s | s in guesses :: if s in ids then Guesses(false, 0) else guesses[s]
  }

  function ClearLockouts(e: Elevation, now: Instant): Elevation {
    var expired := ExpiredLockouts(e, now);
    e.(lockoutExpiry := e.lockoutExpiry - expired, guesses := Forgiven(e.guesses, expired))
  }

  function ExpiredPrompts(e: Elevation, now: Instant): set<RequestId> {
    set id | id in e.promptExpiry && e.promptExpiry[id] <= now
  }

  /** The open prompts whose time is up. */
  function Overdue(e: Elevation, now: Instant): set<RequestId> {
    ExpiredPrompts(e, now) * e.pending.Keys
  }

  function Touching(e: Elevation, conn: ConnId): set<RequestId> {
    set id | id in e.pending && (e.pending[id].compositor == conn || e.pending[id].requester == conn)
  }

  /** The calls the daemon makes on the manager. */
  datatype Call =
    | CBegin(session: SessionId, compositor: ConnId, requester: ConnId,
             policy: ElevationPolicy, auth: AuthPolicy, now: Instant)
    | CAttempt(id: RequestId, accepted: bool, auth: AuthPolicy, now: Instant)
    | CCancel(id: RequestId)
    | CClearLockouts(now: Instant)
    | CExpire(now: Instant)
    | CAbandonSession(session: SessionId)
    | CAbandonConnection(conn: ConnId)

  function Apply(e: Elevation, call: Call): Elevation {
    match call
    case CBegin(s, c, r, policy, auth, now) => Begin(e, s, c, r, policy, auth, now)
    case CAttempt(id, accepted, auth, now) => Attempt(e, id, accepted, auth, now)
    case CCancel(id) => Close(e, {id})
    case CClearLockouts(now) => ClearLockouts(e, now)
    case CExpire(now) => Close(e, ExpiredPrompts(e, now))
    case CAbandonSession(s) => Close(e, OpenFor(e, s))
    case CAbandonConnection(c) => Close(e, Touching(e, c))
  }

  /** The manager after a history of calls. */
  function After(e: Elevation, calls: seq<Call>): Elevation {
    if calls == [] then e else Apply(After(e, calls[..|calls| - 1]), calls[|calls| - 1])
  }

  lemma AfterSnoc(e: Elevation, calls: seq<Call>, call: Call)
    ensures After(e, calls + [call]) == Apply(After(e, calls), call)
  {
    assert (calls + [call])[..|calls|] == calls;
  }

  lemma {:induction false} AfterAppend(e: Elevation, a: seq<Call>, b: seq<Call>)
    ensures After(e, a + b) == After(After(e, a), b)
    decreases |b|
  {
    if b == [] {
      assert a + b == a;
    } else {
      var n := |b| - 1;
      assert a + b == (a + b[..n]) + [b[n]];
      AfterSnoc(e, a + b[..n], b[n]);
      AfterAppend(e, a, b[..n]);
    }
  }
}
