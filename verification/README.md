# mitos-session: a verified model of the daemon

mitos-session is a session daemon: it logs users in and out on seats, locks and
unlocks their screens, dims, locks and suspends on idle, relays password prompts
for privileged actions between a service and the user's compositor, and prepares
the machine for suspend, reboot and power-off. It is one thread that owns six
managers and reacts to one input at a time. This project models that thread and
proves what holds over every run of it.

`dafny verify dfyconfig.toml` checks the whole project.

## How it is built

The specification is a state machine on values. `DaemonModel` defines the state,
the inputs and `Step`; `Run` is the daemon after a list of inputs, and the `Boot`
state is where it starts. Each manager has its own model with the calls the daemon
makes on it: `ElevationModel`, `LockModel`, `SessionModel`, `SeatModel`,
`IdleModel`. What the outside world decides during a step (the clock, whether PAM
accepts, whether an account has a password, whether a process could be spawned, in
which order a hash map is walked) comes in with the step as a `World`. The state
carries a log of everything sent, every credential check and every call of the power
backend, and the history of calls on three of the managers.

On top of it are the theorems:

- `Observables`, `ObservableSteps`: everything a step lets the outside see, exactly,
  told message by message from the state before it.
- `Conversations`: what follows for whole runs, such as that nobody is told yes without
  an accepted password.
- `CallsMade`: which calls each step makes on the managers.
- `ExactlyOnce`: every command is answered once, every prompt dismissed once.
- `Provenance`, `Causes`: where every granted elevation, and every other answer to a
  request for one, comes from.
- `ElevationTheorems`, `ElevationGuessing`: prompt lifetimes, the cap, the lockout
  window, and a tight amortised bound on password guesses.
- `LockTheorems`, `LockSafety`, `LockRecords`, `LockScreens`: only a password opens a
  lock; when a lockout holds; when the session record, the lock and the screen agree;
  guesses are bounded; sessions do not interfere.
- `Authority`: the policy, and exactly which requests of a client that is not root
  change anything of someone else's session.
- `Registry`, `Records`, `Orphans`: sessions, their records, seats, ids, the per-user
  limit, and the sessions that open prompts are for.
- `IdleRuns`: when a seat dims, locks and suspends, read off the run.
- `Connections`: nothing refers to a connection that has gone.
- `PowerSafety`, `PowerCalls`: what holds at the moment the backend is called, and how
  often and for what it is.
- `Bookkeeping`: settings in force, outboxes, exiting.
- `Histories`, `Guarantees`: the managers' theorems carried over to daemon runs.
- `Framing`: the message framing on byte streams.
- `Witnesses`, `Tightness`: runs from start-up that reach the states in which the
  conditions above fail, and those that reach the bounds.

Below it are the objects: classes with the daemon's own fields and loops
(`ElevationManager`, `LockManager`, `InhibitorRegistry`, `SessionManager`,
`SeatManager`, `IdleDetector`, `ConnRegistry`, `Daemon`, and `Pipe` for one
direction of a socket), each method proved against the value model.
`Daemon.Handle` is one `Step` and `Daemon.Serve`, the event loop, is a `Run`, so
every theorem about runs is a theorem about the object.

## Where the code departs from its documentation or from a first guess

The model follows the code.

- Elevation passwords are checked by the one authenticator the daemon builds from
  the `[authentication]` section, not under `[elevation]`'s `pam_service` as
  docs/security.md:127 says (`Guarantees.OneServiceChecks`); so wherever the two
  settings differ, a check of a prompt runs under the other service, and
  `Witnesses.OtherServiceReaches` is such a run.
- src/elevation/manager.rs:474-482 expects a plain failure where the code locks
  out. The outcome is a lockout exactly when the limit is two, as it is there
  (`ElevationGuessing.CancelBetweenGuesses`).
- An elevation lockout refuses new prompts but not answers to prompts already open:
  it stops the guessing exactly when none is open
  (`ElevationGuessing.LockoutStopsGuessing`). The guess bound is therefore the
  attempt limit plus the prompt cap less one, and it is reached.
- A lock-screen lockout does not always last its time: locking the session again
  ends it. `LockTheorems.LockoutWindow` says exactly when a session is locked out.
- A locked session's record does not always say Locked.
  `LockRecords.RecordFallsBehindExactly` says exactly when: four kinds of step leave
  it behind, among them a login under an id that root locked before it existed, and
  four repair it. `Witnesses.SuspendReaches` and `Witnesses.UnbornReaches` are runs
  that end there.
- Reboot, power-off and shutdown end sessions without detaching them from their
  seats or closing their prompts. `Registry.AlwaysSeated` and
  `Orphans.OrphanedExactly` say exactly when that shows, and
  `Witnesses.RebootReaches` is a run in which it does.
- Unlocking checks the user name in the request, not the name in the session's
  record. `LockSafety.OpensUnderAnyName` says when the two are the same check, and
  `Witnesses.OtherNameReaches` is a run in which they are not.
- That a client other than root only acts on its own sessions
  (src/policy/security_policy.rs:11-16) has an exception by design: anyone may
  suspend, reboot or power off, which reaches every session. `Authority.OthersUntouched` says exactly when it does.
- An application can inhibit Idle (docs/ipc.md:39), and nothing looks at it: it delays
  neither dimming nor locking nor suspending
  (`Conversations.IdleInhibitorsDelayNothing`). Inhibiting Lock, Suspend and Shutdown
  works exactly while such an inhibitor is held (`LockTheorems.BlockedExactly`).
- The writer frames payloads up to 4 GiB, the reader rejects those over 16 MiB
  (`Framing.FrameRoundTrip`).

## Model

| member | source | states |
|---|---|---|
| `ObservableSteps.StepExactly` | src/main.rs:162-898 | For every state and every input, what a step adds to the record of everything sent, checked, put off, waited for and asked of the power backend is what is due in it, no more and no less. What is due is told message by message from the state before the step: each event by what it announces and to whom, each reply by what it says, each postponed answer by what ends its prompt, each credential check by who tries which password, and each by whether the connection has an outbox |
| `ObservableSteps.ReplyExactly` | src/main.rs:228-413 | The immediate reply to a request from someone entitled to it is the one owed: every success, outcome and error, each told by the conditions that call for it; and there is none exactly when a prompt is put up instead |
| `Authority.PolicyExactly` | src/policy/security_policy.rs:26-112 | The policy check lets a request through if and only if its sender is root, or owns the live session it names, logs in as themselves, asks for an elevation as the configured service, or answers a prompt where it was shown; and otherwise refuses with UnknownSession, UnknownElevationRequest or PermissionDenied, as fits |
| `Conversations.EveryYesWasChecked` | src/main.rs:525-751 | Over every run, every reply that says Success, immediate or postponed, is sent in a step that also checked a password and found it accepted |
| `Conversations.ElevationRefusals` | src/main.rs:606-660 | After any run, a request for elevation is answered LockedOut, with the configured time, if and only if it is otherwise in order and the lockout window of its session's history is open; PermissionDenied if and only if that is not so and its open prompts reach the cap; and that no password is configured if and only if that is so |
| `Conversations.IdleInhibitorsDelayNothing` | src/main.rs:778-855 | In any state, a tick adds the same to the log whether or not an application inhibits Idle, in either mode |
| `CallsMade.ElevationCallsExactly` | src/main.rs:587-751 | Every step makes exactly the calls on the elevation manager that its input calls for, each with the settings in force and the clock reading of the step, which ties the histories that the theorems on lockouts and guesses speak of to the run |
| `CallsMade.LockCallsExactly` | src/main.rs:486-575 | The same for the lock manager: one call for a lock, an unlock, an inhibitor taken or released or a locking suspend, and for a tick its locks and then one sweep at its own clock reading |
| `ExactlyOnce.ExactlyOnce` | src/main.rs:204-226 | Over every run: commands handled = replies sent at once + postponed replies sent + prompts still open; every request id ever handed out was shown on one connection and put off for one requester, once each, and from the moment it leaves the table has exactly one dismissal at that connection and one answer at that requester, and none anywhere else, whichever of the five endings occurred |
| `ExactlyOnce.RunBooks` | src/main.rs:162-226 | The full ledger holds after every run from start-up, and acknowledgements count the commands exactly |
| `ExactlyOnce.StepBooks` | src/main.rs:162-226 | Every kind of step keeps the ledger, and acknowledges a command exactly when it handles one |
| `ExactlyOnce.StartBooks` | src/main.rs:587-673 | A request for elevation either answers now or opens exactly one prompt and puts exactly one reply off |
| `ExactlyOnce.RespondBooks` | src/main.rs:679-751 | An answer closes its prompt, in the table and in the ledger, if and only if it is final (declined, accepted, or reaching the limit, the session being live), and touches no other prompt |
| `ExactlyOnce.AbandonSettles` | src/main.rs:759-776 | Tearing down any set of prompts, in any order, sends each its one dismissal and its one answer |
| `ExactlyOnce.CalmDispatch` | src/main.rs:228-413 | No other command opens, closes or answers a prompt, and every one of them is answered at once |
| `Provenance.EveryGrantIsTraceable` | src/main.rs:587-751 | Over every run, a postponed "yes" goes only to a requester that asked as root or as the configured service, for a prompt shown on the session's own compositor connection, after that connection or root sent a password the authenticator accepted for that session under that session's user name, the same user as when it was asked |
| `Provenance.EveryPromptWasAsked` | src/main.rs:606-673 | Over every run, every open prompt goes back to one step that asked for it, by someone allowed to, with exactly one show and one postponement, and still has the deadline that step set |
| `Provenance.StartOpens` | src/main.rs:606-673 | A request for elevation leaves the other prompts as they were, and any prompt it adds was asked for by root or the service |
| `Provenance.RespondGrants` | src/policy/security_policy.rs:104-110 | A grant is sent only in a step where the prompt's own compositor or root answered with an accepted password |
| `Provenance.OthersNoGrant` | src/main.rs:759-776 | No other step, teardown by any route included, ever sends a grant |
| `Causes.EveryAnswerHasItsCause` | src/main.rs:679-776 | Over every run, every postponed reply goes to a requester that asked for that prompt and was allowed to, and has its one cause: yes, an accepted password; cancelled, a decline; locked out, a wrong password that reaches the limit; timed out, a tick at or past the deadline set when it was asked for; session ended, an authorized termination of its session; connection dropped, the loss of one of its two connections; and nothing else is ever sent |
| `Causes.StepExplained` | src/main.rs:162-226 | Every postponed reply a step sends is explained by that step in the state before it |
| `ElevationGuessing.GuessBound` | src/elevation/manager.rs:154-233 | From any reachable state, however prompts are opened, cancelled and abandoned meanwhile, at most max(1, limit) + cap - 1 wrong guesses are checked on a session before its next success or the end of its lockout |
| `ElevationGuessing.GuessBoundIsTight` | src/elevation/manager.rs:200-233 | The bound is reached: for every limit and every cap of at least one there is a history that checks exactly that many, because a lockout leaves open prompts answerable |
| `ElevationGuessing.PotentialStep` | src/elevation/manager.rs:145-320 | Every call pays for the wrong guess it makes out of guesses left plus open prompts |
| `ElevationGuessing.CancelDoesNotForgive` | src/elevation/manager.rs:248-258 | In any state, after one prompt is cancelled, a wrong answer to any other has the outcome it would have had, which is a lockout if and only if it reaches the limit |
| `ElevationGuessing.CancelBetweenGuesses` | src/elevation/manager.rs:460-484 | For every limit and cap of at least two, the sequence at that place opens its third prompt and the wrong answer to it locks out if and only if the limit is two, so the plain failure expected there, with a limit of two, does not happen |
| `ElevationGuessing.LockoutStopsGuessing` | src/elevation/manager.rs:200-208 | From any reachable locked-out state, some wrong guess is still checked before the session is forgiven if and only if a prompt is open for it |
| `ElevationGuessing.LockoutWindow` | src/elevation/manager.rs:154-160 | After any history, a new prompt is refused as locked out if and only if some check locked the session out and no sweep has since come at or past the end of the latest such lockout |
| `ElevationGuessing.LockoutTimer` | src/elevation/timeout.rs:42-62 | The lockout timer runs exactly during that window and ends at the time of the latest locking check plus the lockout |
| `ElevationGuessing.LockoutStep` | src/elevation/manager.rs:209-270 | The three things one call can do to a session's lockout: start it, end it with the counter back at zero, or leave it |
| `ElevationTheorems.AlwaysConsistent` | src/elevation/manager.rs:173-320 | After any history, open prompts and prompt deadlines have the same ids, ids lie within the counter, and the sessions flagged locked out are exactly those with a running lockout timer |
| `ElevationTheorems.PromptLifetime` | src/elevation/manager.rs:230-320 | Over any history, a prompt is gone at the end if and only if some call ended it or some sweep came at or past its original deadline; wrong guesses never move the deadline |
| `ElevationTheorems.PromptStep` | src/elevation/manager.rs:192-320 | One call removes a prompt if and only if it ends it or sweeps past its deadline, and otherwise changes nothing about it |
| `ElevationTheorems.IdsNeverReused` | src/elevation/manager.rs:173-175 | A request id once handed out and gone never comes back |
| `ElevationTheorems.CapHolds` | src/elevation/manager.rs:162-171 | With fixed settings no session ever has more prompts open than the cap |
| `ElevationTheorems.OpenForExactly` | src/elevation/manager.rs:162-166 | What the cap counts are the open prompts of that session, all and only those |
| `LockTheorems.UnlockedOnlyByPassword` | src/lock/lock.rs:45-123 | A locked session becomes unlocked in a call if and only if the call is an accepted password for it while it is not locked out |
| `LockTheorems.StaysLocked` | src/lock/lock.rs:55-123 | So it stays locked through any history without such a call |
| `LockTheorems.AlwaysTimed` | src/lock/lock.rs:88-102 | After any history every locked-out session has a running timer |
| `LockTheorems.LockoutEnds` | src/lock/lock.rs:116-123 | A sweep at or past that timer frees the session to guess again, still locked and with a counter of zero, and an earlier sweep does not |
| `LockTheorems.GuessBound` | src/lock/lock.rs:55-123 | From any reachable state, wrong guesses checked between two moments of forgiveness are at most max(1, limit) plus the number of times the session was locked again while locked out |
| `LockTheorems.RelockGrantsOneGuess` | src/lock/lock.rs:55-68 | The extra term is real: locking again during a lockout lets exactly one more guess through |
| `LockTheorems.GuessBoundIsTight` | src/lock/lock.rs:55-111 | The bound is reached: for every limit and every number of relocks there is a history from the start with exactly that many wrong guesses, none forgiven |
| `LockTheorems.LockoutWindow` | src/lock/lock.rs:55-123 | After any history a session is locked out if and only if some refused check reached the limit and no later call was a sweep at or past the end of that lockout or engaged its lock again |
| `LockTheorems.AlwaysHeld` | src/lock/timeout.rs:36-54 | And its timer is then the time of that check plus the lockout |
| `LockTheorems.LockoutStep` | src/lock/lock.rs:55-123 | One call leaves a lockout if and only if it engages the lock or is a sweep past the timer, and enters one if and only if it is a refused check that reaches the limit |
| `LockTheorems.Independence` | src/lock/lock.rs:55-123 | After any interleaving, one session's lock, counter and timer are what its own calls, the sweeps and the inhibitor changes alone would give |
| `LockTheorems.IndependentVerdicts` | src/lock/lock.rs:81-111 | And so is the verdict it gets next |
| `LockTheorems.HeldExactly` | src/lock/inhibitor.rs:44-71 | After any history the inhibitors held are exactly those taken out and not released since, each under the id it was given, and ids count up |
| `LockTheorems.BlockedExactly` | src/lock/inhibitor.rs:73-77 | Something is blocked if and only if a blocking inhibitor of that kind was taken out and not released |
| `LockTheorems.DelayedExactly` | src/lock/inhibitor.rs:79-83 | And delayed if and only if a delaying one was |
| `LockSafety.OpenedOnlyByPassword` | src/main.rs:525-575 | In any state, a daemon step unlocks a locked session if and only if it is an authorized unlock naming it, not locked out, that the authenticator accepts, and that check is on record |
| `LockSafety.OpensUnderAnyName` | src/main.rs:525-554 | The opening step checks the name in the request, whatever it is, and nothing else; the name checked is the session's own user if and only if the request names that user |
| `Witnesses.OtherNameReaches` | src/main.rs:532-544 | Under any settings with locking enabled, a run from start-up in which a session of one user, locked, is opened under another user's name |
| `LockSafety.StaysLocked` | src/main.rs:929-963 | If a session locked at one point of a run is unlocked at a later one, some step in between was such an unlock; crashes, re-registrations, suspends, sweeps, reloads and other sessions' steps never do it |
| `LockSafety.AlwaysAgrees` | src/main.rs:506-554 | In every reachable state a session recorded as Locked is locked, and every live record is Starting, Active or Locked |
| `LockSafety.RegisterRestores` | src/main.rs:263-292 | After every successful registration the record says Locked if the session is locked and Active otherwise, and the lock screen is shown in the first case |
| `LockSafety.UnlockActivates` | src/main.rs:545-554 | After every successful unlock of a live session it is recorded Active and is not locked |
| `LockScreens.ScreensAgree` | src/main.rs:263-292 | Over every run, of every session with a registered compositor: it is Active or Locked, and the last lock-screen event that compositor has been sent since it registered is a Show if and only if the record says Locked |
| `LockScreens.StateExactly` | src/session/state.rs:29-59 | The state of a session that lives through a step: as its lock says when a compositor registers, Locked when it is locked by command or idling, Active when a password is accepted, Starting when its compositor dies, and otherwise what it was |
| `LockScreens.ShowsExactly` | src/main.rs:506-514 | A step sends a Show for a session to a connection if and only if that is its compositor and the step locks it, or it registers as the compositor of a session that is locked |
| `LockScreens.HidesExactly` | src/main.rs:545-554 | A step sends a Hide if and only if a password is accepted for that session, to its compositor |
| `LockScreens.CompositorExactly` | src/main.rs:938-955 | The compositor of a session that lives through a step: whoever registers, nobody once that connection drops or its process dies, and otherwise who it was |
| `LockRecords.RecordFallsBehindExactly` | src/main.rs:486-575 | The converse agreement, exactly: in every run, the record of a live session fails to say Locked though it is locked if and only if some step left it behind and no later one repaired it. Left behind by: an unblocked locking suspend over the open session (by command, or by a tick that does not lock it properly as well), the death of the compositor of the locked session, an authorized wrong password on the open session that reaches the limit, or a login under an id already locked. Repaired by: an authorized registration, an authorized lock that goes through, an accepted password, or an idle lock that goes through |
| `LockRecords.StepFallsBehind` | src/main.rs:808-811 | For any state whose records agree with its locks and any session that lives through a step: its record is behind afterwards if and only if the step leaves it behind, or it was behind and the step does not repair it |
| `LockRecords.BornStep` | src/main.rs:493-507 | Only a login brings a session to life, and its record is behind at once if and only if its id was locked before it existed |
| `LockRecords.TickFallsBehind` | src/main.rs:778-842 | For a tick, whatever the order of its stage changes: behind afterwards if and only if some seat asks for a suspend that locks the open session and none locks it properly, or it was behind and none does |
| `LockRecords.UnlockFallsBehind` | src/lock/lock.rs:88-102 | For an unlock: behind afterwards if and only if a refused password on the open session reaches the limit, or it was behind and the password is not accepted or the session is locked out |
| `Witnesses.SuspendReaches` | src/power/suspend.rs:37-40 | Under any settings that lock on suspend, a run from start-up that ends with a locked session recorded Active |
| `Witnesses.UnbornReaches` | src/main.rs:493-507 | Under any settings with locking enabled, a run from start-up in which root locks an id before it is handed out, and the session that gets it is locked with a record of Starting |
| `Authority.OthersUntouched` | src/policy/security_policy.rs:26-112 | After any run, what a client that is not root sends leaves the record, lock, counter and lockout timer of someone else's session unchanged if and only if it is not a reboot or power-off that nothing blocks, nor a suspend that locks while that session is not plainly Locked |
| `Authority.OthersElevation` | src/policy/security_policy.rs:89-110 | After any run, what such a client sends changes the prompts, deadlines, guesses or elevation lockout of someone else's session if and only if it answers one of its prompts on the connection it was shown to, or comes from the configured service and opens another |
| `Authority.OthersSeats` | src/policy/security_policy.rs:65-71 | After any run, whatever such a client sends, everyone else stays on their seats, and an active session of someone else loses its slot if and only if the client switches that seat to a live session of its own that is on it |
| `Authority.TargetsAreOwned` | src/policy/security_policy.rs:37-71 | For anyone but root, a command naming a session is let through if and only if that session is live and theirs |
| `Connections.StrangersLearnNothing` | src/policy/security_policy.rs:98-110 | Answering someone else's prompt has the same effect and the same reply as answering one that does not exist |
| `Connections.NeverDangling` | src/main.rs:162-202 | In every run whose connections announce themselves first and are silent after disconnecting, every registered compositor, both ends of every open prompt and every outbox belong to a connection still open |
| `Bookkeeping.OutboxesExactly` | src/ipc/server.rs:51-57 | Over every run, a connection has an outbox if and only if it has connected and since then neither disconnected nor been the compositor of a session whose process died |
| `Bookkeeping.SettingsInForce` | src/main.rs:880-897 | Over every run the settings and the service account in force are those of the latest reload |
| `Bookkeeping.ExitsExactly` | src/main.rs:869-879 | Over every run the daemon is exiting if and only if it has been told to terminate |
| `Registry.AlwaysSeated` | src/seat/manager.rs:56-101 | In every run, every live session is on exactly one seat, the one in its record, once; seats have no duplicates and no queue behind an empty slot; and the ids on seats are exactly the live ones if and only if no unblocked reboot or power-off and no shutdown came while someone was logged in |
| `Registry.GhostStep` | src/power/reboot.rs:31-34 | One step leaves someone on a seat after logging out if and only if somebody already was there, or it ends every session while there are some |
| `Orphans.OrphanedExactly` | src/power/reboot.rs:31-34 | In every run, an open prompt's session is gone if and only if an unblocked reboot or power-off, or a shutdown, came while the prompt was open |
| `Orphans.PromptsHaveSessions` | src/main.rs:253-259 | In every run without those, every open prompt's session is live |
| `Witnesses.RebootReaches` | src/power/reboot.rs:31-34 | Under any settings that let a prompt open, a run from start-up that ends with a prompt open for a session that is gone and with that session still on its seat |
| `Registry.IdentityLasts` | src/session/manager.rs:29-62 | Over any run, a session alive at both ends kept its user, uid, seat and type, and session ids are never reused |
| `Registry.SessionCap` | src/session/manager.rs:36-46 | With fixed settings no user ever has more live sessions than the limit |
| `Registry.PromotionFollowsArrival` | src/seat/manager.rs:69-77 | In any run without switches every seat stays in order of arrival, so the active session is the earliest still there |
| `Registry.CreateEffect` | src/main.rs:415-470 | Creating a session does one of three things: nothing, burn an id, or add the session and attach it to its seat, and then only below the limit |
| `Records.LoginExactly` | src/main.rs:415-470 | A session comes to life in a step if and only if someone entitled to asks, the account exists, is below its limit and has a home, and it gets the next id; and then with a fresh record: the account's user, the seat and type asked for or the configured ones, Starting, no compositor, a process unless it is a terminal, and a place on that seat |
| `Records.LoginsAreOwn` | src/policy/security_policy.rs:48-63 | After any run, a session that a step brings to life belongs to the user who sent the request, or root sent it |
| `Records.LoginPolicy` | src/policy/security_policy.rs:48-63 | For anyone but root a login is let through if and only if the account named exists and has the sender's uid |
| `Records.IdsSpentExactly` | src/session/manager.rs:48-52 | A session id is spent if and only if a login gets past the limit, whether or not the home is then ready |
| `Records.RecordExactly` | src/main.rs:929-994 | After any run, the whole record of a session that lives through a step: state and compositor as said, a new process and one more restart up to the limit when its process dies, and nothing else changed |
| `SessionModel.OwnedByExactly` | src/session/manager.rs:36-40 | What the limit counts are the user's live sessions, all and only those |
| `SessionModel.Lifecycle` | src/session/state.rs:29-49 | The transition table, as a law: a live session moves freely among the live states except that only an active one goes idle, may close from any of them, and closing leads to closed and nowhere else |
| `SeatModel.JoinedRefines` | src/seat/manager.rs:56-63 | Attaching appends to the one list made of the active slot and the queue |
| `SeatModel.LeftRefines` | src/seat/manager.rs:69-77 | Detaching filters that list, keeping the order, and keeps it well formed |
| `SeatModel.SwitchedRefines` | src/seat/manager.rs:83-101 | Switching moves the target to the head and the old head to the back, keeps the others in order, and neither adds nor loses anyone |
| `IdleModel.TickIsStateless` | src/idle/detector.rs:31-47 | After any history, a tick puts a seat at the stage implied by the time since the latest activity on it, Active if there was none, and reports it if and only if that is not the stage the latest earlier tick or activity implied |
| `IdleModel.CacheIsHistory` | src/idle/detector.rs:22-47 | After any history, what is remembered of a seat is its latest activity, and its cached stage is what its latest tick since then implied |
| `IdleModel.ReportsClimb` | src/idle/detector.rs:22-47 | Between two activities the stages reported for a seat strictly climb, are never Active, number at most three and include suspend at most once, for any tick schedule and any thresholds |
| `IdleModel.StageForMonotone` | src/idle/policy.rs:29-40 | Longer idle never means a milder stage, even with thresholds out of order |
| `IdleModel.StageThresholds` | src/idle/policy.rs:29-40 | Which threshold leads to which stage: suspend if and only if the suspend threshold is on and reached; lock or suspend if and only if one of those two is; Active if and only if none of the three is |
| `IdleRuns.TickChangesExactly` | src/main.rs:778-783 | After any run, a tick changes a seat to a stage if and only if activity on it has been reported, the time since the latest report in the run implies that stage, and the seat was not left at it |
| `IdleRuns.StagesByThreshold` | src/idle/policy.rs:29-40 | And so by the thresholds in force: suspend, lock and dim changes each if and only if theirs is on and reached, no graver one is, and the stage is new |
| `IdleRuns.IdleLocksExactly` | src/main.rs:792-821 | After any run, a tick locks a session for idling if and only if it is the active one of a seat idle, by the run, for the lock threshold and not the suspend threshold, that is news, locking on idle is configured and possible, and the user has a password |
| `IdleRuns.HistoryOfRun` | src/main.rs:307-311 | The detector's history says of each seat what the run says |
| `Guarantees.ElevationGuessBound` | src/elevation/manager.rs:154-233 | The elevation bound over daemon runs, counting the checks on record |
| `Guarantees.UnlockGuessBound` | src/lock/lock.rs:55-123 | The unlock bound over daemon runs, counting the checks on record |
| `Guarantees.PromptCap` | src/elevation/manager.rs:162-171 | The prompt cap over daemon runs |
| `Guarantees.TickLeavesNothingOverdue` | src/main.rs:840-855 | After any run, a tick leaves no prompt and no lockout of either kind at or past its deadline |
| `Guarantees.IdleStagesClimb` | src/main.rs:778-837 | Over daemon runs with a clock that never goes back, the stages acted on for a seat between two activities strictly climb, suspend at most once and last |
| `Guarantees.TickActsOnReports` | src/main.rs:783-837 | After any run, a tick carries out a stage change for a seat if and only if that report grows by the stage |
| `Guarantees.OneServiceChecks` | src/main.rs:134-137 | In every run, every credential check, of elevation prompts included, runs under the PAM service of the [authentication] section in force at that step |
| `Witnesses.OtherServiceReaches` | src/main.rs:679-720 | Under any settings that let a prompt open, a run from start-up in which an elevation password is checked under the service of [authentication], whatever [elevation] names |
| `Tightness.ElevationBoundReached` | src/elevation/manager.rs:200-233 | For every limit and every cap of at least one, a daemon run from start-up that reaches the elevation bound, counting the checks on record |
| `Tightness.UnlockBoundReached` | src/lock/lock.rs:55-111 | For every limit and every number of relocks, a daemon run from start-up that reaches the unlock bound, counting the checks on record |
| `Histories.AlwaysReplayed` | src/main.rs:119-131 | In every run each manager's state is the replay of the calls made on it, and the checks on record are the ones those calls made |
| `Histories.GrewStep` | src/main.rs:162-226 | Every step except a reload only adds to the record, and every call it makes runs under the settings in force |
| `PowerSafety.AlwaysPrepared` | src/power/suspend.rs:21-46 | In every run, whenever the backend is called to suspend, nothing blocks it and, if the policy locks on suspend and locking is possible, every live session is locked; whenever it is called to reboot or power off, nothing blocks that and no session is left; and if an application asked for a delay, the pause of the configured length came just before |
| `PowerSafety.SuspendRefusal` | src/power/suspend.rs:21-46 | A suspend leaves the whole state as it was if and only if an inhibitor blocks it, and never unlocks anyone |
| `PowerSafety.PowerDownRefusal` | src/power/shutdown.rs:19-40 | A reboot or power-off leaves the whole state as it was if and only if an inhibitor blocks it, and otherwise leaves no session |
| `PowerCalls.CallsExactly` | src/power/suspend.rs:21-46 | Every step calls the backend exactly as often as it owes, kind by kind: once to suspend for an unblocked suspend request, once for each seat that has just idled that long, once to reboot for an unblocked reboot and once to power off for an unblocked power-off |
| `PowerCalls.RunCalls` | src/power/shutdown.rs:19-40 | And so over every run |
| `Framing.LengthRoundTrip` | src/ipc/protocol.rs:24-24 | Every 32-bit length survives little-endian encoding |
| `Framing.BytesRoundTrip` | src/ipc/protocol.rs:45-45 | And every four bytes are the encoding of the length they decode to |
| `Framing.LeastSignificantFirst` | src/ipc/protocol.rs:24-24 | The length is written least significant byte first |
| `Framing.FrameRoundTrip` | src/ipc/protocol.rs:20-55 | A written payload is read back, leaving the rest of the stream, if and only if it is at most 16 MiB and decodes; otherwise it is rejected as too long or as malformed |
| `Framing.ReadIsFramed` | src/ipc/protocol.rs:35-55 | A message comes out only of a stream that starts with exactly its frame |
| `Framing.CutStream` | src/ipc/protocol.rs:35-55 | Any list of frames cut at any byte is read as exactly the messages that arrived whole, and the ending tells whether the cut fell in a length or in a payload |
| `Framing.StreamRoundTrip` | src/ipc/protocol.rs:20-55 | Uncut, the reader gets exactly the list and then a disconnect |
| `Framing.BadFrameEnds` | src/ipc/server.rs:152-172 | The reader stops at the first frame that is too long or does not decode, having got everything before it, whatever follows |
| `Framing.Pipe.WriteMessage` | src/ipc/protocol.rs:20-28 | Appends the frame, or refuses and appends nothing when the length does not fit |
| `Framing.Pipe.ReadMessage` | src/ipc/protocol.rs:35-55 | Takes one frame off the front, or fails as the specification says; in both cases exactly the bytes read are gone |
| `Framing.Pipe.Drain` | src/ipc/server.rs:152-172 | The reader loop gets everything the specification reads from the stream |
| `Authentication.Verdict` | src/authentication/authenticator.rs:62-87 | Success if and only if accepted, with the counter back at zero; otherwise the counter grows by one, and lockout if and only if it has reached max(1, limit), the tries left being the exact difference |
| `Authentication.Check` | src/authentication/authenticator.rs:62-87 | The imperative check computes that verdict and counter |
| `Timers.DrainExpired` | src/elevation/timeout.rs:52-62 | Reports each key at or past its deadline exactly once, in any order, and keeps every other entry |
| `ElevationManagers.ElevationTimeouts.ExpiredPrompts` | src/elevation/timeout.rs:38-40 | Drains the prompt deadlines that have passed and leaves lockouts alone |
| `ElevationManagers.ElevationTimeouts.ExpiredLockouts` | src/elevation/timeout.rs:48-50 | Drains the lockouts that have run out and leaves prompts alone |
| `ElevationManagers.ElevationManager.Begin` | src/elevation/manager.rs:145-185 | Refines the model's begin: refusal while locked out, refusal at the cap, or the next id with its deadline |
| `ElevationManagers.ElevationManager.Attempt` | src/elevation/manager.rs:192-242 | Refines the model's attempt: counter, lockout and timer, and the prompt closed if and only if the outcome is final |
| `ElevationManagers.ElevationManager.Cancel` | src/elevation/manager.rs:248-258 | Refines the model's cancel, which touches no counter |
| `ElevationManagers.ElevationManager.ClearExpiredLockouts` | src/elevation/manager.rs:263-270 | Refines the model's lockout sweep |
| `ElevationManagers.ElevationManager.ExpirePending` | src/elevation/manager.rs:276-282 | Closes exactly the overdue prompts and reports each once |
| `ElevationManagers.ElevationManager.AbandonSession` | src/elevation/manager.rs:286-288 | Closes exactly the session's prompts and reports each once |
| `ElevationManagers.ElevationManager.AbandonConnection` | src/elevation/manager.rs:293-295 | Closes exactly the prompts that use the connection in either role and reports each once |
| `ElevationManagers.ElevationManager.AbandonWhere` | src/elevation/manager.rs:297-310 | The collect-then-remove loop closes and reports exactly the chosen prompts |
| `ElevationManagers.ElevationManager.TakeAbandoned` | src/elevation/manager.rs:312-320 | Stops the timer, removes the prompt and reports it if it was there |
| `LockManagers.LockTimeouts.ExpiredLockouts` | src/lock/timeout.rs:40-55 | Drains the lockouts that have run out |
| `LockManagers.InhibitorRegistry.Blocks` | src/lock/inhibitor.rs:73-77 | True if and only if some blocking inhibitor of that kind is held |
| `LockManagers.LockManager.IsLocked` | src/lock/lock.rs:45-50 | True if and only if the session is Locked or LockedOut |
| `LockManagers.LockManager.Lock` | src/lock/lock.rs:55-68 | Refines the model's lock, which succeeds if and only if locking is enabled and not inhibited |
| `LockManagers.LockManager.AttemptUnlock` | src/lock/lock.rs:81-111 | Refines the model's attempt: no check while locked out; otherwise verdict, counter, state and timer |
| `LockManagers.LockManager.ClearLockout` | src/lock/lock.rs:116-123 | Frees the session if it is locked out, back to Locked with a counter of zero |
| `LockManagers.LockManager.SweepLockouts` | src/main.rs:840-842 | The sweep loop frees exactly the sessions whose lockout has run out |
| `SessionManagers.SessionManager.CreateSession` | src/session/manager.rs:29-54 | Refines the model's creation: refusal at the limit, an id burnt when the home is not ready, or a new Starting session |
| `SessionManagers.SessionManager.TerminateAll` | src/power/reboot.rs:31-34 | The removal loop leaves no session |
| `SessionManagers.SessionManager.Transition` | src/session/state.rs:29-59 | Moves the state if the transition table allows it and leaves it otherwise |
| `SessionManagers.SessionManager.ForgetConnection` | src/main.rs:180-188 | Clears that compositor connection from every session that has it, and touches nothing else |
| `SessionManagers.SessionManager.FindByProcess` | src/main.rs:932-937 | Finds a session with that process if and only if there is one |
| `SeatManagers.SeatManager.EnsureSeat` | src/seat/manager.rs:23-27 | Adds the seat empty if it is new |
| `SeatManagers.SeatManager.AttachSession` | src/seat/manager.rs:56-63 | Refines the model's attach |
| `SeatManagers.SeatManager.DetachSession` | src/seat/manager.rs:69-77 | The loop over all seats refines the model's detach |
| `SeatManagers.SeatManager.SwitchActive` | src/seat/manager.rs:83-101 | Refines the model's switch, with both errors and the previous session |
| `IdleDetectors.IdleDetector.RecordActivity` | src/idle/detector.rs:22-25 | Restarts the seat's idle time and resets its stage |
| `IdleDetectors.IdleDetector.Tick` | src/idle/detector.rs:31-47 | The loop over seats updates every stage and reports exactly the changes, each once |
| `Daemons.Daemon.constructor` | src/main.rs:134-160 | Starts in the model's initial state, with the default seat |
| `Daemons.Daemon.NotifyAbandoned` | src/main.rs:759-776 | The loop over torn-down prompts sends what the model sends |
| `Daemons.Daemon.StartElevation` | src/main.rs:587-673 | Refines the model's request for elevation, every refusal included |
| `Daemons.Daemon.RespondElevation` | src/main.rs:679-751 | Refines the model's answer to a prompt |
| `Daemons.Daemon.CreateSession` | src/main.rs:415-470 | Refines the model's creation of a session |
| `Daemons.Daemon.TrySpawn` | src/main.rs:476-484 | Records the process if spawning worked and the session is there |
| `Daemons.Daemon.TerminateSession` | src/main.rs:242-262 | Refines the model's termination, for whatever order the prompts were walked in |
| `Daemons.Daemon.RegisterCompositor` | src/main.rs:263-292 | Refines the model's registration |
| `Daemons.Daemon.SwitchSession` | src/main.rs:312-332 | Refines the model's switch |
| `Daemons.Daemon.LockSession` | src/main.rs:486-523 | Refines the model's manual lock |
| `Daemons.Daemon.Unlock` | src/main.rs:525-575 | Refines the model's unlock |
| `Daemons.Daemon.LockEveryone` | src/power/suspend.rs:37-44 | Locking the live sessions one by one is locking them all, whatever the order, and every registered compositor is told once for each of its sessions |
| `Daemons.Daemon.Pause` | src/power/suspend.rs:27-35 | Waits the configured time if and only if some delaying inhibitor of that kind is held |
| `Daemons.Daemon.Suspend` | src/power/suspend.rs:13-46 | Refines the model's suspend |
| `Daemons.Daemon.PowerDown` | src/power/shutdown.rs:13-40 | Refines the model's power-off and reboot |
| `Daemons.Daemon.Query` | src/main.rs:293-299 | The listing commands answer from the state and change nothing |
| `Daemons.Daemon.Dispatch` | src/main.rs:228-413 | Refines the model's dispatch of every command |
| `Daemons.Daemon.HandleCommand` | src/main.rs:204-226 | Refuses, answers, or puts the answer off, as the model does |
| `Daemons.Daemon.HandleDisconnect` | src/main.rs:169-199 | Refines the model's disconnect |
| `Daemons.Daemon.ApplyChanges` | src/main.rs:783-838 | The loop over stage changes refines the model's |
| `Daemons.Daemon.SweepTimers` | src/main.rs:840-855 | Refines the model's three sweeps, in their order |
| `Daemons.Daemon.OnIdleTick` | src/main.rs:778-855 | Refines the model's tick, for whatever order the maps were walked in |
| `Daemons.Daemon.HandleCompositorExit` | src/main.rs:929-994 | Refines the model's child exit: stale connection dropped, fall back to Starting, restart or terminal |
| `Daemons.Daemon.Handle` | src/main.rs:162-202 | One input of any kind takes the object from one model state to the model's next, with the world's answers unchanged |
| `Daemons.Daemon.Serve` | src/main.rs:106-110 | The event loop, batch by batch, is a run of the state machine on the inputs it took; it stops at the first moment between batches at which the daemon is exiting |

## Left out

- PAM, /etc/shadow, /etc/passwd, home and runtime directories, process spawning, the power backends, udev, sd_notify and the audit log: each is a Boolean or an optional value in the `World` of a step, one answer per step.
- The bincode encoding of messages: framing is proved for arbitrary payload bytes and any choice of which of them decode.
- Message texts: errors are a small enumeration, and texts that differ only in wording share a value; the creation time and the virtual terminal of a session are not kept.
- Integer width: ids, counters and times are unbounded naturals, so overflow of u32 and u64 counters is not modelled.
- `ElevationAction::validate`: whether an action is well formed is part of the request.
- Grace timers and `LockManager::unlock`, which nothing in the daemon calls.
- Daemons.Daemon.Suspend: the PrepareForSleep events of one suspend are one log entry, with one event for each session that has a compositor; they carry no data and each connection's own sequence of events can be read off it, but the order in which different connections are served is not kept.
- The order of listings: session and inhibitor lists are sets and maps in the reply.
- `ResumedFromSleep` and `Undim` events, mitos-sessionctl, configuration loading, and the modules that are never compiled in (autostart, the seat monitor, the session runtime).
- The threads of a connection: its messages arrive as separate inputs, and Disconnected is an input that may never come. `Connections.NeverDangling` assumes the order Connected, commands, Disconnected of src/ipc/server.rs:132-177, and the other theorems do not.
- The two timer classes share one draining loop in `Timers`, where the source has two with the same body.
