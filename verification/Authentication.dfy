/** The credential check shared by screen unlocking and elevation prompts. PAM
    itself is outside the model: whether it accepts is an input. */
module Authentication {
  import opened Common

  datatype AuthPolicy = AuthPolicy(maxAttempts: nat, lockout: Duration)

  /** Why an elevation prompt ended without a verdict on a password. */
  datatype Reason = NoPasswordConfigured | ConnectionDropped | SessionEnded | TimedOut

  datatype AuthOutcome =
    | Success
    | Failure(attemptsRemaining: nat)
    | LockedOut(retryAfter: Duration)
    | Error(reason: Reason)
    | Cancelled

  /** The number of wrong guesses that triggers a lockout: a limit of zero still
      lets one guess through before it bites. */
  function Budget(policy: AuthPolicy): (budget: nat)
    ensures budget >= 1
  {
    if policy.maxAttempts == 0 then 1 else policy.maxAttempts
  }

  /** The outcome of one check and the attempt counter after it. */
  function Verdict(accepted: bool, policy: AuthPolicy, attempts: nat): (r: (AuthOutcome, nat))
    ensures accepted <==> r.0.Success?
    ensures r.1 == if accepted then 0 else attempts + 1
    ensures !accepted ==> (r.0.LockedOut? <==> r.1 >= Budget(policy))
    ensures r.0.Failure? ==> 0 < r.0.attemptsRemaining && r.0.attemptsRemaining + r.1 == Budget(policy)
  {
    if accepted then
      (Success, 0)
    else if attempts + 1 >= policy.maxAttempts then
      (LockedOut(policy.lockout), attempts + 1)
    else
      (Failure(policy.maxAttempts - (attempts + 1)), attempts + 1)
  }

  /** The check as the managers run it: the caller's counter goes in and comes
      back updated. */
  method Check(accepted: bool, policy: AuthPolicy, attemptsSoFar: nat)
    returns (outcome: AuthOutcome, attempts: nat)
    ensures (outcome, attempts) == Verdict(accepted, policy, attemptsSoFar)
  {
    attempts := attemptsSoFar;
    if accepted {
      attempts := 0;
      outcome := Success;
    } else {
      attempts := attempts + 1;
      if attempts >= policy.maxAttempts {
        outcome := LockedOut(policy.lockout);
      } else {
        outcome := Failure(policy.maxAttempts - attempts);
      }
    }
  }
}
