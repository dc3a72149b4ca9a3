/** The claim executor: verify the lockup, check the timeout margin, then attempt (swap/reverse.rs). */
module Executor {
  import opened Wrappers
  import opened Models
  import opened Chain
  import opened Ledger

  const LOCKUP_CHECK_MAX_ATTEMPTS: nat := 10
  const MAX_CLAIM_RETRIES: nat := 5
  const MIN_TIMEOUT_L1_MARGIN: nat := 60

  datatype ClaimError = NotLocked | NoMargin | SetupFailed | Drifted | Unconfirmed | Rejected

  datatype ClaimOutcome = Won(tx: Tx) | Lost(error: ClaimError)

  /** `check_timeout_margin`, with its saturating subtraction. */
  predicate MarginOk(timeoutHeight: nat, l1: nat) {
    (if timeoutHeight < l1 then 0 else timeoutHeight - l1) >= MIN_TIMEOUT_L1_MARGIN
  }

  /** The margin is an exact L1 headroom test, whatever side of the timeout the chain is on. */
  lemma MarginIsHeadroom(timeoutHeight: nat, l1: nat)
    ensures MarginOk(timeoutHeight, l1) <==> l1 + 60 <= timeoutHeight
  {
  }

  function VerifyLockup(env: Env, s: State, left: nat): (bool, State)
    decreases left
  {
    if left == 0 then (false, s)
    else
      var answer := LockRead(env, s.now);
      var s1 := Later(Observe(s, LockSeen(s.now, answer)));
      if answer == Some(true) then (true, s1) else VerifyLockup(env, s1, left - 1)
  }

  /** `persist_pending_call_id`: its own read-modify-write of the stored row. */
  function PersistCall(env: Env, s: State, call: CallId): State {
    Put(env, s, s.rec.(pendingCall := Some(call)))
  }

  /** `submit_claim`: hand over, remember the call id, then wait for the transaction hash. */
  function SubmitClaim(env: Env, s: State): (ClaimOutcome, State) {
    var s0 := Touch(env, s);
    var acknowledged := s0.alive && env.answers(s0.now);
    var s1 := Later(Observe(s0, Submitted(s0.now, acknowledged)));
    if !acknowledged then (Lost(Rejected), s1)
    else
      var s2 := PersistCall(env, s1.(acks := s1.acks + 1), env.callId(s0.now));
      if env.answers(s2.now) then (Won(env.minedTx(s2.now)), Later(s2))
      else (Lost(Unconfirmed), Later(s2))
  }

  function TryClaim(env: Env, s: State, skipDrift: bool): (ClaimOutcome, State) {
    var s1 := Later(Observe(s, Attempted(s.now)));
    match env.attempt(s.now)
    case Blocked => (Lost(Rejected), s1)
    case QuoteDrifted => if skipDrift then SubmitClaim(env, s1) else (Lost(Drifted), s1)
    case Ready => SubmitClaim(env, s1)
  }

  function Attempts(env: Env, s: State, skipDrift: bool, attempt: nat): (ClaimOutcome, State)
    requires attempt < MAX_CLAIM_RETRIES
    decreases MAX_CLAIM_RETRIES - attempt
  {
    var (outcome, s1) := TryClaim(env, s, skipDrift);
    if outcome.Won? || outcome.error.Drifted? || outcome.error.Unconfirmed? then (outcome, s1)
    else
      var answer := LockRead(env, s1.now);
      var s2 := Later(Observe(s1, LockSeen(s1.now, answer)));
      if answer == Some(false) || attempt + 1 >= MAX_CLAIM_RETRIES then (outcome, s2)
      else Attempts(env, s2, skipDrift, attempt + 1)
  }

  /** `claim_and_swap`. */
  function ClaimAndSwap(env: Env, s: State, timeoutHeight: nat, skipDrift: bool): (ClaimOutcome, State) {
    var (verified, s1) := VerifyLockup(env, s, LOCKUP_CHECK_MAX_ATTEMPTS);
    if !verified then (Lost(NotLocked), s1)
    else
      match L1Read(env, s1.now)
      case None => (Lost(NoMargin), Later(s1))
      case Some(l1) =>
        var enough := MarginOk(timeoutHeight, l1);
        var s2 := Later(Observe(s1, MarginChecked(s1.now, enough)));
        if !enough then (Lost(NoMargin), s2)
        else if !env.answers(s2.now) then (Lost(SetupFailed), Later(s2))
        else Attempts(env, Later(s2), skipDrift, 0)
  }
}
