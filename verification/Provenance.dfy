/** Where a recorded claim hash comes from, and what a completed swap says about its lockup. */
module Provenance {
  import opened Wrappers
  import opened Models
  import opened LogScan
  import opened Chain
  import opened Ledger
  import opened Executor
  import opened Protocol
  import opened Safety
  import opened Runs
  import opened Convergence
  import opened Reveal

  /** The gas sponsor named it, or it is the transaction that claimed the lockup. */
  ghost predicate Known(env: Env, t: nat, hash: Option<Tx>) {
    hash.Some? ==> Named(env, hash.value) || env.world(t).lockup == Claimed(hash.value)
  }

  ghost predicate Named(env: Env, tx: Tx) {
    exists i: nat :: env.minedTx(i) == tx
  }

  lemma KnownLater(env: Env, i: nat, j: nat, hash: Option<Tx>)
    requires EnvOk(env) && i <= j && Known(env, i, hash)
    ensures Known(env, j, hash)
  {
    Growth(env, i, j);
  }

  /** What a stretch of a run does to the recorded hash. */
  ghost predicate KeepsKnown(env: Env, s: State, r: State) {
    s.now <= r.now && (Known(env, s.now, s.rec.claimTx) ==> Known(env, r.now, r.rec.claimTx))
  }

  lemma PutKnown(env: Env, s: State, swap: Swap)
    requires EnvOk(env) && Known(env, s.now, swap.claimTx)
    ensures KeepsKnown(env, s, Put(env, s, swap))
  {
    KnownLater(env, s.now, s.now + 1, swap.claimTx);
    if Known(env, s.now, s.rec.claimTx) { KnownLater(env, s.now, s.now + 1, s.rec.claimTx); }
  }

  lemma LaterKnown(env: Env, s: State, t: nat)
    requires EnvOk(env) && s.now <= t
    ensures KeepsKnown(env, s, At(s, t))
  {
    if Known(env, s.now, s.rec.claimTx) { KnownLater(env, s.now, t, s.rec.claimTx); }
  }

  lemma UpdateKnown(env: Env, s: State, swap: Swap, status: Status)
    requires EnvOk(env) && Known(env, s.now, swap.claimTx)
    ensures KeepsKnown(env, s, UpdateStatus(env, s, swap, status))
  {
    var row := swap.(status := status);
    PutKnown(env, s, row);
    LaterKnown(env, Put(env, s, row), s.now + 2);
  }

  // ----- claiming -----

  lemma {:induction false} WonIsNamed(env: Env, s: State, skipDrift: bool, attempt: nat)
    requires attempt < MAX_CLAIM_RETRIES
    ensures var o := Attempts(env, s, skipDrift, attempt).0; o.Won? ==> Named(env, o.tx)
    decreases MAX_CLAIM_RETRIES - attempt
  {
    hide LockRead;
    var (o, s1) := TryClaim(env, s, skipDrift);
    if !(o.Won? || o.error.Drifted? || o.error.Unconfirmed?) && attempt + 1 < MAX_CLAIM_RETRIES {
      hide TryClaim;
      WonIsNamed(env, Later(Observe(s1, LockSeen(s1.now, LockRead(env, s1.now)))), skipDrift, attempt + 1);
    }
  }

  lemma ClaimKnown(env: Env, s: State, timeoutHeight: nat, skipDrift: bool)
    requires EnvOk(env)
    ensures var (o, r) := ClaimAndSwap(env, s, timeoutHeight, skipDrift);
            && KeepsKnown(env, s, r) && r.rec.claimTx == s.rec.claimTx
            && (o.Won? ==> Named(env, o.tx))
  {
    hide VerifyLockup, Attempts;
    ClaimKeeps(env, s, timeoutHeight, skipDrift);
    var (o, r) := ClaimAndSwap(env, s, timeoutHeight, skipDrift);
    if Known(env, s.now, s.rec.claimTx) { KnownLater(env, s.now, r.now, s.rec.claimTx); }
    var s1 := VerifyLockup(env, s, LOCKUP_CHECK_MAX_ATTEMPTS).1;
    if L1Read(env, s1.now).Some? {
      var enough := MarginOk(timeoutHeight, L1Read(env, s1.now).value);
      WonIsNamed(env, Later(Later(Observe(s1, MarginChecked(s1.now, enough)))), skipDrift, 0);
    }
  }

  lemma DoClaimKnown(env: Env, s: State, swap: Swap, skipDrift: bool)
    requires EnvOk(env) && Known(env, s.now, swap.claimTx)
    ensures KeepsKnown(env, s, DoClaim(env, s, swap, skipDrift))
  {
    hide ClaimAndSwap, UpdateStatus, Put, Known;
    UpdateKnown(env, s, swap, Claiming);
    var s1 := UpdateStatus(env, s, swap, Claiming);
    ClaimKnown(env, s1, swap.terms.timeoutHeight, skipDrift);
    var (o, s2) := ClaimAndSwap(env, s1, swap.terms.timeoutHeight, skipDrift);
    KnownLater(env, s.now, s2.now, swap.claimTx);
    match o {
      case Won(tx) =>
        assert Known(env, s2.now, Some(tx)) by { NamedIsKnown(env, s2.now, tx); }
        PutKnown(env, s2, swap.(status := Claiming, claimTx := Some(tx)));
      case Lost(Drifted) =>
        var reverted := swap.(status := TbtcLocked);
        PutKnown(env, s2, reverted);
        var s3 := Put(env, s2, reverted);
        LaterKnown(env, s3, s3.now + 1);
      case Lost(_) =>
    }
  }

  lemma NamedIsKnown(env: Env, t: nat, tx: Tx)
    requires Named(env, tx)
    ensures Known(env, t, Some(tx))
  {
  }

  // ----- receipts and recovery -----

  lemma CheckReceiptKnown(env: Env, s: State, tx: Tx)
    requires EnvOk(env)
    ensures KeepsKnown(env, s, CheckReceiptOnce(env, s, tx).1)
  {
    hide Known;
    var r := CheckReceiptOnce(env, s, tx).1;
    assert r.rec.claimTx == s.rec.claimTx && s.now <= r.now;
    if Known(env, s.now, s.rec.claimTx) { KnownLater(env, s.now, r.now, s.rec.claimTx); }
  }

  lemma AdvanceKnown(env: Env, s: State, tx: Tx)
    requires EnvOk(env) && env.world(s.now).lockup == Claimed(tx)
    ensures KeepsKnown(env, s, AdvanceViaWinningClaim(env, s, tx).1)
  {
    hide CheckReceiptOnce;
    var row := s.rec.(claimTx := Some(tx), pendingCall := None);
    PutKnown(env, s, row);
    CheckReceiptKnown(env, Put(env, s, row), tx);
  }

  /** The common tail: the lockup read as spent, so act on why. */
  lemma SpentKnown(env: Env, s: State, t0: nat, swap: Swap, status: Status)
    requires EnvOk(env) && s.now <= t0 && Known(env, s.now, swap.claimTx)
    ensures var (verdict, t) := Classify(env, t0, swap.lockupTx);
            && s.now <= t && KeepsKnown(env, s, At(s, t))
            && (verdict.ByRefund? ==> KeepsKnown(env, s, UpdateStatus(env, At(s, t), swap, status)))
            && (verdict.ByClaim? ==> KeepsKnown(env, s, AdvanceViaWinningClaim(env, At(s, t), verdict.tx).1))
  {
    hide AdvanceViaWinningClaim, UpdateStatus, Classify, Known;
    VerdictIsSound(env, t0, swap.lockupTx);
    var (verdict, t) := Classify(env, t0, swap.lockupTx);
    LaterKnown(env, s, t);
    KnownLater(env, s.now, t, swap.claimTx);
    if verdict.ByRefund? { UpdateKnown(env, At(s, t), swap, status); }
    if verdict.ByClaim? { AdvanceKnown(env, At(s, t), verdict.tx); }
  }

  lemma RetryKnown(env: Env, s: State, swap: Swap)
    requires EnvOk(env) && Known(env, s.now, swap.claimTx)
    ensures KeepsKnown(env, s, CheckOnChainAndRetry(env, s, swap))
  {
    hide DoClaim, AdvanceViaWinningClaim, UpdateStatus, Classify, Put, Known;
    var reset := swap.(status := TbtcLocked);
    LaterKnown(env, s, s.now + 1);
    KnownLater(env, s.now, s.now + 1, swap.claimTx);
    PutKnown(env, Later(s), reset);
    var s1 := Put(env, Later(s), reset);
    KnownLater(env, s.now, s1.now, swap.claimTx);
    DoClaimKnown(env, s1, reset, false);
    SpentKnown(env, s, s.now + 1, swap, Failed("Lockup refunded"));
  }

  lemma RecoverRevertedKnown(env: Env, s: State)
    requires EnvOk(env) && Known(env, s.now, s.rec.claimTx)
    ensures KeepsKnown(env, s, RecoverFromReverted(env, s).1)
  {
    hide DoClaim, AdvanceViaWinningClaim, UpdateStatus, Classify;
    LaterKnown(env, s, s.now + 1);
    DoClaimKnown(env, Later(s), s.rec.(claimTx := None), false);
    SpentKnown(env, s, s.now + 1, s.rec, Failed("Lockup refunded"));
  }

  lemma {:induction false} PollKnown(env: Env, s: State, tx: Tx, left: nat)
    requires EnvOk(env) && Known(env, s.now, s.rec.claimTx)
    ensures KeepsKnown(env, s, PollReceipt(env, s, tx, left).1)
    decreases left
  {
    if left > 0 {
      hide CheckReceiptOnce, RecoverFromReverted, Known;
      CheckReceiptKnown(env, s, tx);
      var (o, s1) := CheckReceiptOnce(env, s, tx);
      if o.WasReverted? { RecoverRevertedKnown(env, s1); }
      if o.NotMined? { PollKnown(env, s1, tx, left - 1); }
    }
  }

  lemma ResumeKnown(env: Env, s: State, swap: Swap)
    requires EnvOk(env) && Known(env, s.now, s.rec.claimTx) && Known(env, s.now, swap.claimTx)
    ensures KeepsKnown(env, s, ResumePendingCall(env, s, swap).1)
  {
    hide PollReceipt, CheckOnChainAndRetry, Known, Put;
    LaterKnown(env, s, s.now + 1);
    if env.answers(s.now) {
      var tx := env.minedTx(s.now);
      assert Named(env, tx);
      NamedIsKnown(env, s.now + 1, tx);
      var row := s.rec.(claimTx := Some(tx), pendingCall := None);
      PutKnown(env, Later(s), row);
      PollKnown(env, Put(env, Later(s), row), tx, RECEIPT_POLL_MAX_ATTEMPTS);
    } else {
      KnownLater(env, s.now, s.now + 1, swap.claimTx);
      RetryKnown(env, Later(s), swap);
    }
  }

  lemma ClaimingResumeKnown(env: Env, s: State)
    requires EnvOk(env) && Known(env, s.now, s.rec.claimTx)
    ensures KeepsKnown(env, s, HandleClaimingResume(env, s, s.rec))
  {
    hide PollReceipt, CheckOnChainAndRetry, ResumePendingCall, KeepsKnown, Known;
    if s.rec.claimTx.Some? { PollKnown(env, s, s.rec.claimTx.value, RECEIPT_POLL_MAX_ATTEMPTS); }
    ResumeKnown(env, s, s.rec);
    RetryKnown(env, s, s.rec);
  }

  // ----- events, passes and callers -----

  lemma SettledKnown(env: Env, s: State)
    requires EnvOk(env) && Known(env, s.now, s.rec.claimTx)
    ensures KeepsKnown(env, s, HandleSettled(env, s, s.rec))
  {
    hide PollReceipt, CheckOnChainAndRetry, ResumePendingCall, UpdateStatus, Known;
    LaterKnown(env, s, s.now + 1);
    if s.rec.claimTx.Some? { PollKnown(env, s, s.rec.claimTx.value, RECEIPT_POLL_MAX_ATTEMPTS); }
    ResumeKnown(env, s, s.rec);
    RetryKnown(env, Later(s), s.rec);
    UpdateKnown(env, Later(s), s.rec, PostClaimStatus(s.rec.terms.kind));
  }

  lemma ConfirmedKnown(env: Env, s: State, tx: Option<Tx>)
    requires EnvOk(env) && Known(env, s.now, s.rec.claimTx)
    ensures KeepsKnown(env, s, HandleConfirmed(env, s, s.rec, tx))
  {
    hide DoClaim, HandleClaimingResume, UpdateStatus, Known;
    ClaimingResumeKnown(env, s);
    var locked := s.rec.(lockupTx := if tx.Some? then tx else s.rec.lockupTx);
    UpdateKnown(env, s, locked, TbtcLocked);
    var s1 := UpdateStatus(env, s, locked, TbtcLocked);
    KnownLater(env, s.now, s1.now, s.rec.claimTx);
    DoClaimKnown(env, s1, locked.(status := TbtcLocked), false);
  }

  lemma TerminalEventKnown(env: Env, s: State, status: Status)
    requires EnvOk(env) && Known(env, s.now, s.rec.claimTx)
    ensures KeepsKnown(env, s, HandleTerminalEvent(env, s, s.rec, status))
  {
    hide AdvanceViaWinningClaim, Classify, UpdateStatus, Known;
    LaterKnown(env, s, s.now + 1);
    UpdateKnown(env, s, s.rec, status);
    UpdateKnown(env, Later(s), s.rec, status);
    SpentKnown(env, s, s.now + 1, s.rec, status);
  }

  lemma MempoolKnown(env: Env, s: State, tx: Option<Tx>)
    requires EnvOk(env) && Known(env, s.now, s.rec.claimTx)
    ensures KeepsKnown(env, s, HandleMempool(env, s, s.rec, tx))
  {
    hide Known;
    var seen := s.rec.(lockupTx := tx);
    PutKnown(env, s, seen);
    LaterKnown(env, Put(env, s, seen), s.now + 2);
  }

  lemma WsKnown(env: Env, s: State, u: WsUpdate)
    requires EnvOk(env) && Known(env, s.now, s.rec.claimTx)
    ensures KeepsKnown(env, s, HandleWsUpdate(env, s, u))
  {
    hide HandleSettled, HandleConfirmed, HandleTerminalEvent, HandleMempool, UpdateStatus, Known, KindOf, Stale;
    SettledKnown(env, s);
    ConfirmedKnown(env, s, u.tx);
    TerminalEventKnown(env, s, Expired);
    TerminalEventKnown(env, s, Failed(FailureReason(u)));
    UpdateKnown(env, s, s.rec, InvoicePaid);
    MempoolKnown(env, s, u.tx);
  }

  lemma RecoverClaimingKnown(env: Env, s: State, tx: Tx, l1: Option<nat>)
    requires EnvOk(env) && Known(env, s.now, s.rec.claimTx)
    ensures KeepsKnown(env, s, RecoverClaiming(env, s, s.rec, tx, l1))
  {
    hide AdvanceViaWinningClaim, Classify, CheckReceiptOnce, UpdateStatus, Known;
    CheckReceiptKnown(env, s, tx);
    var s1 := CheckReceiptOnce(env, s, tx).1;
    LaterKnown(env, s1, s1.now + 1);
    KnownLater(env, s.now, s1.now, s.rec.claimTx);
    SpentKnown(env, s1, s1.now + 1, s.rec, Failed("Claim transaction never mined; lockup refunded"));
  }

  lemma FinalizeIsQuiet(env: Env, s: State, amount: Option<nat>)
    ensures var r := FinalizeCompleted(env, s, amount); r.rec.claimTx == s.rec.claimTx && s.now <= r.now
  {
  }

  lemma ConfirmKnown(env: Env, s: State, snapshot: Swap)
    requires EnvOk(env) && Known(env, s.now, s.rec.claimTx)
    ensures KeepsKnown(env, s, ConfirmDelivery(env, s, snapshot))
  {
    hide Known, FinalizeCompleted;
    var r := ConfirmDelivery(env, s, snapshot);
    FinalizeIsQuiet(env, s, None);
    FinalizeIsQuiet(env, Later(s), None);
    if snapshot.bridgeRef.Some? {
      var amount := AttestedAmount(env.world(s.now), snapshot.bridgeRef.value);
      FinalizeIsQuiet(env, Later(s), amount);
      FinalizeIsQuiet(env, At(s, s.now + 2), amount);
    }
    assert r.rec.claimTx == s.rec.claimTx && s.now <= r.now;
    KnownLater(env, s.now, r.now, s.rec.claimTx);
  }

  lemma AcceptKnown(env: Env, s: State)
    requires EnvOk(env) && Known(env, s.now, s.rec.claimTx)
    ensures KeepsKnown(env, s, AcceptDegradedQuote(env, s).1)
  {
    hide ClaimAndSwap, UpdateStatus, Put, Known;
    UpdateKnown(env, s, s.rec, Claiming);
    var s1 := UpdateStatus(env, s, s.rec, Claiming);
    ClaimKnown(env, s1, s.rec.terms.timeoutHeight, true);
    var (o, s2) := ClaimAndSwap(env, s1, s.rec.terms.timeoutHeight, true);
    if o.Won? {
      NamedIsKnown(env, s2.now, o.tx);
      PutKnown(env, s2, s.rec.(status := Claiming, claimTx := Some(o.tx)));
    }
  }

  lemma StepKnown(env: Env, s: State, a: Action)
    requires EnvOk(env) && Known(env, s.now, s.rec.claimTx)
    ensures KeepsKnown(env, s, Step(env, s, a))
  {
    hide HandleWsUpdate, ConfirmDelivery, RecoverClaiming, AcceptDegradedQuote, Put, Known;
    var s0 := Begin(s);
    match a {
      case Ws(u) => WsKnown(env, s0, u);
      case List(_) => LaterKnown(env, s0, s0.now + 1);
      case Serve(k) =>
        if k < |s0.polls| {
          ConfirmKnown(env, s0, s0.polls[k].swap);
          if s.rec.claimTx.Some? { RecoverClaimingKnown(env, s0, s.rec.claimTx.value, s0.polls[k].l1); }
        }
      case Accept => AcceptKnown(env, s0);
      case Slippage(bps) => PutKnown(env, s0, s0.rec.(slippageBps := bps));
      case Wait(n) => LaterKnown(env, s0, s0.now + n);
    }
  }

  /** Over every run a recorded hash is one the sponsor named, or that of the transaction that claimed the
      lockup. */
  lemma {:induction false} HashIsNamedOrWinner(env: Env, s: State, actions: seq<Action>)
    requires EnvOk(env) && Known(env, s.now, s.rec.claimTx)
    ensures var r := Run(env, s, actions); Known(env, r.now, r.rec.claimTx)
    decreases |actions|
  {
    if actions != [] {
      hide Step, Known;
      StepKnown(env, s, actions[0]);
      HashIsNamedOrWinner(env, Step(env, s, actions[0]), actions[1..]);
    }
  }

  // ----- an honest sponsor -----

  /** Whatever the sponsor names, if it succeeded with a log that looks like this swap's delivery, is the
      claim of this lockup. */
  ghost predicate HonestSponsor(env: Env) {
    forall i: nat, t: nat {:trigger env.minedTx(i), env.world(t)} ::
      Delivers(env, env.world(t), env.minedTx(i)) ==> env.world(t).lockup == Claimed(env.minedTx(i))
  }

  lemma SuccessIsTheClaim(env: Env, t: nat, tx: Tx)
    requires HonestSponsor(env) && Known(env, t, Some(tx)) && Delivers(env, env.world(t), tx)
    ensures env.world(t).lockup == Claimed(tx)
  {
    if Named(env, tx) {
      var i: nat :| env.minedTx(i) == tx;
    }
  }

  /** Given an honest sponsor, a swap completed on a hash has its lockup claimed, by that transaction. */
  lemma CompletedMeansClaimed(env: Env, swap: Swap, actions: seq<Action>)
    requires EnvOk(env) && Fresh(swap) && SourceFits(env, swap.terms.kind) && HonestSponsor(env)
    ensures var r := Run(env, Start(swap), actions);
            r.rec.status.Completed? && r.rec.claimTx.Some? ==>
              env.world(r.now).lockup == Claimed(r.rec.claimTx.value)
  {
    hide Run;
    StartIsOk(env, swap);
    RunKeeps(env, Start(swap), actions);
    HashIsNamedOrWinner(env, Start(swap), actions);
    var r := Run(env, Start(swap), actions);
    if r.rec.status.Completed? && r.rec.claimTx.Some? { SuccessIsTheClaim(env, r.now, r.rec.claimTx.value); }
  }

  /** And the outcome two passes converge to is the lockup's: `Completed` for one that was claimed, by the
      transaction taken as the winner, `Failed` for one that was refunded. */
  lemma OutcomeIsTheLockups(env: Env, swap: Swap, actions: seq<Action>)
    requires EnvOk(env) && Fresh(swap) && SourceFits(env, swap.terms.kind) && HonestSponsor(env)
    requires ClaimWon(env, Run(env, Start(swap), actions))
    ensures var s := Run(env, Start(swap), actions);
            env.world(s.now).lockup == Claimed(WinningTx(env, s).value)
  {
    hide Run;
    HashIsNamedOrWinner(env, Start(swap), actions);
    var s := Run(env, Start(swap), actions);
    if WinningTx(env, s) == s.rec.claimTx { SuccessIsTheClaim(env, s.now, s.rec.claimTx.value); }
  }

  // ----- a dishonest one -----

  const STRANGER: Tx := "0xstranger"
  const GUID: string := "0xguid"
  const OFT: string := "0xoft"

  /** Somebody's successful bridge send through the same contract. */
  const SEND: Log := Log(Some(OFT), [OFT_SENT, GUID, ""], LogData(None, Some((0, 0, 1)), None))

  /** The lockup stays locked until it is refunded at `refundedAt`, and is never claimed. */
  function UnclaimedWorld(t: nat, refundedAt: nat): World {
    World(if t < refundedAt then Locked else Refunded, 0, 0, 0, map[STRANGER := Receipt(Succeeded, Some(0), [SEND])],
          {Guid(GUID)}, map[], {}, {}, {})
  }

  /** Every call is answered, and the sponsor names the stranger's send. */
  function DishonestEnv(refundedAt: nat): Env {
    Env((t: nat) => UnclaimedWorld(t, refundedAt), t => true, t => true, t => Ready, t => "call", t => STRANGER,
        t => [], Some(OftSent(OFT)), false)
  }

  lemma DishonestEnvIsOk(refundedAt: nat)
    ensures EnvOk(DishonestEnv(refundedAt)) && SourceFits(DishonestEnv(refundedAt), Oft)
    ensures Steady(DishonestEnv(refundedAt), 0)
    ensures Delivers(DishonestEnv(refundedAt), UnclaimedWorld(0, refundedAt), STRANGER)
  {
    assert FirstDecoded([SEND], OftSent(OFT)).Some?;
  }

  /** One confirmed event puts the stranger's hash on record. */
  lemma StrangersHashIsRecorded(refundedAt: nat)
    requires refundedAt > 20
    ensures var r := Run(DishonestEnv(refundedAt), Start(SAMPLE), [Ws(CONFIRMED)]);
            Claims(r) && r.rec.claimTx == Some(STRANGER) && r.now <= 20 && r.rec.terms == SAMPLE.terms
  {
    var env := DishonestEnv(refundedAt);
    hide Run, ClaimAndSwap, Attempts, Claimant, Checked;
    ClaimIsItsAttempts(env, SAMPLE);
    StrangerIsWon(refundedAt, Checked(env, SAMPLE));
    ClaimLeaves(env, SAMPLE);
  }

  lemma StrangerIsWon(refundedAt: nat, s: State)
    requires s.alive && s.now == 7
    ensures var (o, r) := Attempts(DishonestEnv(refundedAt), s, false, 0);
            o == Won(STRANGER) && r.alive && r.now <= 12
  {
  }

  /** Two passes then complete the swap, while its lockup is still locked or has gone back to Boltz. */
  lemma StrangersSendCompletes(refundedAt: nat, wait: nat)
    requires refundedAt > 20
    ensures var env := DishonestEnv(refundedAt);
            var s := Run(env, Start(SAMPLE), [Ws(CONFIRMED), Wait(wait)]);
            && EnvOk(env) && TickOnce(env, TickOnce(env, s)).rec.status.Completed?
            && forall t: nat :: !env.world(t).lockup.Claimed?
  {
    var env := DishonestEnv(refundedAt);
    var front := Run(env, Start(SAMPLE), [Ws(CONFIRMED)]);
    var s := Run(env, Start(SAMPLE), [Ws(CONFIRMED), Wait(wait)]);
    DishonestEnvIsOk(refundedAt);
    StrangersHashIsRecorded(refundedAt);
    RunAppend(env, Start(SAMPLE), [Ws(CONFIRMED)], [Wait(wait)]);
    assert [Ws(CONFIRMED)] + [Wait(wait)] == [Ws(CONFIRMED), Wait(wait)];
    RunOne(env, front, Wait(wait));
    StartIsOk(env, SAMPLE);
    RunKeeps(env, Start(SAMPLE), [Ws(CONFIRMED), Wait(wait)]);
    assert s == At(Begin(front), front.now + wait);
    StrangerWins(refundedAt, s);
    TwoTicksConverge(env, s, []);
    assert Run(env, TickOnce(env, s), []) == TickOnce(env, s);
  }

  lemma StrangerWins(refundedAt: nat, s: State)
    requires Claims(s) && s.rec.claimTx == Some(STRANGER) && s.rec.terms.kind.Oft?
    ensures var env := DishonestEnv(refundedAt);
            && ClaimWon(env, s) && WinningTx(env, s) == Some(STRANGER)
            && BridgeDone(env, s.now, Oft, RefOf(env, env.world(s.now), STRANGER))
  {
    DishonestEnvIsOk(refundedAt);
    assert FirstDecoded([SEND], OftSent(OFT)) == Some(DeliveredAmount(1, Some(GUID), None));
  }
}
