/** What each event and each call does, in terms of its text and of what the outside answers (swap/manager.rs,
    lib.rs). The other modules say what no handler may do; this one says what each must. */
module Answers {
  import opened Wrappers
  import opened Models
  import opened LogScan
  import opened Chain
  import opened Ledger
  import opened Executor
  import opened ExecutorTrace
  import opened Protocol
  import opened Safety
  import opened Runs
  import opened Convergence

  // ----- the texts -----

  predicate IsExpiry(text: string) {
    text == "invoice.expired" || text == "swap.expired"
  }

  predicate IsFailure(text: string) {
    || text == "invoice.failedToPay" || text == "transaction.lockupFailed"
    || text == "transaction.refunded" || text == "swap.refunded"
  }

  predicate IsSettled(text: string) {
    text == "invoice.settled" || text == "transaction.claimed"
  }

  predicate IsQuiet(text: string) {
    text == "swap.created" || text == "invoice.set" || text == "invoice.pending"
  }

  predicate IsKnown(text: string) {
    || IsExpiry(text) || IsFailure(text) || IsSettled(text) || IsQuiet(text)
    || text == "invoice.paid" || text == "transaction.mempool" || text == "transaction.confirmed"
  }

  lemma QuietKind(text: string)
    requires IsQuiet(text)
    ensures KindOf(text) == StillCreated
  {
  }

  lemma PaidKind()
    ensures KindOf("invoice.paid") == InvoicePaidMsg
  {
    assert "invoice.paid"[0] == 'i' && |"invoice.paid"| == 12;
  }

  lemma MempoolKind()
    ensures KindOf("transaction.mempool") == Mempool
  {
    assert |"transaction.mempool"| == 19;
  }

  lemma ConfirmedKind()
    ensures KindOf("transaction.confirmed") == Confirmed
  {
    assert |"transaction.confirmed"| == 21;
  }

  lemma SettledKind(text: string)
    requires IsSettled(text)
    ensures KindOf(text) == Settled
  {
    assert "invoice.settled"[8] == 's' && "transaction.claimed"[12] == 'c';
  }

  lemma ExpiryKind(text: string)
    requires IsExpiry(text)
    ensures KindOf(text) == Expiry
  {
    assert "invoice.expired"[8] == 'e' && "swap.expired"[5] == 'e' && "swap.expired"[0] == 's';
  }

  lemma FailureKind(text: string)
    requires IsFailure(text)
    ensures KindOf(text) == Failure
  {
    assert "invoice.failedToPay"[0] == 'i' && |"transaction.lockupFailed"| == 24;
    assert |"transaction.refunded"| == 20 && |"swap.refunded"| == 13;
  }

  lemma OtherKind(text: string)
    requires !IsKnown(text)
    ensures KindOf(text) == Other
  {
  }

  // ----- events without a claim -----

  /** Announcements of progress: nothing, except that `invoice.paid` takes `Created` to `InvoicePaid`. */
  lemma QuietTextsChangeNothing(env: Env, s: State, u: WsUpdate)
    requires IsQuiet(u.status) || !IsKnown(u.status) || (u.status == "transaction.mempool" && u.tx.None?)
    ensures Step(env, s, Ws(u)) == Begin(s)
  {
    hide HandleConfirmed, HandleSettled, HandleTerminalEvent;
    if IsQuiet(u.status) { QuietKind(u.status); }
    else if !IsKnown(u.status) { OtherKind(u.status); }
    else { MempoolKind(); }
  }

  lemma PaidRaisesCreated(env: Env, s: State, u: WsUpdate)
    requires u.status == "invoice.paid" && env.lives(s.now) && env.lives(s.now + 1)
    ensures var r := Step(env, s, Ws(u));
            && r.rec == (if s.rec.status.Created? then s.rec.(status := InvoicePaid) else s.rec)
            && r.events == (if s.rec.status.Stage() <= 1 then s.events + [SwapUpdated(r.rec)] else s.events)
  {
    hide HandleConfirmed, HandleSettled, HandleTerminalEvent;
    PaidKind();
  }

  lemma MempoolRecordsTheLockup(env: Env, s: State, u: WsUpdate)
    requires u.status == "transaction.mempool" && u.tx.Some? && env.lives(s.now) && env.lives(s.now + 1)
    ensures var r := Step(env, s, Ws(u));
            if s.rec.status.Stage() <= 3
            then r.rec == s.rec.(lockupTx := u.tx) && r.events == s.events + [SwapUpdated(r.rec)]
            else r.rec == s.rec && r.events == s.events
  {
    hide HandleConfirmed, HandleSettled, HandleTerminalEvent;
    MempoolKind();
  }

  /** No text touches a record past its claim. */
  lemma PastClaimIsDeaf(env: Env, s: State, u: WsUpdate)
    requires s.rec.status.Terminal() || s.rec.status.Settling?
    ensures Step(env, s, Ws(u)) == Begin(s)
  {
  }

  /** The status a terminal text stands for. */
  function Ending(u: WsUpdate): Status
    requires IsExpiry(u.status) || IsFailure(u.status)
  {
    if u.status == "invoice.expired" || u.status == "swap.expired" then Expired
    else if u.reason.Some? then Failed(u.reason.value)
    else Failed(u.status)
  }

  lemma TerminalTextComesTo(env: Env, s: State, u: WsUpdate)
    requires (IsExpiry(u.status) || IsFailure(u.status)) && s.rec.status.Stage() <= 3
    ensures Step(env, s, Ws(u)) == HandleTerminalEvent(env, Begin(s), s.rec, Ending(u))
  {
    hide HandleTerminalEvent;
    if IsExpiry(u.status) { ExpiryKind(u.status); } else { FailureKind(u.status); }
  }

  /** Before a claim the event is taken at its word. */
  lemma TerminalTextEndsPreClaim(env: Env, s: State, u: WsUpdate)
    requires (IsExpiry(u.status) || IsFailure(u.status)) && s.rec.status.PreClaim() && env.lives(s.now)
    ensures Step(env, s, Ws(u)).rec == s.rec.(status := Ending(u))
  {
    TerminalTextComesTo(env, s, u);
  }

  /** The record is the winning transaction's, and is not given up. */
  predicate Follows(rec: Swap, winner: Tx) {
    rec.claimTx == Some(winner) && rec.pendingCall.None? && !Abandoned(rec.status)
  }

  /** The lockup went back to Boltz, or somebody's transaction claimed it, and the record's lockup
      transaction lets the client find out. */
  ghost predicate RefundedInSight(env: Env, s: State) {
    env.world(s.now).lockup.Refunded? && Anchored(env.world(s.now), s.rec.lockupTx)
  }

  ghost predicate ClaimedInSight(env: Env, s: State) {
    env.world(s.now).lockup.Claimed? && Anchored(env.world(s.now), s.rec.lockupTx)
  }

  lemma RefundIsSeen(env: Env, s: State, t0: nat, status: Status)
    requires EnvOk(env) && Steady(env, s.now) && s.alive && s.now <= t0 && RefundedInSight(env, s)
    ensures LockRead(env, t0) == Some(false)
    ensures var (verdict, t) := Classify(env, t0, s.rec.lockupTx);
            && verdict == ByRefund && t0 <= t
            && UpdateStatus(env, At(s, t), s.rec, status).rec == s.rec.(status := status)
            && UpdateStatus(env, At(s, t), s.rec, status).acks == s.acks
  {
    hide Classify;
    Growth(env, s.now, t0);
    VerdictIsComplete(env, t0, s.rec.lockupTx);
    VerdictIsSound(env, t0, s.rec.lockupTx);
  }

  lemma ClaimIsSeen(env: Env, s: State, t0: nat)
    requires EnvOk(env) && Steady(env, s.now) && s.alive && s.now <= t0 && ClaimedInSight(env, s)
    requires s.rec.status.Stage() <= 3
    ensures LockRead(env, t0) == Some(false)
    ensures var (verdict, t) := Classify(env, t0, s.rec.lockupTx);
            && verdict == ByClaim(env.world(s.now).lockup.winner) && t0 <= t
            && var r := AdvanceViaWinningClaim(env, At(s, t), verdict.tx).1;
               && r.rec.claimTx == Some(verdict.tx) && r.rec.pendingCall.None? && r.acks == s.acks
               && (s.rec.status.Claiming? ==> Follows(r.rec, verdict.tx))
  {
    hide Classify, CheckReceiptOnce;
    Growth(env, s.now, t0);
    VerdictIsComplete(env, t0, s.rec.lockupTx);
    VerdictIsSound(env, t0, s.rec.lockupTx);
    var (verdict, t) := Classify(env, t0, s.rec.lockupTx);
    var row := s.rec.(claimTx := Some(verdict.tx), pendingCall := None);
    ReceiptLeavesTheHash(env, Put(env, At(s, t), row), verdict.tx);
  }

  lemma ReceiptLeavesTheHash(env: Env, s: State, tx: Tx)
    ensures var r := CheckReceiptOnce(env, s, tx).1;
            && r.rec.claimTx == s.rec.claimTx && r.rec.pendingCall == s.rec.pendingCall && r.acks == s.acks
            && (s.rec.status.Claiming? ==> !Abandoned(r.rec.status))
  {
  }

  /** During one the chain decides: the event holds while the lockup is locked or was refunded, and a claim
      of the lockup is followed instead; without an answer nothing happens. */
  lemma TerminalTextDuringClaim(env: Env, s: State, u: WsUpdate)
    requires (IsExpiry(u.status) || IsFailure(u.status)) && s.rec.status.Claiming?
    requires EnvOk(env) && Steady(env, s.now)
    ensures var r := Step(env, s, Ws(u));
            && (env.world(s.now).lockup.Locked? || RefundedInSight(env, s) ==> r.rec == s.rec.(status := Ending(u)))
            && (ClaimedInSight(env, s) ==> Follows(r.rec, env.world(s.now).lockup.winner))
  {
    hide Classify, AdvanceViaWinningClaim;
    TerminalTextComesTo(env, s, u);
    var s0 := Begin(s);
    if RefundedInSight(env, s) { RefundIsSeen(env, s0, s.now + 1, Ending(u)); }
    if ClaimedInSight(env, s) { ClaimIsSeen(env, s0, s.now + 1); }
  }

  lemma UnansweredTerminalTextWaits(env: Env, s: State, u: WsUpdate)
    requires (IsExpiry(u.status) || IsFailure(u.status)) && s.rec.status.Claiming? && !env.answers(s.now)
    ensures Step(env, s, Ws(u)).rec == s.rec
  {
    TerminalTextComesTo(env, s, u);
  }

  // ----- claiming -----

  /** A claim started at `t` gets through: the lockup is there, sixty L1 blocks are left, and the attempt is
      ready, or drifted with the drift accepted. */
  ghost predicate Winnable(env: Env, t: nat, timeoutHeight: nat, accepted: bool) {
    && env.world(t).lockup.Locked? && env.world(t + 1).l1Height + 60 <= timeoutHeight
    && (env.attempt(t + 3).Ready? || (accepted && env.attempt(t + 3).QuoteDrifted?))
  }

  /** Such a claim is submitted once; its call id is on record before the transaction is asked for, and it
      is won if the sponsor answers that. */
  lemma WinnableIsWon(env: Env, s: State, timeoutHeight: nat, accepted: bool)
    requires s.alive && (forall i: nat :: s.now <= i ==> env.lives(i))
    requires forall i: nat :: s.now <= i < s.now + 6 ==> env.answers(i)
    requires Winnable(env, s.now, timeoutHeight, accepted)
    ensures var (o, r) := ClaimAndSwap(env, s, timeoutHeight, accepted);
            && o == (if env.answers(s.now + 6) then Won(env.minedTx(s.now + 6)) else Lost(Unconfirmed))
            && r.alive && r.now == s.now + 7 && r.acks == s.acks + 1 && r.events == s.events
            && r.rec == s.rec.(pendingCall := Some(env.callId(s.now + 4)))
  {
    hide ClaimAndSwap, VerifyLockup, Attempts;
    ChecksPass(env, s, timeoutHeight, accepted);
    var looked := Observe(s, LockSeen(s.now, Some(true)));
    var s3 := At(Observe(looked, MarginChecked(s.now + 1, true)), s.now + 3);
    ReadyIsSubmitted(env, s3, accepted);
  }

  lemma ReadyIsSubmitted(env: Env, s: State, accepted: bool)
    requires s.alive && env.lives(s.now + 1) && env.lives(s.now + 2) && env.answers(s.now + 1)
    requires env.attempt(s.now).Ready? || (accepted && env.attempt(s.now).QuoteDrifted?)
    ensures var (o, r) := Attempts(env, s, accepted, 0);
            && o == (if env.answers(s.now + 3) then Won(env.minedTx(s.now + 3)) else Lost(Unconfirmed))
            && r.alive && r.now == s.now + 4 && r.acks == s.acks + 1 && r.events == s.events
            && r.rec == s.rec.(pendingCall := Some(env.callId(s.now + 1)))
  {
    hide Attempts, SubmitClaim;
    var s1 := Later(Observe(s, Attempted(s.now)));
    SubmissionIsRecorded(env, s1);
    assert TryClaim(env, s, accepted) == SubmitClaim(env, s1);
    hide TryClaim;
    AttemptStops(env, s, accepted);
  }

  lemma SubmissionIsRecorded(env: Env, s: State)
    requires s.alive && env.lives(s.now) && env.lives(s.now + 1) && env.answers(s.now)
    ensures var (o, r) := SubmitClaim(env, s);
            && o == (if env.answers(s.now + 2) then Won(env.minedTx(s.now + 2)) else Lost(Unconfirmed))
            && r.alive && r.now == s.now + 3 && r.acks == s.acks + 1 && r.events == s.events
            && r.rec == s.rec.(pendingCall := Some(env.callId(s.now)))
  {
  }

  /** The first attempt is the last if it wins, drifts or cannot be confirmed. */
  lemma AttemptStops(env: Env, s: State, accepted: bool)
    requires var o := TryClaim(env, s, accepted).0; o.Won? || o == Lost(Drifted) || o == Lost(Unconfirmed)
    ensures Attempts(env, s, accepted, 0) == TryClaim(env, s, accepted)
  {
    hide TryClaim;
  }

  /** A drifted quote that was not accepted stops the claim before anything is handed over. */
  lemma DriftedIsNotSubmitted(env: Env, s: State, timeoutHeight: nat)
    requires s.alive && Steady(env, s.now) && env.world(s.now).lockup.Locked?
    requires env.world(s.now + 1).l1Height + 60 <= timeoutHeight && env.attempt(s.now + 3).QuoteDrifted?
    ensures var (o, r) := ClaimAndSwap(env, s, timeoutHeight, false);
            && o == Lost(Drifted) && r.alive && r.now == s.now + 4
            && r.acks == s.acks && r.events == s.events && r.rec == s.rec
  {
    hide ClaimAndSwap, Attempts, SubmitClaim;
    ChecksPass(env, s, timeoutHeight, false);
    var looked := Observe(s, LockSeen(s.now, Some(true)));
    AttemptStops(env, At(Observe(looked, MarginChecked(s.now + 1, true)), s.now + 3), false);
  }

  /** What a handler's claim of its copy `swap` leaves: the copy, claiming under the transaction named. */
  lemma DoClaimLeaves(env: Env, s: State, swap: Swap)
    requires s.alive && Steady(env, s.now)
    ensures var r := DoClaim(env, s, swap, false);
            && (Winnable(env, s.now + 2, swap.terms.timeoutHeight, false) ==>
                  && r.rec == swap.(status := Claiming, claimTx := Some(env.minedTx(s.now + 8)))
                  && r.acks == s.acks + 1)
            && (DriftsAt(env, s.now + 2, swap.terms.timeoutHeight) ==>
                  r.rec == swap.(status := TbtcLocked) && r.acks == s.acks
                  && r.events == s.events + [SwapUpdated(swap.(status := Claiming)), QuoteDegraded(r.rec)])
  {
    hide ClaimAndSwap;
    var s1 := UpdateStatus(env, s, swap, Claiming);
    assert s1.alive && s1.now == s.now + 2 && s1.acks == s.acks;
    if Winnable(env, s.now + 2, swap.terms.timeoutHeight, false) {
      WinnableIsWon(env, s1, swap.terms.timeoutHeight, false);
    }
    if DriftsAt(env, s.now + 2, swap.terms.timeoutHeight) {
      DriftedIsNotSubmitted(env, s1, swap.terms.timeoutHeight);
    }
  }

  /** A claim started at `t` passes its checks and then finds the quote degraded. */
  ghost predicate DriftsAt(env: Env, t: nat, timeoutHeight: nat) {
    && env.world(t).lockup.Locked? && env.world(t + 1).l1Height + 60 <= timeoutHeight
    && env.attempt(t + 3).QuoteDrifted?
  }

  /** A confirmed lockup is recorded and claimed; a degraded quote leaves it to the user. */
  lemma ConfirmedIsClaimed(env: Env, s: State, u: WsUpdate)
    requires u.status == "transaction.confirmed" && s.rec.status.PreClaim() && Steady(env, s.now)
    ensures var r := Step(env, s, Ws(u));
            var locked := s.rec.(lockupTx := if u.tx.Some? then u.tx else s.rec.lockupTx);
            && (Winnable(env, s.now + 4, s.rec.terms.timeoutHeight, false) ==>
                  && r.rec == locked.(status := Claiming, claimTx := Some(env.minedTx(s.now + 10)))
                  && r.acks == s.acks + 1)
            && (DriftsAt(env, s.now + 4, s.rec.terms.timeoutHeight) ==>
                  r.rec == locked.(status := TbtcLocked) && r.acks == s.acks)
  {
    hide DoClaim, HandleClaimingResume;
    ConfirmedKind();
    var s0 := Begin(s);
    var locked := s.rec.(lockupTx := if u.tx.Some? then u.tx else s.rec.lockupTx);
    DoClaimLeaves(env, UpdateStatus(env, s0, locked, TbtcLocked), locked.(status := TbtcLocked));
  }

  /** A claim that cannot start: ten reads do not show the lockup, or the first shows it without headroom. */
  ghost predicate Unstartable(env: Env, t: nat, timeoutHeight: nat) {
    || (forall i: nat :: t <= i < t + 10 ==> LockRead(env, i) != Some(true))
    || (env.world(t).lockup.Locked? && env.world(t + 1).l1Height + 60 > timeoutHeight)
  }

  lemma {:induction false} LookupGivesUp(env: Env, s: State, left: nat)
    requires forall i: nat :: s.now <= i < s.now + left ==> LockRead(env, i) != Some(true)
    ensures var (ok, r) := VerifyLockup(env, s, left); !ok && r.rec == s.rec && r.acks == s.acks && r.alive == s.alive
    decreases left
  {
    hide LockRead;
    if left > 0 { LookupGivesUp(env, Later(Observe(s, LockSeen(s.now, LockRead(env, s.now)))), left - 1); }
  }

  lemma UnstartableIsLost(env: Env, s: State, timeoutHeight: nat)
    requires Steady(env, s.now) && Unstartable(env, s.now, timeoutHeight)
    ensures var (o, r) := ClaimAndSwap(env, s, timeoutHeight, false);
            (o == Lost(NotLocked) || o == Lost(NoMargin)) && r.rec == s.rec && r.acks == s.acks
  {
    hide Attempts;
    if forall i: nat :: s.now <= i < s.now + 10 ==> LockRead(env, i) != Some(true) {
      LookupGivesUp(env, s, 10);
    }
  }

  /** Nothing is attempted either while the L1 height or the contracts' versions cannot be read. */
  lemma UnansweredChecksStop(env: Env, s: State, timeoutHeight: nat, accepted: bool)
    requires LockRead(env, s.now) == Some(true) && (!env.answers(s.now + 1) || !env.answers(s.now + 2))
    ensures var (o, r) := ClaimAndSwap(env, s, timeoutHeight, accepted);
            (o == Lost(NoMargin) || o == Lost(SetupFailed)) && r.rec == s.rec && r.acks == s.acks
  {
    hide Attempts;
    assert VerifyLockup(env, s, LOCKUP_CHECK_MAX_ATTEMPTS).0;
  }

  /** Then the record stays `Claiming`, as it does, with its call id, when the sponsor does not say what
      became of the call. */
  lemma FailedClaimStaysClaiming(env: Env, s: State, u: WsUpdate)
    requires u.status == "transaction.confirmed" && s.rec.status.PreClaim() && Steady(env, s.now)
    requires Unstartable(env, s.now + 4, s.rec.terms.timeoutHeight)
    ensures var r := Step(env, s, Ws(u));
            && r.rec == s.rec.(lockupTx := if u.tx.Some? then u.tx else s.rec.lockupTx, status := Claiming)
            && r.acks == s.acks
  {
    hide ClaimAndSwap, HandleClaimingResume, Unstartable;
    ConfirmedKind();
    UnstartableIsLost(env, ClaimStart(env, s, u), s.rec.terms.timeoutHeight);
  }

  lemma UnconfirmedIsRemembered(env: Env, s: State, u: WsUpdate)
    requires u.status == "transaction.confirmed" && s.rec.status.PreClaim()
    requires (forall i: nat :: s.now <= i ==> env.lives(i)) && !env.answers(s.now + 10)
    requires forall i: nat :: s.now <= i < s.now + 10 ==> env.answers(i)
    requires Winnable(env, s.now + 4, s.rec.terms.timeoutHeight, false)
    ensures var r := Step(env, s, Ws(u));
            && r.rec == s.rec.(lockupTx := if u.tx.Some? then u.tx else s.rec.lockupTx, status := Claiming,
                               pendingCall := Some(env.callId(s.now + 8)))
            && r.acks == s.acks + 1
  {
    hide ClaimAndSwap, HandleClaimingResume;
    ConfirmedKind();
    WinnableIsWon(env, ClaimStart(env, s, u), s.rec.terms.timeoutHeight, false);
  }

  /** Where the claim of a newly confirmed lockup starts. */
  function ClaimStart(env: Env, s: State, u: WsUpdate): State {
    var locked := s.rec.(lockupTx := if u.tx.Some? then u.tx else s.rec.lockupTx);
    UpdateStatus(env, UpdateStatus(env, Begin(s), locked, TbtcLocked), locked.(status := TbtcLocked), Claiming)
  }

  // ----- resuming a claim -----

  /** The events that pick up a claim already begun. */
  predicate Resumes(u: WsUpdate, rec: Swap) {
    || (u.status == "transaction.confirmed" && rec.status.Claiming?)
    || ((u.status == "invoice.settled" || u.status == "transaction.claimed") && rec.status.Stage() <= 3)
  }

  lemma ResumeComesTo(env: Env, s: State, u: WsUpdate)
    requires Resumes(u, s.rec)
    ensures Step(env, s, Ws(u)) ==
            if u.status == "transaction.confirmed" then HandleClaimingResume(env, Begin(s), s.rec)
            else HandleSettled(env, Begin(s), s.rec)
  {
    hide HandleClaimingResume, HandleSettled;
    if u.status == "transaction.confirmed" { ConfirmedKind(); } else { SettledKind(u.status); }
  }

  ghost predicate RevertedAt(env: Env, t: nat, tx: Tx) {
    var read := ReceiptRead(env, t, tx);
    read.Some? && read.value.Some? && read.value.value.outcome.Reverted?
  }

  ghost predicate SucceededAt(env: Env, t: nat, tx: Tx) {
    var read := ReceiptRead(env, t, tx);
    read.Some? && read.value.Some? && read.value.value.outcome.Succeeded?
  }

  /** The first `k` reads of a receipt, an instant apart, say neither. */
  ghost predicate UndecidedFor(env: Env, t: nat, tx: Tx, k: nat) {
    forall i: nat | t <= i < t + k :: !RevertedAt(env, i, tx) && !SucceededAt(env, i, tx)
  }

  lemma {:induction false} PollSkips(env: Env, s: State, tx: Tx, left: nat, k: nat)
    requires k <= left && UndecidedFor(env, s.now, tx, k)
    ensures PollReceipt(env, s, tx, left) == PollReceipt(env, At(s, s.now + k), tx, left - k)
    decreases k
  {
    if k > 0 {
      assert !RevertedAt(env, s.now, tx) && !SucceededAt(env, s.now, tx);
      PollSkips(env, Later(s), tx, left - 1, k - 1);
    } else {
      assert At(s, s.now) == s;
    }
  }

  /** A resumed claim with a hash reads its receipt up to sixty times, until one read is decisive. */
  lemma ResumePolls(env: Env, s: State, u: WsUpdate, k: nat)
    requires Resumes(u, s.rec) && s.rec.claimTx.Some? && k < 60 && UndecidedFor(env, s.now, s.rec.claimTx.value, k)
    ensures Step(env, s, Ws(u)) == PollReceipt(env, At(Begin(s), s.now + k), s.rec.claimTx.value, 60 - k).1
  {
    hide PollReceipt;
    ResumeComesTo(env, s, u);
    PollSkips(env, Begin(s), s.rec.claimTx.value, 60, k);
  }

  lemma ResumeRecovers(env: Env, s: State, u: WsUpdate, k: nat)
    requires Resumes(u, s.rec) && s.rec.claimTx.Some? && k < 60 && UndecidedFor(env, s.now, s.rec.claimTx.value, k)
    requires RevertedAt(env, s.now + k, s.rec.claimTx.value)
    ensures Step(env, s, Ws(u)) == RecoverFromReverted(env, At(Begin(s), s.now + k + 1)).1
  {
    hide Step, UndecidedFor, RecoverFromReverted;
    ResumePolls(env, s, u, k);
  }

  /** Its receipt reads reverted while the lockup is still there: the dead hash is dropped and the lockup
      claimed again, under the transaction then named. */
  lemma RevertedIsReclaimed(env: Env, s: State, u: WsUpdate, k: nat)
    requires Resumes(u, s.rec) && s.rec.claimTx.Some? && k < 60 && UndecidedFor(env, s.now, s.rec.claimTx.value, k)
    requires Steady(env, s.now) && RevertedAt(env, s.now + k, s.rec.claimTx.value)
    requires env.world(s.now + k + 1).lockup.Locked?
    ensures var r := Step(env, s, Ws(u));
            && (Winnable(env, s.now + k + 4, s.rec.terms.timeoutHeight, false) ==>
                  && r.rec == s.rec.(status := Claiming, claimTx := Some(env.minedTx(s.now + k + 10)))
                  && r.acks == s.acks + 1)
            && (DriftsAt(env, s.now + k + 4, s.rec.terms.timeoutHeight) ==>
                  r.rec == s.rec.(status := TbtcLocked, claimTx := None) && r.acks == s.acks)
  {
    hide Step, UndecidedFor, DoClaim, RecoverFromReverted;
    ResumeRecovers(env, s, u, k);
    var s1 := At(Begin(s), s.now + k + 1);
    RecoveryReclaims(env, s1);
    DoClaimLeaves(env, Later(s1), s.rec.(claimTx := None));
  }

  lemma RecoveryReclaims(env: Env, s: State)
    requires env.answers(s.now) && env.world(s.now).lockup.Locked?
    ensures RecoverFromReverted(env, s).1 == DoClaim(env, Later(s), s.rec.(claimTx := None), false)
  {
    hide DoClaim;
  }

  /** Reverted and refunded: failed. Reverted and claimed by another transaction: that one is followed. */
  lemma RevertedIsClassified(env: Env, s: State, u: WsUpdate, k: nat)
    requires Resumes(u, s.rec) && s.rec.claimTx.Some? && k < 60 && UndecidedFor(env, s.now, s.rec.claimTx.value, k)
    requires EnvOk(env) && Steady(env, s.now) && RevertedAt(env, s.now + k, s.rec.claimTx.value)
    ensures var r, w := Step(env, s, Ws(u)), env.world(s.now);
            && (RefundedInSight(env, s) ==> r.rec == s.rec.(status := Failed("Lockup refunded")) && r.acks == s.acks)
            && (ClaimedInSight(env, s) ==>
                  && r.rec.claimTx == Some(w.lockup.winner) && r.rec.pendingCall.None? && r.acks == s.acks
                  && (s.rec.status.Claiming? ==> Follows(r.rec, w.lockup.winner)))
  {
    hide Step, UndecidedFor, RecoverFromReverted;
    ResumeRecovers(env, s, u, k);
    SightLasts(env, s, s.now + k + 1);
    RecoveryClassifies(env, At(Begin(s), s.now + k + 1));
  }

  lemma SightLasts(env: Env, s: State, t: nat)
    requires EnvOk(env) && s.now <= t
    ensures RefundedInSight(env, s) ==> RefundedInSight(env, At(s, t))
    ensures ClaimedInSight(env, s) ==>
              ClaimedInSight(env, At(s, t)) && env.world(t).lockup == env.world(s.now).lockup
  {
    Growth(env, s.now, t);
  }

  lemma RecoveryClassifies(env: Env, s: State)
    requires EnvOk(env) && Steady(env, s.now) && s.alive && s.rec.status.Stage() <= 3
    ensures var r, w := RecoverFromReverted(env, s).1, env.world(s.now);
            && (RefundedInSight(env, s) ==> r.rec == s.rec.(status := Failed("Lockup refunded")) && r.acks == s.acks)
            && (ClaimedInSight(env, s) ==>
                  && r.rec.claimTx == Some(w.lockup.winner) && r.rec.pendingCall.None? && r.acks == s.acks
                  && (s.rec.status.Claiming? ==> Follows(r.rec, w.lockup.winner)))
  {
    hide Classify, AdvanceViaWinningClaim, UpdateStatus, DoClaim;
    if RefundedInSight(env, s) { RefundIsSeen(env, s, s.now + 1, Failed("Lockup refunded")); }
    if ClaimedInSight(env, s) { ClaimIsSeen(env, s, s.now + 1); }
  }

  /** The record of a claim whose logs show the delivery `d`: the amount is final for a direct or an Oft
      swap, and comes with Circle's attestation for a Cctp one. */
  function Delivered(rec: Swap, d: DeliveredAmount, tx: Tx): Swap {
    match rec.terms.kind
    case Direct => rec.(status := Completed, delivered := Some(d.amount), bridgeRef := None)
    case Oft =>
      rec.(status := Settling, delivered := Some(d.amount),
           bridgeRef := if d.lzGuid.Some? then Some(Guid(d.lzGuid.value)) else None)
    case Cctp =>
      rec.(status := Settling, delivered := None,
           bridgeRef := if d.cctpSourceDomain.Some? then Some(Burn(d.cctpSourceDomain.value, tx)) else None)
  }

  /** `tx` succeeded and `d` is what its logs show of this swap's delivery or bridge send. */
  ghost predicate Shows(env: Env, w: World, tx: Tx, d: DeliveredAmount) {
    && tx in w.receipts && w.receipts[tx].outcome.Succeeded?
    && env.source.Some? && FirstDecoded(w.receipts[tx].logs, env.source.value) == Some(d)
  }

  /** Its receipt shows the delivery: the record carries it and is past the claim. */
  lemma DeliveredIsRecorded(env: Env, s: State, u: WsUpdate, k: nat, d: DeliveredAmount)
    requires Resumes(u, s.rec) && s.rec.claimTx.Some? && k < 60 && UndecidedFor(env, s.now, s.rec.claimTx.value, k)
    requires Steady(env, s.now) && Shows(env, env.world(s.now + k), s.rec.claimTx.value, d)
    requires SourceFits(env, s.rec.terms.kind)
    ensures Step(env, s, Ws(u)).rec == Delivered(s.rec, d, s.rec.claimTx.value)
  {
    hide Step, FirstDecoded, CheckReceiptOnce, Delivered;
    ResumeApplies(env, s, u, k);
    ReceiptDelivers(env, At(Begin(s), s.now + k), s.rec.claimTx.value, d);
  }

  lemma ReceiptDelivers(env: Env, s: State, tx: Tx, d: DeliveredAmount)
    requires s.alive && Steady(env, s.now) && Shows(env, env.world(s.now), tx, d) && SourceFits(env, s.rec.terms.kind)
    ensures CheckReceiptOnce(env, s, tx).1.rec == Delivered(s.rec, d, tx)
  {
    DecodedShape(env.world(s.now).receipts[tx].logs, env.source.value);
    hide FirstDecoded;
  }

  lemma ResumeApplies(env: Env, s: State, u: WsUpdate, k: nat)
    requires Resumes(u, s.rec) && s.rec.claimTx.Some? && k < 60 && UndecidedFor(env, s.now, s.rec.claimTx.value, k)
    requires SucceededAt(env, s.now + k, s.rec.claimTx.value)
    ensures Step(env, s, Ws(u)) == CheckReceiptOnce(env, At(Begin(s), s.now + k), s.rec.claimTx.value).1
  {
    hide Step, PollReceipt, CheckReceiptOnce;
    ResumePolls(env, s, u, k);
    PollReadsOnce(env, At(Begin(s), s.now + k), s.rec.claimTx.value, 60 - k);
  }

  lemma PollReadsOnce(env: Env, s: State, tx: Tx, left: nat)
    requires left > 0 && SucceededAt(env, s.now, tx)
    ensures PollReceipt(env, s, tx, left).1 == CheckReceiptOnce(env, s, tx).1
  {
  }

  // ----- a call in flight -----

  /** Nothing was submitted and the hash stands. */
  predicate Undisturbed(s: State, r: State) {
    r.obs == s.obs && r.acks == s.acks && r.rec.claimTx == s.rec.claimTx && r.rec.pendingCall == s.rec.pendingCall
  }

  /** From `from` on some read of the receipt of `tx` said reverted; and, if `claimed`, the read after it
      said that the lockup is still locked. */
  ghost predicate SawRevert(env: Env, from: nat, tx: Tx, claimed: bool) {
    exists t: nat :: from <= t && RevertedAt(env, t, tx) && (claimed ==> LockRead(env, t + 1) == Some(true))
  }

  lemma {:induction false} PollIsQuiet(env: Env, s: State, tx: Tx, left: nat)
    ensures var r := PollReceipt(env, s, tx, left).1;
            Undisturbed(s, r) || SawRevert(env, s.now, tx, r.obs != s.obs || r.acks != s.acks)
    decreases left
  {
    hide PollReceipt, CheckReceiptOnce, RecoverFromReverted, RevertedAt, SawRevert;
    PollUnfolds(env, s, tx, left);
    if left > 0 {
      ReceiptIsQuiet(env, s, tx);
      var (o, s1) := CheckReceiptOnce(env, s, tx);
      if o.WasReverted? {
        RecoveryNeedsTheLock(env, s1);
        var r := RecoverFromReverted(env, s1).1;
        SawNow(env, s.now, tx, r.obs != s.obs || r.acks != s.acks);
      } else if o.NotMined? {
        PollIsQuiet(env, s1, tx, left - 1);
        var r := PollReceipt(env, s1, tx, left - 1).1;
        if !Undisturbed(s1, r) { SawEarlier(env, s.now, s1.now, tx, r.obs != s.obs || r.acks != s.acks); }
      }
    }
  }

  lemma PollUnfolds(env: Env, s: State, tx: Tx, left: nat)
    ensures left == 0 ==> PollReceipt(env, s, tx, left).1 == s
    ensures left > 0 ==>
              var (o, s1) := CheckReceiptOnce(env, s, tx);
              PollReceipt(env, s, tx, left).1 ==
              if o.Advanced? then s1
              else if o.WasReverted? then RecoverFromReverted(env, s1).1
              else PollReceipt(env, s1, tx, left - 1).1
  {
    hide CheckReceiptOnce, RecoverFromReverted;
  }

  lemma SawNow(env: Env, t: nat, tx: Tx, claimed: bool)
    requires RevertedAt(env, t, tx) && (claimed ==> LockRead(env, t + 1) == Some(true))
    ensures SawRevert(env, t, tx, claimed)
  {
  }

  lemma SawEarlier(env: Env, from: nat, to: nat, tx: Tx, claimed: bool)
    requires from <= to && SawRevert(env, to, tx, claimed)
    ensures SawRevert(env, from, tx, claimed)
  {
  }

  lemma ReceiptIsQuiet(env: Env, s: State, tx: Tx)
    ensures var (o, r) := CheckReceiptOnce(env, s, tx);
            && Undisturbed(s, r) && s.now < r.now
            && (o.WasReverted? ==> RevertedAt(env, s.now, tx) && r == Later(s))
  {
  }

  lemma RecoveryNeedsTheLock(env: Env, s: State)
    ensures var r := RecoverFromReverted(env, s).1;
            r.obs != s.obs || r.acks != s.acks ==> LockRead(env, s.now) == Some(true)
  {
    hide Classify, DoClaim, CheckReceiptOnce;
    var (verdict, t) := Classify(env, s.now + 1, s.rec.lockupTx);
    if verdict.ByClaim? {
      var row := s.rec.(claimTx := Some(verdict.tx), pendingCall := None);
      ReceiptIsQuiet(env, Put(env, At(s, t), row), verdict.tx);
    }
  }

  /** A claim without a hash but with a call id asks the sponsor about that call before anything else. The
      hash it names replaces the call id, and nothing is submitted unless the receipt of that hash reads
      reverted and then the lockup still locked. */
  lemma CallIsAskedFirst(env: Env, s: State, u: WsUpdate)
    requires Resumes(u, s.rec) && s.rec.claimTx.None? && s.rec.pendingCall.Some?
    requires env.answers(s.now) && env.lives(s.now + 1)
    ensures var r, tx := Step(env, s, Ws(u)), env.minedTx(s.now);
            || (r.rec.claimTx == Some(tx) && r.rec.pendingCall.None? && r.obs == s.obs && r.acks == s.acks)
            || SawRevert(env, s.now + 2, tx, r.obs != s.obs || r.acks != s.acks)
  {
    hide PollReceipt, CheckOnChainAndRetry;
    ResumeComesTo(env, s, u);
    hide SawRevert;
    var row := s.rec.(claimTx := Some(env.minedTx(s.now)), pendingCall := None);
    var s2 := Put(env, Later(Begin(s)), row);
    assert s2.now == s.now + 2 && s2.rec == row && s2.obs == s.obs && s2.acks == s.acks;
    PollIsQuiet(env, s2, env.minedTx(s.now), 60);
  }

  /** So a call that is mined successfully with the delivery is recorded, not claimed again. */
  lemma MinedCallIsRecorded(env: Env, s: State, u: WsUpdate, d: DeliveredAmount)
    requires Resumes(u, s.rec) && s.rec.claimTx.None? && s.rec.pendingCall.Some? && Steady(env, s.now)
    requires Shows(env, env.world(s.now + 2), env.minedTx(s.now), d) && SourceFits(env, s.rec.terms.kind)
    ensures var tx := env.minedTx(s.now);
            Step(env, s, Ws(u)).rec == Delivered(s.rec.(claimTx := Some(tx), pendingCall := None), d, tx)
  {
    hide PollReceipt, CheckOnChainAndRetry, CheckReceiptOnce, FirstDecoded, Delivered;
    var tx := env.minedTx(s.now);
    ResumeComesTo(env, s, u);
    var s2 := Put(env, Later(Begin(s)), s.rec.(claimTx := Some(tx), pendingCall := None));
    PollReadsOnce(env, s2, tx, 60);
    ReceiptDelivers(env, s2, tx, d);
  }

  // ----- no handle at all -----

  /** How many reads a resumption makes before it looks at the chain: a call id that is not answered costs
      one, and so does a settled event without one. */
  function Before(u: WsUpdate, rec: Swap): nat {
    if rec.pendingCall.Some? || u.status != "transaction.confirmed" then 1 else 0
  }

  ghost predicate Unhandled(env: Env, s: State, u: WsUpdate) {
    && Resumes(u, s.rec) && s.rec.claimTx.None? && (s.rec.pendingCall.Some? ==> !env.answers(s.now))
    && (u.status == "transaction.confirmed" || s.rec.pendingCall.Some? || LockRead(env, s.now) == Some(true))
  }

  lemma UnhandledLooks(env: Env, s: State, u: WsUpdate)
    requires Unhandled(env, s, u)
    ensures Step(env, s, Ws(u)) == CheckOnChainAndRetry(env, At(Begin(s), s.now + Before(u, s.rec)), s.rec)
  {
    hide CheckOnChainAndRetry;
    ResumeComesTo(env, s, u);
    assert At(Begin(s), s.now) == Begin(s);
  }

  /** A claim that left no trace, or one the sponsor does not answer for, is made again while the lockup is
      there. */
  lemma UnhandledIsClaimed(env: Env, s: State, u: WsUpdate)
    requires Unhandled(env, s, u) && Steady(env, s.now + Before(u, s.rec))
    requires env.world(s.now + Before(u, s.rec)).lockup.Locked?
    ensures var r, t := Step(env, s, Ws(u)), s.now + Before(u, s.rec);
            && (Winnable(env, t + 4, s.rec.terms.timeoutHeight, false) ==>
                  && r.rec == s.rec.(status := Claiming, claimTx := Some(env.minedTx(t + 10)))
                  && r.acks == s.acks + 1)
            && (DriftsAt(env, t + 4, s.rec.terms.timeoutHeight) ==>
                  r.rec == s.rec.(status := TbtcLocked) && r.acks == s.acks)
  {
    hide Step, CheckOnChainAndRetry;
    UnhandledLooks(env, s, u);
    RetryReclaims(env, At(Begin(s), s.now + Before(u, s.rec)));
  }

  lemma RetryReclaims(env: Env, s: State)
    requires s.alive && Steady(env, s.now) && env.world(s.now).lockup.Locked?
    ensures var r := CheckOnChainAndRetry(env, s, s.rec);
            && (Winnable(env, s.now + 4, s.rec.terms.timeoutHeight, false) ==>
                  && r.rec == s.rec.(status := Claiming, claimTx := Some(env.minedTx(s.now + 10)))
                  && r.acks == s.acks + 1)
            && (DriftsAt(env, s.now + 4, s.rec.terms.timeoutHeight) ==>
                  r.rec == s.rec.(status := TbtcLocked) && r.acks == s.acks)
  {
    hide DoClaim;
    var reset := s.rec.(status := TbtcLocked);
    DoClaimLeaves(env, Put(env, Later(s), reset), reset);
  }

  /** It is failed if the lockup was refunded, and follows a transaction that claimed it. */
  lemma UnhandledIsClassified(env: Env, s: State, u: WsUpdate)
    requires Unhandled(env, s, u) && EnvOk(env) && Steady(env, s.now + Before(u, s.rec))
    ensures var r, s1 := Step(env, s, Ws(u)), At(s, s.now + Before(u, s.rec));
            && (RefundedInSight(env, s1) ==> r.rec == s.rec.(status := Failed("Lockup refunded")) && r.acks == s.acks)
            && (ClaimedInSight(env, s1) ==>
                  && r.rec.claimTx == Some(env.world(s1.now).lockup.winner) && r.rec.pendingCall.None?
                  && r.acks == s.acks && (s.rec.status.Claiming? ==> !Abandoned(r.rec.status)))
  {
    hide Step, CheckOnChainAndRetry;
    UnhandledLooks(env, s, u);
    RetryClassifies(env, At(Begin(s), s.now + Before(u, s.rec)));
  }

  lemma RetryClassifies(env: Env, s: State)
    requires EnvOk(env) && Steady(env, s.now) && s.alive && s.rec.status.Stage() <= 3
    ensures var r := CheckOnChainAndRetry(env, s, s.rec);
            && (RefundedInSight(env, s) ==> r.rec == s.rec.(status := Failed("Lockup refunded")) && r.acks == s.acks)
            && (ClaimedInSight(env, s) ==>
                  && r.rec.claimTx == Some(env.world(s.now).lockup.winner) && r.rec.pendingCall.None?
                  && r.acks == s.acks && (s.rec.status.Claiming? ==> !Abandoned(r.rec.status)))
  {
    hide Classify, AdvanceViaWinningClaim, UpdateStatus, DoClaim;
    if RefundedInSight(env, s) { RefundIsSeen(env, s, s.now + 1, Failed("Lockup refunded")); }
    if ClaimedInSight(env, s) { ClaimIsSeen(env, s, s.now + 1); }
  }

  /** A settled event for a record without a handle, whose lockup reads as gone, takes it past the claim: a
      bridged one to wait for its delivery. */
  lemma SettledWithoutHandle(env: Env, s: State, u: WsUpdate)
    requires (u.status == "invoice.settled" || u.status == "transaction.claimed") && s.rec.status.Stage() <= 3
    requires s.rec.claimTx.None? && s.rec.pendingCall.None?
    requires LockRead(env, s.now) == Some(false) && env.lives(s.now + 1)
    ensures Step(env, s, Ws(u)).rec == s.rec.(status := if s.rec.terms.kind.Direct? then Completed else Settling)
  {
    ResumeComesTo(env, s, u);
  }

  // ----- which texts complete -----

  /** Of all texts only the two settled ones can complete a record that has not begun its claim, or leave
      one completed without a claim hash. */
  lemma OnlySettledCompletes(env: Env, s: State, u: WsUpdate)
    requires EnvOk(env) && Inv(env, s) && !s.rec.status.Completed?
    requires var r := Step(env, s, Ws(u)).rec;
             r.status.Completed? && (r.claimTx.None? || s.rec.status.PreClaim())
    ensures u.status == "invoice.settled" || u.status == "transaction.claimed"
  {
    hide HandleConfirmed, HandleTerminalEvent, HandleSettled;
    if !IsKnown(u.status) || IsQuiet(u.status) {
      QuietTextsChangeNothing(env, s, u);
    } else if u.status == "invoice.paid" {
      PaidKind();
    } else if u.status == "transaction.mempool" {
      MempoolKind();
    } else if u.status == "transaction.confirmed" {
      ConfirmedKind();
      ConfirmedKeeps(env, Begin(s), s.rec, u.tx);
      if s.rec.status.PreClaim() { ClaimNeverCompletes(env, Begin(s), u.tx); }
    } else if IsExpiry(u.status) || IsFailure(u.status) {
      if s.rec.status.Stage() <= 3 {
        TerminalTextComesTo(env, s, u);
        TerminalEventKeeps(env, Begin(s), s.rec, Ending(u));
        if s.rec.status.PreClaim() { FinalizesPreClaim(env, Begin(s), Ending(u)); }
      } else {
        PastClaimIsDeaf(env, s, u);
      }
    }
  }

  lemma FinalizesPreClaim(env: Env, s: State, status: Status)
    requires s.rec.status.PreClaim() && (status.Failed? || status.Expired?)
    ensures !HandleTerminalEvent(env, s, s.rec, status).rec.status.Completed?
  {
  }

  lemma ClaimNeverCompletes(env: Env, s: State, tx: Option<Tx>)
    requires s.rec.status.PreClaim()
    ensures !HandleConfirmed(env, s, s.rec, tx).rec.status.Completed?
  {
    hide ClaimAndSwap, HandleClaimingResume;
    var locked := s.rec.(lockupTx := if tx.Some? then tx else s.rec.lockupTx);
    var s1 := UpdateStatus(env, s, locked, TbtcLocked);
    var s2 := UpdateStatus(env, s1, locked.(status := TbtcLocked), Claiming);
    ClaimKeeps(env, s2, s.rec.terms.timeoutHeight, false);
  }

  // ----- confirming a delivery -----

  /** What the bridges must report for a settling record, and when: LayerZero its delivery; Circle the
      attested amount, together with the mint, or else a failed forward and then the nonce on Solana. */
  ghost predicate ReportedDelivered(env: Env, t: nat, kind: BridgeKind, r: BridgeRef) {
    var w := env.world(t);
    match kind
    case Direct => true
    case Oft => r in w.oftDelivered
    case Cctp =>
      && r in w.attested
      && (r in w.forwarded || (env.solana && r in w.forwardFailed && r in env.world(t + 1).nonceUsed))
  }

  /** A pass completes a settling swap exactly then, with the attested amount for a Cctp one. */
  lemma ConfirmedExactly(env: Env, s: State, k: nat)
    requires k < |s.polls| && s.polls[k].swap == s.rec && s.rec.status.Settling? && s.rec.bridgeRef.Some?
    requires Steady(env, s.now)
    ensures var r, ref := Step(env, s, Serve(k)), s.rec.bridgeRef.value;
            r.rec ==
            if !ReportedDelivered(env, s.now, s.rec.terms.kind, ref) then s.rec
            else if s.rec.terms.kind.Cctp?
            then s.rec.(status := Completed, delivered := Some(env.world(s.now).attested[ref]))
            else s.rec.(status := Completed)
  {
  }

  lemma UnansweredConfirmationWaits(env: Env, s: State, k: nat)
    requires k < |s.polls| && s.polls[k].swap.status.Settling? && !s.polls[k].swap.terms.kind.Direct?
    requires !env.answers(s.now)
    ensures Step(env, s, Serve(k)).rec == s.rec
  {
  }

  /** Passes that list while a row is written will serve that row. */
  lemma WritesAreInSight(env: Env, s: State, swap: Swap, i: nat)
    requires s.alive && env.lives(s.now) && !swap.status.Terminal() && i < |env.listed(s.now)|
    ensures var r := Put(env, s, swap);
            |s.polls| + i < |r.polls| && r.polls[|s.polls| + i].swap == swap
  {
  }

  // ----- callers -----

  /** Accepting a degraded quote claims without the drift check, exactly where a claim can be pending. */
  lemma AcceptedIsClaimed(env: Env, s: State)
    requires s.rec.status.TbtcLocked? || s.rec.status.Claiming?
    requires Steady(env, s.now) && Winnable(env, s.now + 2, s.rec.terms.timeoutHeight, true)
    ensures var r := Step(env, s, Accept);
            && r.rec == s.rec.(status := Claiming, claimTx := Some(env.minedTx(s.now + 8)))
            && r.acks == s.acks + 1 && AcceptDegradedQuote(env, Begin(s)) == (true, r)
  {
    hide ClaimAndSwap;
    var s1 := UpdateStatus(env, Begin(s), s.rec, Claiming);
    assert s1.alive && s1.now == s.now + 2 && s1.acks == s.acks && s1.rec == s.rec.(status := Claiming);
    WinnableIsWon(env, s1, s.rec.terms.timeoutHeight, true);
  }

  lemma AcceptIsRefusedElsewhere(env: Env, s: State)
    requires !s.rec.status.TbtcLocked? && !s.rec.status.Claiming?
    ensures AcceptDegradedQuote(env, s) == (false, s)
  {
  }

  lemma SlippageIsSetExactly(env: Env, s: State, bps: nat)
    requires env.lives(s.now)
    ensures var r := Step(env, s, Slippage(bps));
            var accepted := 10 <= bps <= 500 && !s.rec.status.Terminal();
            && r.rec == (if accepted then s.rec.(slippageBps := bps) else s.rec)
            && UpdateSlippage(env, Begin(s), bps) == (accepted, r)
  {
  }

  // ----- announcements -----

  /** The last event is new and shows the record's status. */
  predicate Told(s: State, r: State) {
    |s.events| < |r.events| && r.events[|r.events| - 1].swap.status == r.rec.status
  }

  /** In a process that lives, a change of status has been announced last of all. */
  predicate Announces(s: State, r: State) {
    && |s.events| <= |r.events| && (r.alive ==> s.alive)
    && (r.alive ==> Told(s, r) || (r.events == s.events && r.rec.status == s.rec.status))
  }

  lemma UpdateAnnounces(env: Env, s: State, swap: Swap, status: Status)
    ensures var r := UpdateStatus(env, s, swap, status); Announces(s, r) && (r.alive ==> Told(s, r))
  {
  }

  lemma DoClaimAnnounces(env: Env, s: State, swap: Swap)
    ensures var r := DoClaim(env, s, swap, false); Announces(s, r) && (r.alive ==> Told(s, r))
  {
    hide ClaimAndSwap, UpdateStatus;
    UpdateAnnounces(env, s, swap, Claiming);
    var s1 := UpdateStatus(env, s, swap, Claiming);
    UpdateTakes(env, s, swap, Claiming);
    ClaimKeeps(env, s1, swap.terms.timeoutHeight, false);
  }

  lemma UpdateTakes(env: Env, s: State, swap: Swap, status: Status)
    ensures var r := UpdateStatus(env, s, swap, status); r.alive ==> r.rec == swap.(status := status)
  {
  }

  lemma ReceiptAnnounces(env: Env, s: State, tx: Tx)
    ensures Announces(s, CheckReceiptOnce(env, s, tx).1)
  {
  }

  lemma AdvanceAnnounces(env: Env, s: State, tx: Tx)
    ensures Announces(s, AdvanceViaWinningClaim(env, s, tx).1)
  {
    hide CheckReceiptOnce;
    ReceiptAnnounces(env, Put(env, s, s.rec.(claimTx := Some(tx), pendingCall := None)), tx);
  }

  lemma RetryAnnounces(env: Env, s: State, swap: Swap)
    ensures Announces(s, CheckOnChainAndRetry(env, s, swap))
  {
    hide DoClaim, AdvanceViaWinningClaim, Classify, UpdateStatus;
    var reset := swap.(status := TbtcLocked);
    DoClaimAnnounces(env, Put(env, Later(s), reset), reset);
    var (verdict, t) := Classify(env, s.now + 1, swap.lockupTx);
    if verdict.ByClaim? { AdvanceAnnounces(env, At(s, t), verdict.tx); }
    UpdateAnnounces(env, At(s, t), swap, Failed("Lockup refunded"));
  }

  lemma RecoverRevertedAnnounces(env: Env, s: State)
    ensures Announces(s, RecoverFromReverted(env, s).1)
  {
    hide DoClaim, AdvanceViaWinningClaim, Classify, UpdateStatus;
    DoClaimAnnounces(env, Later(s), s.rec.(claimTx := None));
    var (verdict, t) := Classify(env, s.now + 1, s.rec.lockupTx);
    if verdict.ByClaim? { AdvanceAnnounces(env, At(s, t), verdict.tx); }
    UpdateAnnounces(env, At(s, t), s.rec, Failed("Lockup refunded"));
  }

  lemma {:induction false} PollAnnounces(env: Env, s: State, tx: Tx, left: nat)
    ensures Announces(s, PollReceipt(env, s, tx, left).1)
    decreases left
  {
    if left > 0 {
      hide CheckReceiptOnce, RecoverFromReverted;
      ReceiptAnnounces(env, s, tx);
      var (o, s1) := CheckReceiptOnce(env, s, tx);
      if o.WasReverted? { RecoverRevertedAnnounces(env, s1); }
      if o.NotMined? { PollAnnounces(env, s1, tx, left - 1); }
    }
  }

  lemma ResumeAnnounces(env: Env, s: State)
    ensures Announces(s, ResumePendingCall(env, s, s.rec).1)
  {
    hide PollReceipt, CheckOnChainAndRetry;
    var row := s.rec.(claimTx := Some(env.minedTx(s.now)), pendingCall := None);
    PollAnnounces(env, Put(env, Later(s), row), env.minedTx(s.now), RECEIPT_POLL_MAX_ATTEMPTS);
    RetryAnnounces(env, Later(s), s.rec);
  }

  lemma EventAnnounces(env: Env, s: State, u: WsUpdate)
    ensures Announces(s, HandleWsUpdate(env, s, u))
  {
    hide PollReceipt, ResumePendingCall, CheckOnChainAndRetry, DoClaim, UpdateStatus, KindOf, Stale;
    hide AdvanceViaWinningClaim, Classify;
    if s.rec.claimTx.Some? { PollAnnounces(env, s, s.rec.claimTx.value, RECEIPT_POLL_MAX_ATTEMPTS); }
    ResumeAnnounces(env, s);
    RetryAnnounces(env, s, s.rec);
    RetryAnnounces(env, Later(s), s.rec);
    UpdateAnnounces(env, s, s.rec, InvoicePaid);
    UpdateAnnounces(env, Later(s), s.rec, PostClaimStatus(s.rec.terms.kind));
    ConfirmedAnnounces(env, s, u.tx);
    TerminalAnnounces(env, s, Expired);
    TerminalAnnounces(env, s, Failed(FailureReason(u)));
    hide HandleTerminalEvent, HandleConfirmed;
  }

  lemma ConfirmedAnnounces(env: Env, s: State, tx: Option<Tx>)
    ensures Announces(s, HandleConfirmed(env, s, s.rec, tx))
  {
    hide PollReceipt, ResumePendingCall, CheckOnChainAndRetry, DoClaim, UpdateStatus;
    if s.rec.claimTx.Some? { PollAnnounces(env, s, s.rec.claimTx.value, RECEIPT_POLL_MAX_ATTEMPTS); }
    ResumeAnnounces(env, s);
    RetryAnnounces(env, s, s.rec);
    var locked := s.rec.(lockupTx := if tx.Some? then tx else s.rec.lockupTx);
    UpdateAnnounces(env, s, locked, TbtcLocked);
    DoClaimAnnounces(env, UpdateStatus(env, s, locked, TbtcLocked), locked.(status := TbtcLocked));
  }

  lemma TerminalAnnounces(env: Env, s: State, status: Status)
    ensures Announces(s, HandleTerminalEvent(env, s, s.rec, status))
  {
    hide AdvanceViaWinningClaim, Classify, UpdateStatus;
    UpdateAnnounces(env, s, s.rec, status);
    UpdateAnnounces(env, Later(s), s.rec, status);
    var (verdict, t) := Classify(env, s.now + 1, s.rec.lockupTx);
    UpdateAnnounces(env, At(s, t), s.rec, status);
    if verdict.ByClaim? { AdvanceAnnounces(env, At(s, t), verdict.tx); }
  }

  lemma FinalizeAnnounces(env: Env, s: State, amount: Option<nat>)
    ensures Announces(s, FinalizeCompleted(env, s, amount))
  {
  }

  lemma ConfirmAnnounces(env: Env, s: State, snapshot: Swap)
    ensures Announces(s, ConfirmDelivery(env, s, snapshot))
  {
    hide FinalizeCompleted;
    FinalizeAnnounces(env, s, None);
    FinalizeAnnounces(env, Later(s), None);
    if snapshot.bridgeRef.Some? {
      var amount := AttestedAmount(env.world(s.now), snapshot.bridgeRef.value);
      FinalizeAnnounces(env, Later(s), amount);
      FinalizeAnnounces(env, At(s, s.now + 2), amount);
    }
  }

  lemma RecoverClaimingAnnounces(env: Env, s: State, tx: Tx, l1: Option<nat>)
    ensures Announces(s, RecoverClaiming(env, s, s.rec, tx, l1))
  {
    hide AdvanceViaWinningClaim, Classify, CheckReceiptOnce, UpdateStatus;
    ReceiptAnnounces(env, s, tx);
    var s1 := CheckReceiptOnce(env, s, tx).1;
    var (verdict, t) := Classify(env, s1.now + 1, s.rec.lockupTx);
    if verdict.ByClaim? { AdvanceAnnounces(env, At(s1, t), verdict.tx); }
    UpdateAnnounces(env, At(s1, t), s.rec, Failed("Claim transaction never mined; lockup refunded"));
  }

  lemma AcceptAnnounces(env: Env, s: State)
    ensures Announces(s, AcceptDegradedQuote(env, s).1)
  {
    hide ClaimAndSwap, UpdateStatus;
    UpdateAnnounces(env, s, s.rec, Claiming);
    UpdateTakes(env, s, s.rec, Claiming);
    ClaimKeeps(env, UpdateStatus(env, s, s.rec, Claiming), s.rec.terms.timeoutHeight, true);
  }

  /** Whatever a handler does to the status, in a process that lives, subscribers have heard of it last. */
  lemma EveryChangeIsAnnounced(env: Env, s: State, a: Action)
    ensures Announces(Begin(s), Step(env, s, a))
  {
    hide HandleWsUpdate, ConfirmDelivery, RecoverClaiming, AcceptDegradedQuote;
    var s0 := Begin(s);
    match a {
      case Ws(u) => EventAnnounces(env, s0, u);
      case Serve(k) =>
        if k < |s0.polls| {
          ConfirmAnnounces(env, s0, s0.polls[k].swap);
          if s.rec.claimTx.Some? { RecoverClaimingAnnounces(env, s0, s.rec.claimTx.value, s0.polls[k].l1); }
        }
      case Accept => AcceptAnnounces(env, s0);
      case _ =>
    }
  }
}
