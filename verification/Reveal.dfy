/** Over whole runs: what every claim submission, and so every hand-over of the preimage, comes after. */
module Reveal {
  import opened Wrappers
  import opened Models
  import opened Chain
  import opened Ledger
  import opened Executor
  import opened Protocol
  import opened Safety
  import opened ExecutorTrace
  import opened Runs

  /** Before submission `k`: a lock read of true, then at once a margin check that found sixty L1 blocks
      of headroom, then only attempts of the same claim, none of which saw the lockup gone or was
      acknowledged; the first attempt follows the margin check at once, every other a lock read. */
  ghost predicate GuardedAt(env: Env, timeoutHeight: nat, obs: seq<Obs>, k: nat)
    requires k < |obs|
  {
    exists j: nat :: 0 < j < k && GuardsFrom(env, timeoutHeight, obs, j, k)
  }

  ghost predicate GuardsFrom(env: Env, timeoutHeight: nat, obs: seq<Obs>, j: nat, k: nat)
    requires 0 < j < k < |obs|
  {
    && obs[j - 1].LockSeen? && obs[j - 1].answer == Some(true) && LockedAt(env, obs[j - 1].at)
    && obs[j].MarginChecked? && obs[j].enough && env.world(obs[j].at).l1Height + 60 <= timeoutHeight
    && (forall m | j < m < k :: !obs[m].MarginChecked? && !SawUnlocked(obs[m]) && !Acknowledged(obs[m]))
    && j + 1 < k && obs[k - 1].Attempted? && (k - 2 == j || obs[k - 2].LockSeen?)
  }

  ghost predicate Guarded(env: Env, timeoutHeight: nat, obs: seq<Obs>) {
    forall k: nat | k < |obs| && obs[k].Submitted? :: GuardedAt(env, timeoutHeight, obs, k)
  }

  /** What a stretch of a run does to the trace. */
  ghost predicate KeepsGuard(env: Env, s: State, r: State) {
    && r.rec.terms == s.rec.terms
    && (Guarded(env, s.rec.terms.timeoutHeight, s.obs) ==> Guarded(env, s.rec.terms.timeoutHeight, r.obs))
  }

  lemma GuardedAppend(env: Env, timeoutHeight: nat, xs: seq<Obs>, ys: seq<Obs>)
    requires Guarded(env, timeoutHeight, xs) && Guarded(env, timeoutHeight, ys)
    ensures Guarded(env, timeoutHeight, xs + ys)
  {
    var obs := xs + ys;
    forall k: nat | k < |obs| && obs[k].Submitted?
      ensures GuardedAt(env, timeoutHeight, obs, k)
    {
      if k < |xs| {
        var j: nat :| 0 < j < k && GuardsFrom(env, timeoutHeight, xs, j, k);
        assert GuardsFrom(env, timeoutHeight, obs, j, k);
      } else {
        var j: nat :| 0 < j < k - |xs| && GuardsFrom(env, timeoutHeight, ys, j, k - |xs|);
        assert forall m | j + |xs| < m < k :: obs[m] == ys[m - |xs|];
        assert GuardsFrom(env, timeoutHeight, obs, j + |xs|, k);
      }
    }
  }

  lemma TraceIsGuarded(env: Env, timeoutHeight: nat, trace: seq<Obs>, v: nat)
    requires ClaimTraceOk(env, timeoutHeight, trace, v)
    ensures Guarded(env, timeoutHeight, trace)
  {
    forall k: nat | k < |trace| && trace[k].Submitted?
      ensures GuardedAt(env, timeoutHeight, trace, k)
    {
      assert trace[v + 1..][k - v - 1] == trace[k];
      assert trace[v + 1..][k - v - 2] == trace[k - 1];
      if k - 2 > v { assert trace[v + 1..][k - v - 3] == trace[k - 2]; }
      assert forall m | v < m < k :: trace[m] == trace[v + 1..][m - v - 1];
      assert GuardsFrom(env, timeoutHeight, trace, v, k);
    }
  }

  lemma DeadClaimIsSilent(env: Env, s: State, timeoutHeight: nat, skipDrift: bool)
    requires !s.alive
    ensures ClaimAndSwap(env, s, timeoutHeight, skipDrift).1.obs == s.obs
  {
    hide VerifyLockup, Attempts;
    VerifyTrace(env, s, LOCKUP_CHECK_MAX_ATTEMPTS);
    var (ok, s1) := VerifyLockup(env, s, LOCKUP_CHECK_MAX_ATTEMPTS);
    if ok && L1Read(env, s1.now).Some? {
      var enough := MarginOk(timeoutHeight, L1Read(env, s1.now).value);
      DeadAttemptsAreSilent(env, Later(Later(Observe(s1, MarginChecked(s1.now, enough)))), skipDrift, 0);
    }
  }

  lemma ClaimGuards(env: Env, s: State, skipDrift: bool)
    ensures KeepsGuard(env, s, ClaimAndSwap(env, s, s.rec.terms.timeoutHeight, skipDrift).1)
  {
    hide ClaimAndSwap, Guarded;
    var height := s.rec.terms.timeoutHeight;
    var r := ClaimAndSwap(env, s, height, skipDrift).1;
    ClaimKeeps(env, s, height, skipDrift);
    if s.alive {
      var v := ClaimTrace(env, s, height, skipDrift);
      TraceIsGuarded(env, height, New(s, r), v);
      assert r.obs == s.obs + New(s, r);
      if Guarded(env, height, s.obs) { GuardedAppend(env, height, s.obs, New(s, r)); }
    } else {
      DeadClaimIsSilent(env, s, height, skipDrift);
    }
  }

  /** Nothing observable happened. */
  predicate Silent(s: State, r: State) {
    r.obs == s.obs && r.rec.terms == s.rec.terms
  }

  lemma DoClaimGuards(env: Env, s: State, swap: Swap, skipDrift: bool)
    requires swap.terms == s.rec.terms
    ensures KeepsGuard(env, s, DoClaim(env, s, swap, skipDrift))
  {
    hide ClaimAndSwap, Guarded;
    ClaimGuards(env, UpdateStatus(env, s, swap, Claiming), skipDrift);
  }

  lemma CheckReceiptIsSilent(env: Env, s: State, tx: Tx)
    ensures Silent(s, CheckReceiptOnce(env, s, tx).1)
  {
  }

  lemma AdvanceIsSilent(env: Env, s: State, tx: Tx)
    ensures Silent(s, AdvanceViaWinningClaim(env, s, tx).1)
  {
    hide CheckReceiptOnce;
    CheckReceiptIsSilent(env, Put(env, s, s.rec.(claimTx := Some(tx), pendingCall := None)), tx);
  }

  lemma RetryGuards(env: Env, s: State, swap: Swap)
    requires swap.terms == s.rec.terms
    ensures KeepsGuard(env, s, CheckOnChainAndRetry(env, s, swap))
  {
    hide DoClaim, AdvanceViaWinningClaim, Classify, Guarded;
    var reset := swap.(status := TbtcLocked);
    DoClaimGuards(env, Put(env, Later(s), reset), reset, false);
    var (verdict, t) := Classify(env, s.now + 1, swap.lockupTx);
    if verdict.ByClaim? { AdvanceIsSilent(env, At(s, t), verdict.tx); }
  }

  lemma RecoverRevertedGuards(env: Env, s: State)
    ensures KeepsGuard(env, s, RecoverFromReverted(env, s).1)
  {
    hide DoClaim, AdvanceViaWinningClaim, Classify, Guarded;
    DoClaimGuards(env, Later(s), s.rec.(claimTx := None), false);
    var (verdict, t) := Classify(env, s.now + 1, s.rec.lockupTx);
    if verdict.ByClaim? { AdvanceIsSilent(env, At(s, t), verdict.tx); }
  }

  lemma {:induction false} PollGuards(env: Env, s: State, tx: Tx, left: nat)
    ensures KeepsGuard(env, s, PollReceipt(env, s, tx, left).1)
    decreases left
  {
    if left > 0 {
      hide CheckReceiptOnce, RecoverFromReverted, Guarded;
      CheckReceiptIsSilent(env, s, tx);
      var (o, s1) := CheckReceiptOnce(env, s, tx);
      if o.WasReverted? { RecoverRevertedGuards(env, s1); }
      if o.NotMined? { PollGuards(env, s1, tx, left - 1); }
    }
  }

  lemma ResumeGuards(env: Env, s: State, swap: Swap)
    requires swap.terms == s.rec.terms
    ensures KeepsGuard(env, s, ResumePendingCall(env, s, swap).1)
  {
    hide PollReceipt, CheckOnChainAndRetry, Guarded;
    if env.answers(s.now) {
      var tx := env.minedTx(s.now);
      var row := s.rec.(claimTx := Some(tx), pendingCall := None);
      PollGuards(env, Put(env, Later(s), row), tx, RECEIPT_POLL_MAX_ATTEMPTS);
    } else {
      RetryGuards(env, Later(s), swap);
    }
  }

  lemma ClaimingResumeGuards(env: Env, s: State, swap: Swap)
    requires swap.terms == s.rec.terms
    ensures KeepsGuard(env, s, HandleClaimingResume(env, s, swap))
  {
    hide PollReceipt, CheckOnChainAndRetry, ResumePendingCall, KeepsGuard;
    if swap.claimTx.Some? { PollGuards(env, s, swap.claimTx.value, RECEIPT_POLL_MAX_ATTEMPTS); }
    ResumeGuards(env, s, swap);
    RetryGuards(env, s, swap);
  }

  lemma SettledGuards(env: Env, s: State, swap: Swap)
    requires swap.terms == s.rec.terms
    ensures KeepsGuard(env, s, HandleSettled(env, s, swap))
  {
    hide PollReceipt, CheckOnChainAndRetry, ResumePendingCall, Guarded;
    if swap.claimTx.Some? { PollGuards(env, s, swap.claimTx.value, RECEIPT_POLL_MAX_ATTEMPTS); }
    ResumeGuards(env, s, swap);
    RetryGuards(env, Later(s), swap);
  }

  lemma ConfirmedGuards(env: Env, s: State, swap: Swap, tx: Option<Tx>)
    requires swap.terms == s.rec.terms
    ensures KeepsGuard(env, s, HandleConfirmed(env, s, swap, tx))
  {
    hide DoClaim, HandleClaimingResume, Guarded;
    ClaimingResumeGuards(env, s, swap);
    var locked := swap.(lockupTx := if tx.Some? then tx else swap.lockupTx);
    DoClaimGuards(env, UpdateStatus(env, s, locked, TbtcLocked), locked.(status := TbtcLocked), false);
  }

  lemma UpdateIsSilent(env: Env, s: State, swap: Swap, status: Status)
    requires swap.terms == s.rec.terms
    ensures Silent(s, UpdateStatus(env, s, swap, status))
  {
  }

  lemma TerminalEventGuards(env: Env, s: State, swap: Swap, status: Status)
    requires swap.terms == s.rec.terms
    ensures Silent(s, HandleTerminalEvent(env, s, swap, status))
  {
    hide AdvanceViaWinningClaim, Classify, UpdateStatus;
    var (verdict, t) := Classify(env, s.now + 1, swap.lockupTx);
    UpdateIsSilent(env, s, swap, status);
    UpdateIsSilent(env, Later(s), swap, status);
    UpdateIsSilent(env, At(s, t), swap, status);
    if verdict.ByClaim? { AdvanceIsSilent(env, At(s, t), verdict.tx); }
  }

  lemma WsGuards(env: Env, s: State, u: WsUpdate)
    ensures KeepsGuard(env, s, HandleWsUpdate(env, s, u))
  {
    hide HandleSettled, HandleConfirmed, HandleTerminalEvent, Guarded, KindOf, Stale;
    SettledGuards(env, s, s.rec);
    ConfirmedGuards(env, s, s.rec, u.tx);
    TerminalEventGuards(env, s, s.rec, Expired);
    TerminalEventGuards(env, s, s.rec, Failed(FailureReason(u)));
  }

  lemma RecoverClaimingIsSilent(env: Env, s: State, swap: Swap, tx: Tx, l1: Option<nat>)
    requires swap.terms == s.rec.terms
    ensures Silent(s, RecoverClaiming(env, s, swap, tx, l1))
  {
    hide AdvanceViaWinningClaim, Classify, CheckReceiptOnce;
    CheckReceiptIsSilent(env, s, tx);
    var s1 := CheckReceiptOnce(env, s, tx).1;
    var (verdict, t) := Classify(env, s1.now + 1, swap.lockupTx);
    if verdict.ByClaim? { AdvanceIsSilent(env, At(s1, t), verdict.tx); }
  }

  lemma ServeIsSilent(env: Env, s: State, snapshot: Snapshot)
    ensures Silent(s, ServePoll(env, s, snapshot))
  {
    hide RecoverClaiming;
    if s.rec.claimTx.Some? { RecoverClaimingIsSilent(env, s, s.rec, s.rec.claimTx.value, snapshot.l1); }
  }

  lemma AcceptGuards(env: Env, s: State)
    ensures KeepsGuard(env, s, AcceptDegradedQuote(env, s).1)
  {
    hide ClaimAndSwap, Guarded;
    ClaimGuards(env, UpdateStatus(env, s, s.rec, Claiming), true);
  }

  lemma StepGuards(env: Env, s: State, a: Action)
    ensures KeepsGuard(env, s, Step(env, s, a))
  {
    hide HandleWsUpdate, ServePoll, AcceptDegradedQuote, Guarded;
    var s0 := Begin(s);
    match a {
      case Ws(u) => WsGuards(env, s0, u);
      case Serve(k) => if k < |s0.polls| { ServeIsSilent(env, s0, s0.polls[k]); }
      case Accept => AcceptGuards(env, s0);
      case _ =>
    }
  }

  lemma {:induction false} RunGuards(env: Env, s: State, actions: seq<Action>)
    ensures KeepsGuard(env, s, Run(env, s, actions))
    decreases |actions|
  {
    if actions != [] {
      hide Step, Guarded;
      StepGuards(env, s, actions[0]);
      RunGuards(env, Step(env, s, actions[0]), actions[1..]);
    }
  }

  /** In every run, whatever the events, crashes and callers: no submission without a lock read of true
      and then sixty L1 blocks of headroom, both in the same claim and both true when read. */
  lemma EverySubmissionIsGuarded(env: Env, swap: Swap, actions: seq<Action>)
    ensures Guarded(env, swap.terms.timeoutHeight, Run(env, Start(swap), actions).obs)
  {
    RunGuards(env, Start(swap), actions);
  }

  // ----- what the guard does not say -----

  const CONFIRMED: WsUpdate := WsUpdate("transaction.confirmed", None, None)
  const EXPIRED: WsUpdate := WsUpdate("swap.expired", None, None)
  const SAMPLE: Swap := Swap(Terms("id", Oft, 1000), Created, 100, None, None, None, None, None)

  /** The state a first claim of `swap` starts from. */
  function Claimant(env: Env, swap: Swap): State {
    var locked := swap.(status := TbtcLocked);
    UpdateStatus(env, UpdateStatus(env, Start(swap), swap, TbtcLocked), locked, Claiming)
  }

  lemma ClaimantIs(env: Env, swap: Swap)
    requires Fresh(swap) && forall t: nat :: env.lives(t)
    ensures var s := Claimant(env, swap);
            && s.alive && s.now == 4 && s.obs == [] && s.rec == swap.(status := Claiming)
  {
  }

  lemma ConfirmedComesToClaim(env: Env, swap: Swap)
    requires Fresh(swap)
    ensures Run(env, Start(swap), [Ws(CONFIRMED)])
         == DoClaim(env, UpdateStatus(env, Start(swap), swap, TbtcLocked), swap.(status := TbtcLocked), false)
  {
    assert KindOf(CONFIRMED.status) == Confirmed by { assert |CONFIRMED.status| == 21; }
    RunOne(env, Start(swap), Ws(CONFIRMED));
    hide DoClaim, KindOf, Run, UpdateStatus;
    assert swap.(lockupTx := swap.lockupTx) == swap;
  }

  /** What such a claim leaves behind, in a process that lives. */
  lemma ClaimLeaves(env: Env, swap: Swap)
    requires Fresh(swap) && forall t: nat :: env.lives(t)
    ensures var (o, s) := ClaimAndSwap(env, Claimant(env, swap), swap.terms.timeoutHeight, false);
            var r := Run(env, Start(swap), [Ws(CONFIRMED)]);
            && r.obs == s.obs
            && (s.alive && o == Lost(Drifted) ==> r.rec.status.TbtcLocked? && r.now == s.now + 2)
            && (s.alive && o.Won? ==>
                  r.rec == swap.(status := Claiming, claimTx := Some(o.tx)) && r.now == s.now + 1)
  {
    ClaimantIs(env, swap);
    ConfirmedComesToClaim(env, swap);
    hide Run, ClaimAndSwap;
  }

  /** The attempts of a claim whose checks pass start at instant 7. */
  function Checked(env: Env, swap: Swap): State {
    At(Observe(Observe(Claimant(env, swap), LockSeen(4, Some(true))), MarginChecked(5, true)), 7)
  }

  lemma ClaimIsItsAttempts(env: Env, swap: Swap)
    requires Fresh(swap) && forall t: nat :: env.lives(t)
    requires LockRead(env, 4) == Some(true) && env.answers(5) && env.answers(6)
    requires env.world(5).l1Height + 60 <= swap.terms.timeoutHeight
    ensures ClaimAndSwap(env, Claimant(env, swap), swap.terms.timeoutHeight, false)
         == Attempts(env, Checked(env, swap), false, 0)
    ensures Checked(env, swap).alive && Checked(env, swap).now == 7
  {
    ClaimantIs(env, swap);
    hide ClaimAndSwap, Attempts, UpdateStatus, Claimant;
    ChecksPass(env, Claimant(env, swap), swap.terms.timeoutHeight, false);
  }

  function ScriptedEnv(lockup: nat -> Lockup, l1: nat -> nat, answers: nat -> bool, attempt: nat -> Attempt): Env {
    Env((t: nat) => World(lockup(t), 0, l1(t), 0, map[], {}, map[], {}, {}, {}), answers, t => true, attempt,
        t => "call", t => "0xown", t => [], None, false)
  }

  /** The first attempt fails and the second submits, by when the lockup's timeout has passed. */
  function LateEnv(): Env {
    ScriptedEnv(t => Locked, (t: nat) => if t < 7 then 0 else 2000, t => true,
                (t: nat) => if t == 7 then Blocked else Ready)
  }

  /** The margin is checked once per claim, not once per submission: a retry can be submitted after the
      timeout. */
  lemma RetryMayBeLate()
    ensures var env := LateEnv();
            var obs := Run(env, Start(SAMPLE), [Ws(CONFIRMED)]).obs;
            && EnvOk(env)
            && exists x <- obs :: x.Submitted? && env.world(x.at).l1Height > SAMPLE.terms.timeoutHeight
  {
    var env := LateEnv();
    hide Run, ClaimAndSwap, Attempts, Claimant, Checked;
    ClaimIsItsAttempts(env, SAMPLE);
    LateAttempts(Checked(env, SAMPLE));
    ClaimLeaves(env, SAMPLE);
  }

  lemma LateAttempts(s: State)
    requires s.alive && s.now == 7
    ensures var (o, r) := Attempts(LateEnv(), s, false, 0); o.Won? && Submitted(10, true) in r.obs
  {
    var env := LateEnv();
    var s1 := Later(Observe(s, Attempted(7)));
    var s2 := Later(Observe(s1, LockSeen(8, Some(true))));
    assert Attempts(env, s, false, 0) == Attempts(env, s2, false, 1);
    assert Attempts(env, s2, false, 1) == TryClaim(env, s2, false);
  }

  /** The first submission is not answered though it went out, the second attempt drifts, and the lockup
      is claimed by the former. */
  function DriftEnv(): Env {
    ScriptedEnv((t: nat) => if t < 10 then Locked else Claimed("0xown"), t => 0, (t: nat) => t != 8,
                (t: nat) => if t == 7 then Ready else QuoteDrifted)
  }

  lemma DriftAttempts(s: State)
    requires s.alive && s.now == 7
    ensures var (o, r) := Attempts(DriftEnv(), s, false, 0);
            && o == Lost(Drifted) && Submitted(8, false) in r.obs
            && r.alive && r.now == 11 && r.rec == s.rec
  {
    var env := DriftEnv();
    var s1 := Later(Observe(s, Attempted(7)));
    var s2 := Later(Observe(s1, Submitted(8, false)));
    var s3 := Later(Observe(s2, LockSeen(9, Some(true))));
    assert Attempts(env, s, false, 0) == Attempts(env, s3, false, 1);
    assert Attempts(env, s3, false, 1) == TryClaim(env, s3, false);
  }

  /** A degraded quote does not mean that the preimage stayed home: here the reset to `TbtcLocked` follows
      a submission, and one expiry event writes off the client's own successful claim. */
  lemma OwnClaimIsWrittenOff()
    ensures var env := DriftEnv();
            var claimed := Run(env, Start(SAMPLE), [Ws(CONFIRMED)]);
            var r := Run(env, claimed, [Ws(EXPIRED)]);
            && EnvOk(env) && Submitted(8, false) in claimed.obs
            && claimed.rec.status.TbtcLocked? && env.world(claimed.now).lockup.Claimed?
            && r.rec.status == Expired
  {
    var env := DriftEnv();
    hide Run, ClaimAndSwap, Attempts, Claimant, Checked;
    ClaimIsItsAttempts(env, SAMPLE);
    DriftAttempts(Checked(env, SAMPLE));
    ClaimLeaves(env, SAMPLE);
    PreClaimRecordIsWrittenOff(env, Run(env, Start(SAMPLE), [Ws(CONFIRMED)]));
  }
}
