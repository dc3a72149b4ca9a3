/** What holds over whole runs: any events in any order, any ticks and callers, crashes anywhere. */
module Runs {
  import opened Wrappers
  import opened Models
  import opened LogScan
  import opened Chain
  import opened Ledger
  import opened Executor
  import opened Protocol
  import opened Safety

  function ClaimerCount(actions: seq<Action>): nat {
    if actions == [] then 0 else Claimers(actions[0]) + ClaimerCount(actions[1..])
  }

  /** Every run keeps the invariant, moves the record only forward (but for the documented reset),
      and gets at most one acknowledged submission per event or accepted quote handled. */
  lemma {:induction false} RunKeeps(env: Env, s: State, actions: seq<Action>)
    requires EnvOk(env) && Inv(env, s)
    ensures var r := Run(env, s, actions);
            Inv(env, r) && Evolves(env, s, r) && r.acks <= s.acks + ClaimerCount(actions)
    decreases |actions|
  {
    if actions != [] {
      hide Step;
      var s1 := Step(env, s, actions[0]);
      StepKeeps(env, s, actions[0]);
      RunKeeps(env, s1, actions[1..]);
      EvolvesCompose(env, s, s1, Run(env, s1, actions[1..]));
    }
  }

  lemma StartIsOk(env: Env, swap: Swap)
    requires Fresh(swap) && SourceFits(env, swap.terms.kind)
    ensures Inv(env, Start(swap))
  {
  }

  lemma {:induction false} RunAppend(env: Env, s: State, xs: seq<Action>, ys: seq<Action>)
    ensures Run(env, s, xs + ys) == Run(env, Run(env, s, xs), ys)
    decreases |xs|
  {
    hide Step;
    if xs == [] {
      assert xs + ys == ys;
    } else {
      assert (xs + ys)[1..] == xs[1..] + ys;
      RunAppend(env, Step(env, s, xs[0]), xs[1..], ys);
    }
  }

  // ----- status order -----

  /** Between any two moments of any run the status only rises, except that `Claiming` may fall back
      to `TbtcLocked`; `Settling` leads only to `Completed`, and a terminal record never changes. */
  lemma StatusOnlyRises(env: Env, swap: Swap, xs: seq<Action>, ys: seq<Action>)
    requires EnvOk(env) && Fresh(swap) && SourceFits(env, swap.terms.kind)
    ensures var p := Run(env, Start(swap), xs).rec;
            var q := Run(env, Start(swap), xs + ys).rec;
            && (p.status.Stage() <= q.status.Stage() || (p.status.Claiming? && q.status.TbtcLocked?))
            && (p.status.Settling? ==> q.status.Settling? || q.status.Completed?)
            && (p.status.Terminal() ==> q == p)
  {
    StartIsOk(env, swap);
    RunKeeps(env, Start(swap), xs);
    RunAppend(env, Start(swap), xs, ys);
    RunKeeps(env, Run(env, Start(swap), xs), ys);
  }

  // ----- a claimed swap is never lost -----

  predicate Abandoned(status: Status) {
    status.Failed? || status.Expired? || status.TbtcLocked?
  }

  /** Once a swap is `Claiming` and its lockup has been claimed, no continuation fails it, expires it
      or sends it back for another claim. */
  lemma ClaimedNeverLost(env: Env, s: State, actions: seq<Action>)
    requires EnvOk(env) && Inv(env, s)
    requires s.rec.status.Claiming? && env.world(s.now).lockup.Claimed?
    ensures !Abandoned(Run(env, s, actions).rec.status)
  {
    RunKeeps(env, s, actions);
    var r := Run(env, s, actions);
    if Abandoned(r.rec.status) {
      var t: nat :| s.now <= t < r.now && NotClaimedAt(env, t);
      Growth(env, s.now, t);
    }
  }

  /** A claimed lockup under a record that still says `Created`, `InvoicePaid` or `TbtcLocked` (another
      instance claimed it) is written off by a single expiry event. */
  lemma PreClaimRecordIsWrittenOff(env: Env, s: State)
    requires s.rec.status.PreClaim() && env.lives(s.now)
    ensures Run(env, s, [Ws(WsUpdate("swap.expired", None, None))]).rec.status == Expired
  {
    var u := WsUpdate("swap.expired", None, None);
    assert KindOf(u.status) == Expiry by {
      assert |u.status| == 12;
      assert u.status[0] == 's';
    }
    assert [Ws(u)][1..] == [];
    var s1 := Step(env, s, Ws(u));
    assert Run(env, s1, []) == s1;
  }

  /** So the record's own stage says exactly when a claimed lockup is safe from every future event. */
  lemma ClaimedIsSafeExactlyOnceClaiming(env: Env, s: State)
    requires EnvOk(env) && Inv(env, s) && env.lives(s.now)
    requires env.world(s.now).lockup.Claimed? && !s.rec.status.Failed? && !s.rec.status.Expired?
    ensures (forall actions :: !Abandoned(Run(env, s, actions).rec.status)) <==> !s.rec.status.PreClaim()
  {
    if s.rec.status.PreClaim() {
      PreClaimRecordIsWrittenOff(env, s);
      assert Abandoned(Run(env, s, [Ws(WsUpdate("swap.expired", None, None))]).rec.status);
    } else {
      forall actions ensures !Abandoned(Run(env, s, actions).rec.status) {
        if s.rec.status.Claiming? { ClaimedNeverLost(env, s, actions); } else { RunKeeps(env, s, actions); }
      }
    }
  }

  /** Some handler of the run took the record out of `Claiming`, and at an instant of that very handler
      the lockup was unclaimed. */
  ghost predicate AbandonedAt(env: Env, s: State, actions: seq<Action>, k: nat)
    requires k < |actions|
  {
    var p := Run(env, s, actions[..k]);
    var q := Step(env, p, actions[k]);
    && p.rec.status.Claiming? && Abandoned(q.rec.status)
    && exists t: nat :: p.now <= t < q.now && NotClaimedAt(env, t)
  }

  /** A swap that was claiming is given up only by a handler during which its lockup was unclaimed. */
  lemma {:induction false} FailureIsEarned(env: Env, s: State, actions: seq<Action>)
    requires EnvOk(env) && Inv(env, s) && s.rec.status.Claiming?
    requires Abandoned(Run(env, s, actions).rec.status)
    ensures exists k: nat | k < |actions| :: AbandonedAt(env, s, actions, k)
    decreases |actions|
  {
    hide Step;
    var n := |actions| - 1;
    var front := actions[..n];
    assert actions == front + [actions[n]];
    RunAppend(env, s, front, [actions[n]]);
    var p := Run(env, s, front);
    assert Run(env, s, actions) == Step(env, p, actions[n]) by { RunOne(env, p, actions[n]); }
    RunKeeps(env, s, front);
    StepKeeps(env, p, actions[n]);
    if p.rec.status.Claiming? {
      assert AbandonedAt(env, s, actions, n);
    } else {
      if p.rec.status.PostClaim() { assert false; }
      FailureIsEarned(env, s, front);
      var k: nat :| k < n && AbandonedAt(env, s, front, k);
      assert front[..k] == actions[..k];
      assert AbandonedAt(env, s, actions, k);
    }
  }

  lemma RunOne(env: Env, s: State, a: Action)
    ensures Run(env, s, [a]) == Step(env, s, a)
  {
    hide Step;
    assert [a][1..] == [];
  }

  // ----- completion is earned -----

  /** Action `k` was a settled event, handled with neither hash nor call id on record, that read the
      lockup as not locked. */
  ghost predicate SettledOnSight(env: Env, s: State, actions: seq<Action>, k: nat)
    requires k < |actions|
  {
    var p := Run(env, s, actions[..k]);
    && actions[k].Ws? && KindOf(actions[k].update.status).Settled?
    && p.rec.status.Stage() <= 3 && p.rec.claimTx.None? && p.rec.pendingCall.None?
    && LockRead(env, p.now) == Some(false)
  }

  /** The one handler that completes a swap without a claim transaction on record. */
  lemma BareCompletionIsSettled(env: Env, s: State, a: Action)
    requires EnvOk(env) && Inv(env, s) && !s.rec.status.Completed?
    requires var r := Step(env, s, a).rec; r.status.Completed? && r.claimTx.None?
    ensures SettledOnSight(env, s, [a], 0)
  {
    hide HandleWsUpdate, ServePoll, AcceptDegradedQuote, UpdateSlippage;
    var s0 := Begin(s);
    assert [a][..0] == [];
    match a {
      case Ws(u) => BareSettled(env, s0, u);
      case List(_) =>
      case Serve(k) => if k < |s0.polls| { ServeProves(env, s0, s0.polls[k]); }
      case Accept => AcceptKeeps(env, s0);
      case Slippage(bps) => SlippageKeeps(env, s0, bps);
      case Wait(_) =>
    }
  }

  lemma ServeProves(env: Env, s: State, snapshot: Snapshot)
    requires EnvOk(env) && Inv(env, s) && s.alive && RecMoves(snapshot.swap, s.rec)
    requires var r := ServePoll(env, s, snapshot).rec; r.status.Completed? && !s.rec.status.Completed?
    ensures ServePoll(env, s, snapshot).rec.claimTx.Some?
  {
    hide ConfirmDelivery, RecoverClaiming;
    ServeKeeps(env, s, snapshot);
    if s.rec.status.Claiming? && s.rec.claimTx.Some? { RecoverClaimingKeeps(env, s, snapshot.l1); }
  }

  lemma BareSettled(env: Env, s: State, u: WsUpdate)
    requires EnvOk(env) && Inv(env, s) && s.alive && !s.rec.status.Completed?
    requires var r := HandleWsUpdate(env, s, u).rec; r.status.Completed? && r.claimTx.None?
    ensures KindOf(u.status).Settled? && s.rec.status.Stage() <= 3
    ensures s.rec.claimTx.None? && s.rec.pendingCall.None? && LockRead(env, s.now) == Some(false)
  {
    hide UpdateStatus, HandleConfirmed, HandleSettled, HandleTerminalEvent, KindOf, Put, Emit;
    match KindOf(u.status) {
      case InvoicePaidMsg => UpdateKeeps(env, s, s, s.rec, InvoicePaid);
      case Mempool =>
        var seen := s.rec.(lockupTx := u.tx);
        PutKeeps(env, s, s, seen);
        EmitKeeps(env, s, Put(env, s, seen), SwapUpdated(seen));
      case Confirmed => ConfirmedKeeps(env, s, s.rec, u.tx);
      case Settled =>
        if !(s.rec.claimTx.None? && s.rec.pendingCall.None? && LockRead(env, s.now) == Some(false)) {
          SettledProves(env, s, s.rec);
        }
      case Expiry => TerminalEventKeeps(env, s, s.rec, Expired);
      case Failure => TerminalEventKeeps(env, s, s.rec, Failed(FailureReason(u)));
      case _ =>
    }
  }

  /** A settled event that does not rest on the lock read alone leaves the hash it rests on. */
  lemma SettledProves(env: Env, s: State, swap: Swap)
    requires EnvOk(env) && Inv(env, s) && Copied(s, swap)
    requires swap.claimTx.Some? || swap.pendingCall.Some? || LockRead(env, s.now) != Some(false)
    ensures Proven(s, HandleSettled(env, s, swap))
  {
    hide PollReceipt, ResumePendingCall, CheckOnChainAndRetry;
    InvLater(env, s, s.now + 1);
    if swap.claimTx.Some? { PollKeeps(env, s, swap.claimTx.value, RECEIPT_POLL_MAX_ATTEMPTS); }
    else if swap.pendingCall.Some? { ResumeKeeps(env, s, swap); }
    else { RetryKeeps(env, Later(s), swap); }
  }

  /** A run that ends `Completed` without a claim transaction went through such an event. */
  lemma {:induction false} BareRunWasSettled(env: Env, s: State, actions: seq<Action>)
    requires EnvOk(env) && Inv(env, s) && !s.rec.status.Completed?
    requires var r := Run(env, s, actions).rec; r.status.Completed? && r.claimTx.None?
    ensures exists k: nat | k < |actions| :: SettledOnSight(env, s, actions, k)
    decreases |actions|
  {
    hide Step;
    var n := |actions| - 1;
    var front := actions[..n];
    assert actions == front + [actions[n]];
    RunAppend(env, s, front, [actions[n]]);
    var p := Run(env, s, front);
    RunOne(env, p, actions[n]);
    RunKeeps(env, s, front);
    StepKeeps(env, p, actions[n]);
    if p.rec.status.Completed? {
      BareRunWasSettled(env, s, front);
      var k: nat :| k < n && SettledOnSight(env, s, front, k);
      assert front[..k] == actions[..k];
      assert SettledOnSight(env, s, actions, k);
    } else {
      BareCompletionIsSettled(env, p, actions[n]);
      assert [actions[n]][..0] == [];
      assert SettledOnSight(env, s, actions, n);
    }
  }

  /** In every run: a completed bridged swap was delivered, with the evidence for this very swap; a direct
      one shows its transfer, or was completed by a settled event on a lock read; and no record before
      `Settling`, and no failed one, carries an amount or a bridge handle. */
  lemma CompletionIsEarned(env: Env, swap: Swap, actions: seq<Action>)
    requires EnvOk(env) && Fresh(swap) && SourceFits(env, swap.terms.kind)
    ensures var r := Run(env, Start(swap), actions);
            && (r.rec.status.Completed? ==> CompletionEvidence(env, r.now, r.rec))
            && (r.rec.status.Completed? && r.rec.terms.kind.Direct? && r.rec.delivered.None? ==>
                  exists k: nat | k < |actions| :: SettledOnSight(env, Start(swap), actions, k))
            && (!r.rec.status.PostClaim() ==> r.rec.delivered.None? && r.rec.bridgeRef.None?)
  {
    hide Run;
    StartIsOk(env, swap);
    RunKeeps(env, Start(swap), actions);
    var r := Run(env, Start(swap), actions);
    if r.rec.status.Completed? && r.rec.claimTx.None? { BareRunWasSettled(env, Start(swap), actions); }
  }

  /** A bridged swap without a handle waits in `Settling` for ever: it is never called delivered. */
  lemma UnreferencedNeverCompletes(env: Env, s: State, actions: seq<Action>)
    requires EnvOk(env) && Inv(env, s) && s.rec.status.Settling? && s.rec.bridgeRef.None?
    ensures Run(env, s, actions).rec.status.Settling?
  {
    RunKeeps(env, s, actions);
  }

  // ----- events -----

  /** No run announces two terminal statuses for one swap. */
  lemma OneTerminalEvent(env: Env, swap: Swap, actions: seq<Action>, i: nat, j: nat)
    requires EnvOk(env) && Fresh(swap) && SourceFits(env, swap.terms.kind)
    requires i < j < |Run(env, Start(swap), actions).events|
    ensures !Run(env, Start(swap), actions).events[i].swap.status.Terminal()
  {
    hide Run, RecOk, RecMoves;
    StartIsOk(env, swap);
    RunKeeps(env, Start(swap), actions);
    var events := Run(env, Start(swap), actions).events;
    assert events[..|events| - 1][i] == events[i];
  }

  // ----- submissions -----

  /** Acknowledged claim submissions number at most the events and accepted quotes handled. */
  lemma SubmissionsAreBounded(env: Env, swap: Swap, actions: seq<Action>)
    requires EnvOk(env) && Fresh(swap) && SourceFits(env, swap.terms.kind)
    ensures Run(env, Start(swap), actions).acks <= ClaimerCount(actions)
  {
    StartIsOk(env, swap);
    RunKeeps(env, Start(swap), actions);
  }

  // ----- the poll's pre-lock snapshot -----

  /** While a swap is `Settling` its claim transaction and bridge handle never change, so serving it
      from a listing of any age does what serving it from the current record would. */
  lemma StaleListingIsHarmless(env: Env, swap: Swap, actions: seq<Action>, k: nat)
    requires EnvOk(env) && Fresh(swap) && SourceFits(env, swap.terms.kind)
    requires var r := Run(env, Start(swap), actions);
             k < |r.polls| && r.polls[k].swap.status.Settling?
    ensures var r := Run(env, Start(swap), actions);
            var listed := r.polls[k];
            var current := listed.(swap := r.rec);
            && listed.swap.bridgeRef == r.rec.bridgeRef && listed.swap.claimTx == r.rec.claimTx
            && (if r.rec.status.Settling? then ServePoll(env, r, listed) == ServePoll(env, r, current)
                else r.rec.status.Completed? && ServePoll(env, r, listed).rec == r.rec
                     && ServePoll(env, r, listed).events == r.events)
  {
    hide Run;
    StartIsOk(env, swap);
    RunKeeps(env, Start(swap), actions);
  }

  // ----- the anchor of a classification -----

  /** A mempool event overwrites the lockup transaction of a claiming swap too. While the one it names is
      not mined, no read tells a claim of the lockup from a refund, whatever became of it. */
  lemma ForgedMempoolHidesTheSpend(env: Env, s: State, forged: Tx, t: nat)
    requires s.rec.status.Claiming? && env.lives(s.now)
    requires EnvOk(env) && AnswersFrom(env, t) && env.world(t).lockup.Spent() && forged !in env.world(t).receipts
    ensures var r := Step(env, s, Ws(WsUpdate("transaction.mempool", Some(forged), None)));
            r.rec.status.Claiming? && Classify(env, t, r.rec.lockupTx).0.Unknown?
  {
    hide Classify;
    var u := WsUpdate("transaction.mempool", Some(forged), None);
    assert KindOf(u.status) == Mempool by { assert |u.status| == 19; }
    VerdictIsDecisiveExactly(env, t, Some(forged));
  }

  // ----- settled events -----

  /** A settled event completes a direct swap without a decoded transfer exactly when neither hash nor
      call id is on record and one answered read says that the lockup is not there: not yet, not any
      more, or claimed. Whether it was claimed plays no part. */
  lemma SettledIsTrustedExactly(env: Env, s: State, u: WsUpdate)
    requires EnvOk(env) && Inv(env, s) && s.rec.terms.kind.Direct? && s.rec.status.Stage() <= 3
    requires KindOf(u.status).Settled?
    ensures var r := Step(env, s, Ws(u));
            (r.rec.status.Completed? && r.rec.delivered.None?)
            <==> (&& s.rec.claimTx.None? && s.rec.pendingCall.None?
                  && env.answers(s.now) && !env.world(s.now).lockup.Locked? && env.lives(s.now + 1))
  {
    hide PollReceipt, ResumePendingCall, CheckOnChainAndRetry, KindOf;
    StepKeeps(env, s, Ws(u));
    var s0 := Begin(s);
    if s.rec.claimTx.Some? || s.rec.pendingCall.Some? || LockRead(env, s.now) != Some(false) {
      SettledProves(env, s0, s.rec);
    }
  }

  /** Every other completion by such an event rests on a successful receipt that shows the transfer. */
  lemma SettledIsCheckedOtherwise(env: Env, s: State, u: WsUpdate)
    requires EnvOk(env) && Inv(env, s) && s.rec.terms.kind.Direct? && s.rec.status.Stage() <= 3
    requires KindOf(u.status).Settled?
    requires s.rec.claimTx.Some? || s.rec.pendingCall.Some? || LockRead(env, s.now) != Some(false)
    ensures var r := Step(env, s, Ws(u));
            r.rec.status.Completed? ==> r.rec.delivered.Some? && Backed(env, env.world(r.now), r.rec, r.rec.delivered)
  {
    hide Step;
    SettledIsTrustedExactly(env, s, u);
    StepKeeps(env, s, Ws(u));
  }
}
