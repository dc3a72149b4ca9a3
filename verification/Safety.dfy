/** What every handler keeps, and how a record may move, whatever the outside does. */
module Safety {
  import opened Wrappers
  import opened Models
  import opened LogScan
  import opened Chain
  import opened Ledger
  import opened Executor
  import opened Protocol

  // ----- evidence -----

  /** The recorded claim transaction succeeded and its logs decode to this amount and this handle. */
  ghost predicate Backed(env: Env, w: World, r: Swap, delivered: Option<nat>) {
    && r.claimTx.Some? && r.claimTx.value in w.receipts
    && w.receipts[r.claimTx.value].outcome.Succeeded?
    && env.source.Some?
    && var decoded := FirstDecoded(w.receipts[r.claimTx.value].logs, env.source.value);
       decoded.Some? && DeliveredAndRef(decoded.value, r.claimTx.value) == (delivered, r.bridgeRef)
  }

  /** What a record that says `Completed` shows for it. A direct one without a transfer shows nothing:
      how it can come about is a matter of the run that led there. */
  ghost predicate CompletionEvidence(env: Env, now: nat, r: Swap) {
    var w := env.world(now);
    match r.terms.kind
    case Direct =>
      && r.bridgeRef.None?
      && (|| (r.delivered.Some? && Backed(env, w, r, r.delivered))
          || (r.claimTx.None? && r.delivered.None?))
    case Oft =>
      r.bridgeRef.Some? && Backed(env, w, r, r.delivered) && r.bridgeRef.value in w.oftDelivered
    case Cctp =>
      && r.bridgeRef.Some? && Backed(env, w, r, None)
      && r.bridgeRef.value in w.attested && r.delivered == Some(w.attested[r.bridgeRef.value])
      && (r.bridgeRef.value in w.forwarded || r.bridgeRef.value in w.nonceUsed)
  }

  ghost predicate RecOk(env: Env, now: nat, r: Swap) {
    && (!r.status.PostClaim() ==> r.delivered.None? && r.bridgeRef.None?)
    && (r.status.Settling? ==>
          && !r.terms.kind.Direct?
          && (if r.bridgeRef.Some? then Backed(env, env.world(now), r, r.delivered) else r.delivered.None?))
    && (r.status.Completed? ==> CompletionEvidence(env, now, r))
  }

  // ----- movement -----

  /** How a stored record may change, over any stretch of a run. */
  predicate RecMoves(p: Swap, r: Swap) {
    && r.terms == p.terms
    && (p.status.Stage() <= r.status.Stage() || (p.status.Claiming? && r.status.TbtcLocked?))
    && (p.status.Terminal() ==> r == p)
    && (p.status.Settling? ==>
          && r.status.PostClaim()
          && r.claimTx == p.claimTx && r.bridgeRef == p.bridgeRef)
  }

  lemma MovesCompose(p: Swap, q: Swap, r: Swap)
    requires RecMoves(p, q) && RecMoves(q, r)
    ensures RecMoves(p, r)
  {
  }

  /** A terminal event is the last one ever emitted, and only for a terminal record. */
  predicate EventsOk(s: State) {
    && (!s.rec.status.Terminal() ==> NoTerminalEvent(s.events))
    && (|s.events| > 0 ==> NoTerminalEvent(s.events[..|s.events| - 1]))
  }

  predicate NoTerminalEvent(events: seq<Event>) {
    forall i :: 0 <= i < |events| ==> !events[i].swap.status.Terminal()
  }

  ghost predicate Inv(env: Env, s: State) {
    && SourceFits(env, s.rec.terms.kind)
    && RecOk(env, s.now, s.rec)
    && EventsOk(s)
    && forall k :: 0 <= k < |s.polls| ==> RecMoves(s.polls[k].swap, s.rec)
  }

  /** The lockup at `t` had not been claimed: it was still there, or had gone back to Boltz. */
  ghost predicate NotClaimedAt(env: Env, t: nat) {
    env.world(t).lockup.Locked? || env.world(t).lockup.Refunded?
  }

  /** A record only leaves `Claiming` other than forward if, meanwhile, the lockup was unclaimed. */
  ghost predicate LeavesClaimingSafely(env: Env, a: State, b: State) {
    a.rec.status.Claiming? && !b.rec.status.Claiming? && !b.rec.status.PostClaim() ==>
      exists t: nat :: a.now <= t < b.now && NotClaimedAt(env, t)
  }

  /** How the state may change over any stretch of a run. */
  ghost predicate Evolves(env: Env, a: State, b: State) {
    && a.now <= b.now
    && a.events <= b.events
    && a.acks <= b.acks
    && RecMoves(a.rec, b.rec)
    && LeavesClaimingSafely(env, a, b)
  }

  /** The same, inside one handler. */
  ghost predicate Handled(env: Env, a: State, b: State) {
    Evolves(env, a, b) && a.polls <= b.polls && (b.alive ==> a.alive)
  }

  lemma EvolvesCompose(env: Env, a: State, b: State, c: State)
    requires Evolves(env, a, b) && Evolves(env, b, c)
    ensures Evolves(env, a, c)
  {
    MovesCompose(a.rec, b.rec, c.rec);
  }

  // ----- evidence survives the passage of time -----

  lemma RecOkLater(env: Env, i: nat, j: nat, r: Swap)
    requires EnvOk(env) && i <= j && RecOk(env, i, r)
    ensures RecOk(env, j, r)
  {
    Growth(env, i, j);
  }

  lemma InvLater(env: Env, s: State, t: nat)
    requires EnvOk(env) && Inv(env, s) && s.now <= t
    ensures Inv(env, At(s, t)) && Handled(env, s, At(s, t))
  {
    RecOkLater(env, s.now, t, s.rec);
  }

  // ----- the effects -----

  /** Each effect, judged from the state `a` its handler (or an earlier part of it) started in. */
  lemma PutKeeps(env: Env, a: State, s: State, w: Swap)
    requires EnvOk(env) && Inv(env, s) && Handled(env, a, s)
    requires s.alive ==> RecOk(env, s.now, w) && RecMoves(s.rec, w)
    requires s.alive ==> LeavesClaimingSafely(env, a, s.(rec := w, now := s.now + 1))
    ensures var r := Put(env, s, w);
            && Inv(env, r) && Handled(env, a, r)
            && (r.alive ==> s.alive && r.rec == w) && (r.rec == s.rec || r.rec == w)
            && r.events == s.events && r.acks == s.acks && r.now == s.now + 1
  {
    var r := Put(env, s, w);
    RecOkLater(env, s.now, s.now + 1, r.rec);
    if r.alive {
      MovesCompose(a.rec, s.rec, w);
      forall k | 0 <= k < |r.polls| ensures RecMoves(r.polls[k].swap, r.rec) {
        if k < |s.polls| { MovesCompose(s.polls[k].swap, s.rec, w); }
      }
    }
  }

  lemma EmitKeeps(env: Env, a: State, s: State, e: Event)
    requires EnvOk(env) && Inv(env, s) && Handled(env, a, s)
    requires s.alive ==> NoTerminalEvent(s.events) && (e.swap.status.Terminal() ==> s.rec.status.Terminal())
    ensures var r := Emit(env, s, e);
            && Inv(env, r) && Handled(env, a, r)
            && r.rec == s.rec && r.acks == s.acks && r.now == s.now + 1 && (r.alive ==> s.alive)
  {
    hide RecOk, RecMoves, SourceFits;
    InvLater(env, s, s.now + 1);
    var r := Emit(env, s, e);
    assert r == At(s, s.now + 1).(alive := r.alive, events := r.events);
    if r.events != s.events {
      assert r.events == s.events + [e];
      assert r.events[..|r.events| - 1] == s.events;
    }
    assert EventsOk(r);
  }

  lemma UpdateKeeps(env: Env, a: State, s: State, swap: Swap, status: Status)
    requires EnvOk(env) && Inv(env, s) && Handled(env, a, s)
    requires var w := swap.(status := status);
             s.alive ==>
               && !s.rec.status.Terminal() && RecOk(env, s.now, w) && RecMoves(s.rec, w)
               && LeavesClaimingSafely(env, a, s.(rec := w, now := s.now + 1))
    ensures var r := UpdateStatus(env, s, swap, status);
            && Inv(env, r) && Handled(env, a, r)
            && (r.alive ==> s.alive && r.rec == swap.(status := status))
            && (r.rec == s.rec || r.rec == swap.(status := status)) && r.acks == s.acks && r.now == s.now + 2
  {
    var w := swap.(status := status);
    PutKeeps(env, a, s, w);
    EmitKeeps(env, a, Put(env, s, w), SwapUpdated(w));
  }

  // ----- the claim executor -----

  /** The executor only ever changes the stored row by recording a call id. */
  predicate OnlyCallChanged(a: State, b: State) {
    && b.rec == a.rec.(pendingCall := b.rec.pendingCall)
    && a.now <= b.now && (b.alive ==> a.alive)
    && b.events == a.events && a.obs <= b.obs && a.polls <= b.polls
    && (forall k :: |a.polls| <= k < |b.polls| ==> b.polls[k].swap == b.rec)
  }

  predicate Untouched(a: State, b: State) {
    OnlyCallChanged(a, b) && b.rec == a.rec && b.polls == a.polls && b.acks == a.acks
  }

  ghost predicate LockedAt(env: Env, t: nat) {
    env.world(t).lockup.Locked?
  }

  lemma {:induction false} VerifySees(env: Env, s: State, left: nat)
    ensures var (ok, r) := VerifyLockup(env, s, left);
            && Untouched(s, r)
            && (ok ==> s.now < r.now && LockedAt(env, r.now - 1))
    decreases left
  {
    if left > 0 && LockRead(env, s.now) != Some(true) {
      VerifySees(env, Later(Observe(s, LockSeen(s.now, LockRead(env, s.now)))), left - 1);
    }
  }

  /** Only an acknowledged submission writes, and then it is counted and, unless the process dies, remembered. */
  ghost predicate SubmissionAccounted(s: State, o: ClaimOutcome, r: State) {
    if o.Won? || o == Lost(Unconfirmed) then
      s.alive && r.acks == s.acks + 1 && (r.alive ==> r.rec.pendingCall.Some?)
    else
      r.acks == s.acks && r.rec == s.rec && r.polls == s.polls
  }

  lemma SubmitKeeps(env: Env, s: State)
    ensures var (o, r) := SubmitClaim(env, s);
            OnlyCallChanged(s, r) && SubmissionAccounted(s, o, r) && o != Lost(Drifted)
  {
  }

  lemma TryClaimKeeps(env: Env, s: State, skipDrift: bool)
    ensures var (o, r) := TryClaim(env, s, skipDrift);
            OnlyCallChanged(s, r) && SubmissionAccounted(s, o, r) && (skipDrift ==> o != Lost(Drifted))
  {
    hide SubmitClaim;
    SubmitKeeps(env, Later(Observe(s, Attempted(s.now))));
  }

  lemma {:induction false} AttemptsKeep(env: Env, s: State, skipDrift: bool, attempt: nat)
    requires attempt < MAX_CLAIM_RETRIES
    ensures var (o, r) := Attempts(env, s, skipDrift, attempt);
            OnlyCallChanged(s, r) && SubmissionAccounted(s, o, r) && (skipDrift ==> o != Lost(Drifted))
    decreases MAX_CLAIM_RETRIES - attempt
  {
    hide TryClaim, LockRead;
    TryClaimKeeps(env, s, skipDrift);
    var (o, s1) := TryClaim(env, s, skipDrift);
    if !(o.Won? || o.error.Drifted? || o.error.Unconfirmed?) {
      var answer := LockRead(env, s1.now);
      if answer != Some(false) && attempt + 1 < MAX_CLAIM_RETRIES {
        AttemptsKeep(env, Later(Observe(s1, LockSeen(s1.now, answer))), skipDrift, attempt + 1);
      }
    }
  }

  /** Nothing beyond the lock check happens unless the lockup was there to be claimed. */
  lemma ClaimKeeps(env: Env, s: State, timeoutHeight: nat, skipDrift: bool)
    ensures var (o, r) := ClaimAndSwap(env, s, timeoutHeight, skipDrift);
            && OnlyCallChanged(s, r) && SubmissionAccounted(s, o, r)
            && (skipDrift ==> o != Lost(Drifted))
            && (o != Lost(NotLocked) ==> exists t: nat :: s.now <= t < r.now && LockedAt(env, t))
  {
    VerifySees(env, s, LOCKUP_CHECK_MAX_ATTEMPTS);
    var (ok, s1) := VerifyLockup(env, s, LOCKUP_CHECK_MAX_ATTEMPTS);
    if ok && L1Read(env, s1.now).Some? {
      var enough := MarginOk(timeoutHeight, L1Read(env, s1.now).value);
      var s2 := Later(Observe(s1, MarginChecked(s1.now, enough)));
      if enough && env.answers(s2.now) {
        AttemptsKeep(env, Later(s2), skipDrift, 0);
      }
    }
  }

  lemma CallChangeKeeps(env: Env, a: State, b: State)
    requires EnvOk(env) && Inv(env, a) && OnlyCallChanged(a, b) && a.acks <= b.acks
    requires !a.rec.status.Terminal() || b.rec == a.rec
    ensures Inv(env, b) && Handled(env, a, b)
  {
    RecOkLater(env, a.now, b.now, a.rec);
    forall k | 0 <= k < |b.polls| ensures RecMoves(b.polls[k].swap, b.rec) {
      if k < |a.polls| { MovesCompose(a.polls[k].swap, a.rec, b.rec); }
    }
  }

  /** At most one submission was acknowledged, and unless the process died since, the row still
      holds the hash or the call id to find it by. */
  predicate OneClaim(s: State, r: State) {
    && r.acks <= s.acks + 1
    && (r.acks > s.acks && r.alive ==> r.rec.claimTx.Some? || r.rec.pendingCall.Some?)
  }

  /** A completion that came from reading a receipt leaves the transaction's hash on the record. */
  predicate Proven(s: State, r: State) {
    r.rec.status.Completed? && !s.rec.status.Completed? ==> r.rec.claimTx.Some?
  }

  /** The copy a claim starts from: the stored row, at most with a dead hash dropped. */
  predicate Claimable(s: State, swap: Swap) {
    s.alive ==>
      && swap.terms == s.rec.terms
      && s.rec.status.Stage() <= swap.status.Stage() <= 3
      && swap.delivered.None? && swap.bridgeRef.None?
  }

  lemma DoClaimKeeps(env: Env, s: State, swap: Swap, skipDrift: bool)
    requires EnvOk(env) && Inv(env, s) && Claimable(s, swap)
    ensures var r := DoClaim(env, s, swap, skipDrift);
            Inv(env, r) && Handled(env, s, r) && Proven(s, r) && OneClaim(s, r)
  {
    hide ClaimAndSwap, UpdateStatus, Put, Emit;
    var claiming := swap.(status := Claiming);
    UpdateKeeps(env, s, s, swap, Claiming);
    var s1 := UpdateStatus(env, s, swap, Claiming);
    ClaimKeeps(env, s1, swap.terms.timeoutHeight, skipDrift);
    var (o, s2) := ClaimAndSwap(env, s1, swap.terms.timeoutHeight, skipDrift);
    CallChangeKeeps(env, s1, s2);
    EvolvesCompose(env, s, s1, s2);
    match o {
      case Won(tx) =>
        PutKeeps(env, s, s2, claiming.(claimTx := Some(tx)));
      case Lost(Drifted) =>
        var reverted := claiming.(status := TbtcLocked);
        var t: nat :| s1.now <= t < s2.now && LockedAt(env, t);
        assert NotClaimedAt(env, t);
        PutKeeps(env, s, s2, reverted);
        EmitKeeps(env, s, Put(env, s2, reverted), QuoteDegraded(reverted));
      case Lost(_) =>
    }
  }

  // ----- receipts -----

  /** A claim that is still open and recorded under `tx`. */
  predicate OpenWith(s: State, tx: Tx) {
    s.alive ==> s.rec.status.Stage() <= 3 && s.rec.claimTx == Some(tx)
  }

  /** What a handler's `true` means: nothing is left for WebSocket events to do. */
  predicate Reached(s: State, reached: bool) {
    reached && s.alive ==> s.rec.status.Terminal() || s.rec.status.Settling?
  }

  lemma ApplyKeeps(env: Env, s: State, tx: Tx, receipt: Receipt)
    requires EnvOk(env) && Inv(env, s) && OpenWith(s, tx)
    requires tx in env.world(s.now).receipts && env.world(s.now).receipts[tx] == receipt
    requires receipt.outcome.Succeeded?
    ensures var (reached, r) := ApplySuccessfulReceipt(env, s, tx, receipt);
            Inv(env, r) && Handled(env, s, r) && Proven(s, r) && r.acks == s.acks && Reached(r, reached)
  {
    var swap := WithDelivery(env, s.rec, receipt, tx);
    if HasEvidence(swap) && s.alive {
      if env.source.Some? && FirstDecoded(receipt.logs, env.source.value).Some? {
        DecodedShape(receipt.logs, env.source.value);
      }
      UpdateKeeps(env, s, s, swap, PostClaimStatus(swap.terms.kind));
    } else if HasEvidence(swap) {
      UpdateKeeps(env, s, s, swap, PostClaimStatus(swap.terms.kind));
    }
  }

  lemma CheckReceiptKeeps(env: Env, s: State, tx: Tx)
    requires EnvOk(env) && Inv(env, s) && OpenWith(s, tx)
    ensures var (o, r) := CheckReceiptOnce(env, s, tx);
            && Inv(env, r) && Handled(env, s, r) && Proven(s, r) && r.acks == s.acks
            && (o.Advanced? ==> Reached(r, o.reached))
            && (!o.Advanced? ==> r == Later(s))
  {
    hide ApplySuccessfulReceipt, Inv, Evolves;
    InvLater(env, s, s.now + 1);
    Growth(env, s.now, s.now + 1);
    var read := ReceiptRead(env, s.now, tx);
    if read.Some? && read.value.Some? && read.value.value.outcome.Succeeded? {
      ApplyKeeps(env, Later(s), tx, read.value.value);
      EvolvesCompose(env, s, Later(s), CheckReceiptOnce(env, s, tx).1);
    }
  }

  lemma AdvanceKeeps(env: Env, s: State, tx: Tx)
    requires EnvOk(env) && Inv(env, s)
    ensures var (reached, r) := AdvanceViaWinningClaim(env, s, tx);
            Inv(env, r) && Handled(env, s, r) && Proven(s, r) && r.acks == s.acks && Reached(r, reached)
  {
    if !s.rec.status.Terminal() && !s.rec.status.Settling? {
      var row := s.rec.(claimTx := Some(tx), pendingCall := None);
      PutKeeps(env, s, s, row);
      CheckReceiptKeeps(env, Put(env, s, row), tx);
    }
  }

  // ----- recovery -----

  /** The handler's copy is the stored row of a claim not yet past `Claiming`. */
  predicate Copied(s: State, swap: Swap) {
    s.alive ==> swap == s.rec && swap.status.Stage() <= 3
  }

  lemma FinalizeRefundKeeps(env: Env, s: State, t: nat, swap: Swap, status: Status)
    requires EnvOk(env) && Inv(env, s) && Copied(s, swap)
    requires s.now < t && env.world(t - 1).lockup.Refunded? && (status.Failed? || status.Expired?)
    ensures var r := UpdateStatus(env, At(s, t), swap, status);
            Inv(env, r) && Handled(env, s, r) && Proven(s, r) && r.acks == s.acks && Reached(r, true)
  {
    InvLater(env, s, t);
    assert NotClaimedAt(env, t - 1);
    UpdateKeeps(env, s, At(s, t), swap, status);
  }

  /** The common tail: the lockup read as spent, so act on why. */
  lemma SpentKeeps(env: Env, s: State, t0: nat, swap: Swap, status: Status)
    requires EnvOk(env) && Inv(env, s) && Copied(s, swap) && s.now < t0
    requires status.Failed? || status.Expired?
    ensures var (verdict, t) := Classify(env, t0, swap.lockupTx);
            && s.now < t
            && (verdict.ByRefund? ==>
                  var r := UpdateStatus(env, At(s, t), swap, status);
                  Inv(env, r) && Handled(env, s, r) && Proven(s, r) && r.acks == s.acks && Reached(r, true))
            && (verdict.ByClaim? ==>
                  var (reached, r) := AdvanceViaWinningClaim(env, At(s, t), verdict.tx);
                  Inv(env, r) && Handled(env, s, r) && Proven(s, r) && r.acks == s.acks && Reached(r, reached))
            && Inv(env, At(s, t)) && Handled(env, s, At(s, t))
  {
    hide AdvanceViaWinningClaim, UpdateStatus, Classify;
    VerdictIsSound(env, t0, swap.lockupTx);
    var (verdict, t) := Classify(env, t0, swap.lockupTx);
    InvLater(env, s, t);
    if verdict.ByRefund? { FinalizeRefundKeeps(env, s, t, swap, status); }
    if verdict.ByClaim? {
      AdvanceKeeps(env, At(s, t), verdict.tx);
      EvolvesCompose(env, s, At(s, t), AdvanceViaWinningClaim(env, At(s, t), verdict.tx).1);
    }
  }

  lemma RetryKeeps(env: Env, s: State, swap: Swap)
    requires EnvOk(env) && Inv(env, s) && Copied(s, swap)
    ensures var r := CheckOnChainAndRetry(env, s, swap);
            Inv(env, r) && Handled(env, s, r) && Proven(s, r) && OneClaim(s, r)
  {
    hide DoClaim, AdvanceViaWinningClaim, UpdateStatus, Classify, Put;
    InvLater(env, s, s.now + 1);
    match LockRead(env, s.now) {
      case None =>
      case Some(true) =>
        var reset := swap.(status := TbtcLocked);
        assert NotClaimedAt(env, s.now);
        PutKeeps(env, s, Later(s), reset);
        var s1 := Put(env, Later(s), reset);
        DoClaimKeeps(env, s1, reset, false);
        EvolvesCompose(env, s, s1, DoClaim(env, s1, reset, false));
      case Some(false) =>
        SpentKeeps(env, s, s.now + 1, swap, Failed("Lockup refunded"));
    }
  }

  lemma RecoverRevertedKeeps(env: Env, s: State, tx: Tx)
    requires EnvOk(env) && Inv(env, s) && OpenWith(s, tx)
    ensures var (reached, r) := RecoverFromReverted(env, s);
            Inv(env, r) && Handled(env, s, r) && Proven(s, r) && OneClaim(s, r) && Reached(r, reached)
  {
    hide DoClaim, AdvanceViaWinningClaim, UpdateStatus, Classify;
    InvLater(env, s, s.now + 1);
    match LockRead(env, s.now) {
      case None =>
      case Some(true) =>
        var swap := s.rec.(claimTx := None);
        DoClaimKeeps(env, Later(s), swap, false);
        EvolvesCompose(env, s, Later(s), DoClaim(env, Later(s), swap, false));
      case Some(false) =>
        SpentKeeps(env, s, s.now + 1, s.rec, Failed("Lockup refunded"));
    }
  }

  lemma {:induction false} PollKeeps(env: Env, s: State, tx: Tx, left: nat)
    requires EnvOk(env) && Inv(env, s) && OpenWith(s, tx)
    ensures var (reached, r) := PollReceipt(env, s, tx, left);
            Inv(env, r) && Handled(env, s, r) && Proven(s, r) && OneClaim(s, r) && Reached(r, reached)
    decreases left
  {
    if left > 0 {
      hide CheckReceiptOnce, RecoverFromReverted;
      CheckReceiptKeeps(env, s, tx);
      var (outcome, s1) := CheckReceiptOnce(env, s, tx);
      match outcome {
        case Advanced(_) =>
        case WasReverted =>
          RecoverRevertedKeeps(env, s1, tx);
          EvolvesCompose(env, s, s1, RecoverFromReverted(env, s1).1);
        case NotMined =>
          PollKeeps(env, s1, tx, left - 1);
          EvolvesCompose(env, s, s1, PollReceipt(env, s1, tx, left - 1).1);
      }
    }
  }

  lemma ResumeKeeps(env: Env, s: State, swap: Swap)
    requires EnvOk(env) && Inv(env, s) && Copied(s, swap)
    ensures var (reached, r) := ResumePendingCall(env, s, swap);
            Inv(env, r) && Handled(env, s, r) && Proven(s, r) && OneClaim(s, r) && Reached(r, reached)
  {
    hide PollReceipt, CheckOnChainAndRetry, Put;
    var s1 := Later(s);
    InvLater(env, s, s.now + 1);
    if env.answers(s.now) {
      var tx := env.minedTx(s.now);
      var row := s1.rec.(claimTx := Some(tx), pendingCall := None);
      PutKeeps(env, s, s1, row);
      var s2 := Put(env, s1, row);
      PollKeeps(env, s2, tx, RECEIPT_POLL_MAX_ATTEMPTS);
      EvolvesCompose(env, s, s2, PollReceipt(env, s2, tx, RECEIPT_POLL_MAX_ATTEMPTS).1);
    } else {
      RetryKeeps(env, s1, swap);
      EvolvesCompose(env, s, s1, CheckOnChainAndRetry(env, s1, swap));
    }
  }

  lemma ClaimingResumeKeeps(env: Env, s: State, swap: Swap)
    requires EnvOk(env) && Inv(env, s) && Copied(s, swap)
    ensures var r := HandleClaimingResume(env, s, swap);
            Inv(env, r) && Handled(env, s, r) && Proven(s, r) && OneClaim(s, r)
  {
    hide PollReceipt, ResumePendingCall, CheckOnChainAndRetry;
    if swap.claimTx.Some? { PollKeeps(env, s, swap.claimTx.value, RECEIPT_POLL_MAX_ATTEMPTS); }
    else if swap.pendingCall.Some? { ResumeKeeps(env, s, swap); }
    else { RetryKeeps(env, s, swap); }
  }

  // ----- WebSocket events -----

  lemma SettledKeeps(env: Env, s: State, swap: Swap)
    requires EnvOk(env) && Inv(env, s) && Copied(s, swap)
    ensures var r := HandleSettled(env, s, swap);
            Inv(env, r) && Handled(env, s, r) && OneClaim(s, r)
  {
    hide PollReceipt, ResumePendingCall, CheckOnChainAndRetry, UpdateStatus;
    InvLater(env, s, s.now + 1);
    if swap.claimTx.Some? { PollKeeps(env, s, swap.claimTx.value, RECEIPT_POLL_MAX_ATTEMPTS); }
    else if swap.pendingCall.Some? { ResumeKeeps(env, s, swap); }
    else {
      match LockRead(env, s.now) {
        case None =>
        case Some(true) =>
          RetryKeeps(env, Later(s), swap);
          EvolvesCompose(env, s, Later(s), CheckOnChainAndRetry(env, Later(s), swap));
        case Some(false) =>
          UpdateKeeps(env, s, Later(s), swap, PostClaimStatus(swap.terms.kind));
      }
    }
  }

  lemma ConfirmedKeeps(env: Env, s: State, swap: Swap, tx: Option<Tx>)
    requires EnvOk(env) && Inv(env, s) && Copied(s, swap)
    ensures var r := HandleConfirmed(env, s, swap, tx);
            Inv(env, r) && Handled(env, s, r) && Proven(s, r) && OneClaim(s, r)
  {
    hide HandleClaimingResume, DoClaim, UpdateStatus;
    if swap.status.Claiming? {
      ClaimingResumeKeeps(env, s, swap);
    } else {
      var locked := swap.(lockupTx := if tx.Some? then tx else swap.lockupTx);
      UpdateKeeps(env, s, s, locked, TbtcLocked);
      var s1 := UpdateStatus(env, s, locked, TbtcLocked);
      DoClaimKeeps(env, s1, locked.(status := TbtcLocked), false);
      EvolvesCompose(env, s, s1, DoClaim(env, s1, locked.(status := TbtcLocked), false));
    }
  }

  lemma TerminalEventKeeps(env: Env, s: State, swap: Swap, status: Status)
    requires EnvOk(env) && Inv(env, s) && Copied(s, swap)
    requires status.Failed? || status.Expired?
    ensures var r := HandleTerminalEvent(env, s, swap, status);
            Inv(env, r) && Handled(env, s, r) && Proven(s, r) && r.acks == s.acks
  {
    hide AdvanceViaWinningClaim, UpdateStatus, Classify;
    InvLater(env, s, s.now + 1);
    if !swap.status.Claiming? {
      UpdateKeeps(env, s, s, swap, status);
    } else {
      match LockRead(env, s.now) {
        case None =>
        case Some(true) =>
          assert NotClaimedAt(env, s.now);
          UpdateKeeps(env, s, Later(s), swap, status);
        case Some(false) =>
          SpentKeeps(env, s, s.now + 1, swap, status);
      }
    }
  }

  lemma WsKeeps(env: Env, s: State, u: WsUpdate)
    requires EnvOk(env) && Inv(env, s) && s.alive
    ensures var r := HandleWsUpdate(env, s, u);
            Inv(env, r) && Handled(env, s, r) && OneClaim(s, r)
  {
    hide UpdateStatus, HandleConfirmed, HandleSettled, HandleTerminalEvent, KindOf, Put, Emit;
    var swap := s.rec;
    var kind := KindOf(u.status);
    if !swap.status.Terminal() && !swap.status.Settling? && !Stale(kind, swap.status) {
      match kind {
        case StillCreated =>
        case InvoicePaidMsg => UpdateKeeps(env, s, s, swap, InvoicePaid);
        case Mempool =>
          var seen := swap.(lockupTx := u.tx);
          PutKeeps(env, s, s, seen);
          EmitKeeps(env, s, Put(env, s, seen), SwapUpdated(seen));
        case Confirmed => ConfirmedKeeps(env, s, swap, u.tx);
        case Settled => SettledKeeps(env, s, swap);
        case Expiry => TerminalEventKeeps(env, s, swap, Expired);
        case Failure => TerminalEventKeeps(env, s, swap, Failed(FailureReason(u)));
        case Other =>
      }
    }
  }

  // ----- the background pass and the callers -----

  lemma RecoverClaimingKeeps(env: Env, s: State, l1: Option<nat>)
    requires EnvOk(env) && Inv(env, s) && s.alive && s.rec.status.Claiming? && s.rec.claimTx.Some?
    ensures var r := RecoverClaiming(env, s, s.rec, s.rec.claimTx.value, l1);
            Inv(env, r) && Handled(env, s, r) && Proven(s, r) && r.acks == s.acks
  {
    hide CheckReceiptOnce, AdvanceViaWinningClaim, UpdateStatus, Classify;
    var tx := s.rec.claimTx.value;
    CheckReceiptKeeps(env, s, tx);
    var (outcome, s1) := CheckReceiptOnce(env, s, tx);
    if !outcome.Advanced? {
      InvLater(env, s, s1.now + 1);
      if LockRead(env, s1.now) == Some(false) {
        SpentKeeps(env, s, s1.now + 1, s.rec, Failed("Claim transaction never mined; lockup refunded"));
      }
    }
  }

  /** A pass may finalize only with the amount its evidence gives. */
  lemma FinalizeKeeps(env: Env, a: State, s: State, amount: Option<nat>)
    requires EnvOk(env) && Inv(env, s) && Handled(env, a, s)
    requires s.rec.status.Settling? ==>
               var row := if amount.Some? then s.rec.(delivered := amount) else s.rec;
               RecOk(env, s.now, row.(status := Completed))
    ensures var r := FinalizeCompleted(env, s, amount);
            Inv(env, r) && Handled(env, a, r) && r.acks == s.acks
  {
    if s.rec.status.Settling? {
      var row := if amount.Some? then s.rec.(delivered := amount) else s.rec;
      UpdateKeeps(env, a, s, row, Completed);
    }
  }

  lemma SettlingCopy(p: Swap, r: Swap)
    requires RecMoves(p, r) && p.status.Settling?
    ensures r.terms == p.terms && r.bridgeRef == p.bridgeRef
  {
  }

  /** What the bridges' own reports add to a settling record's receipt. */
  lemma BridgeEvidence(env: Env, s: State, t: nat, amount: Option<nat>)
    requires EnvOk(env) && Inv(env, s) && s.rec.status.Settling? && s.rec.bridgeRef.Some? && s.now <= t
    requires var r, w := s.rec.bridgeRef.value, env.world(t);
             match s.rec.terms.kind
             case Direct => false
             case Oft => amount.None? && r in w.oftDelivered
             case Cctp => && r in w.attested && amount == Some(w.attested[r])
                          && (r in w.forwarded || r in w.nonceUsed)
    ensures var row := if amount.Some? then s.rec.(delivered := amount) else s.rec;
            RecOk(env, t, row.(status := Completed))
  {
    RecOkLater(env, s.now, t, s.rec);
    DecodedShape(env.world(t).receipts[s.rec.claimTx.value].logs, env.source.value);
  }

  lemma NotDirectSettling(env: Env, s: State)
    requires Inv(env, s)
    ensures s.rec.status.Settling? ==> !s.rec.terms.kind.Direct?
  {
  }

  lemma ConfirmKeeps(env: Env, s: State, snapshot: Swap)
    requires EnvOk(env) && Inv(env, s) && RecMoves(snapshot, s.rec) && snapshot.status.Settling?
    ensures var r := ConfirmDelivery(env, s, snapshot);
            Inv(env, r) && Handled(env, s, r) && r.acks == s.acks
  {
    hide FinalizeCompleted, RecOk, RecMoves, Inv, Handled;
    SettlingCopy(snapshot, s.rec);
    NotDirectSettling(env, s);
    InvLater(env, s, s.now);
    InvLater(env, s, s.now + 1);
    InvLater(env, s, s.now + 2);
    Growth(env, s.now, s.now + 1);
    Growth(env, s.now, s.now + 2);
    Growth(env, s.now + 1, s.now + 2);
    if snapshot.bridgeRef.Some? {
      var r := snapshot.bridgeRef.value;
      var amount := AttestedAmount(env.world(s.now), r);
      match snapshot.terms.kind {
        case Direct => FinalizeKeeps(env, s, At(s, s.now), None);
        case Oft =>
          if env.answers(s.now) && r in env.world(s.now).oftDelivered {
            if s.rec.status.Settling? { BridgeEvidence(env, s, s.now + 1, None); }
            FinalizeKeeps(env, s, Later(s), None);
          }
        case Cctp =>
          if amount.Some? && env.answers(s.now) {
            if r in env.world(s.now).forwarded {
              if s.rec.status.Settling? { BridgeEvidence(env, s, s.now + 1, amount); }
              FinalizeKeeps(env, s, Later(s), amount);
            } else if env.answers(s.now + 1) && r in env.world(s.now + 1).nonceUsed {
              if s.rec.status.Settling? { BridgeEvidence(env, s, s.now + 2, amount); }
              FinalizeKeeps(env, s, At(s, s.now + 2), amount);
            }
          }
      }
    }
  }

  lemma AcceptKeeps(env: Env, s: State)
    requires EnvOk(env) && Inv(env, s)
    ensures var r := AcceptDegradedQuote(env, s).1;
            Inv(env, r) && Handled(env, s, r) && Proven(s, r) && OneClaim(s, r)
  {
    hide ClaimAndSwap, UpdateStatus, Put;
    if s.rec.status.TbtcLocked? || s.rec.status.Claiming? {
      UpdateKeeps(env, s, s, s.rec, Claiming);
      var s1 := UpdateStatus(env, s, s.rec, Claiming);
      ClaimKeeps(env, s1, s.rec.terms.timeoutHeight, true);
      var (o, s2) := ClaimAndSwap(env, s1, s.rec.terms.timeoutHeight, true);
      CallChangeKeeps(env, s1, s2);
      EvolvesCompose(env, s, s1, s2);
      if o.Won? {
        PutKeeps(env, s, s2, s.rec.(status := Claiming, claimTx := Some(o.tx)));
      }
    }
  }

  lemma SlippageKeeps(env: Env, s: State, bps: nat)
    requires EnvOk(env) && Inv(env, s)
    ensures var r := UpdateSlippage(env, s, bps).1;
            && Inv(env, r) && Handled(env, s, r) && r.acks == s.acks
            && r.events == s.events && r.rec == s.rec.(slippageBps := r.rec.slippageBps)
  {
    if MIN_SLIPPAGE_BPS <= bps <= MAX_SLIPPAGE_BPS && !s.rec.status.Terminal() {
      PutKeeps(env, s, s, s.rec.(slippageBps := bps));
    }
  }

  lemma ServeKeeps(env: Env, s: State, snapshot: Snapshot)
    requires EnvOk(env) && Inv(env, s) && s.alive && RecMoves(snapshot.swap, s.rec)
    ensures var r := ServePoll(env, s, snapshot);
            Inv(env, r) && Handled(env, s, r) && r.acks == s.acks
  {
    hide ConfirmDelivery, RecoverClaiming;
    if snapshot.swap.status.Settling? {
      ConfirmKeeps(env, s, snapshot.swap);
    } else if s.rec.status.Claiming? && s.rec.claimTx.Some? {
      RecoverClaimingKeeps(env, s, snapshot.l1);
    }
  }

  /** The handlers that may claim: a WebSocket event and an accepted quote. Ticks never do. */
  function Claimers(a: Action): nat {
    if a.Ws? || a.Accept? then 1 else 0
  }

  lemma StepKeeps(env: Env, s: State, a: Action)
    requires EnvOk(env) && Inv(env, s)
    ensures var r := Step(env, s, a);
            && Inv(env, r) && Evolves(env, s, r)
            && r.acks <= s.acks + Claimers(a)
            && OneClaim(s, r)
  {
    hide HandleWsUpdate, ServePoll, AcceptDegradedQuote, UpdateSlippage;
    var s0 := Begin(s);
    match a {
      case Ws(u) => WsKeeps(env, s0, u);
      case List(_) => InvLater(env, s0, s0.now + 1);
      case Serve(k) => if k < |s0.polls| { ServeKeeps(env, s0, s0.polls[k]); }
      case Accept => AcceptKeeps(env, s0);
      case Slippage(bps) => SlippageKeeps(env, s0, bps);
      case Wait(n) => InvLater(env, s0, s0.now + n);
    }
  }
}
