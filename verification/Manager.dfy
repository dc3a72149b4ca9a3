/** The swap manager's handlers over a shared store (swap/manager.rs, swap/reverse.rs, lib.rs): each
    one, run under its swap's lock, does exactly what the protocol specifies and touches no other row. */
module Manager {
  import opened Wrappers
  import opened Models
  import opened LogScan
  import opened Chain
  import opened Ledger
  import opened Executor
  import opened Protocol
  import opened Store
  import Safety
  import Runs
  import Reveal

  class SwapManager {
    const store: MemoryBoltzStorage
    const env: Env
    const id: string
    var now: nat
    var alive: bool
    var events: seq<Event>
    var obs: seq<Obs>
    var acks: nat
    var polls: seq<Snapshot>

    ghost predicate Valid()
      reads this, store
    {
      id in store.swaps && store.swaps[id].terms.id == id
    }

    ghost function View(): State
      requires Valid()
      reads this, store
    {
      State(store.swaps[id], now, alive, events, obs, acks, polls)
    }

    /** No other row is touched. */
    twostate predicate OnlyMine()
      reads this, store
    {
      Valid() && store.swaps - {id} == old(store.swaps) - {id}
    }

    /** A manager for one freshly created swap, as `create_reverse_swap` persists it. */
    constructor (store: MemoryBoltzStorage, env: Env, swap: Swap)
      modifies store`swaps
      ensures this.store == store && this.env == env && this.id == swap.terms.id
      ensures Valid() && View() == Start(swap)
      ensures Fresh(swap) && SourceFits(env, swap.terms.kind) ==> Safety.Inv(env, View())
      ensures store.swaps == old(store.swaps)[swap.terms.id := swap]
    {
      this.store, this.env, this.id := store, env, swap.terms.id;
      now, alive, events, obs, acks, polls := 0, true, [], [], 0, [];
      new;
      store.UpsertSwap(swap);
    }

    // ----- effects -----

    method Upsert(swap: Swap)
      requires Valid() && swap.terms.id == id
      modifies this, store`swaps
      ensures OnlyMine() && View() == Put(env, old(View()), swap)
    {
      alive := alive && env.lives(now);
      now := now + 1;
      if alive {
        polls := polls + Overheard(env, now - 1, swap);
        store.UpsertSwap(swap);
        assert store.swaps - {id} == old(store.swaps) - {id};
      }
    }

    method Announce(event: Event)
      requires Valid()
      modifies this
      ensures OnlyMine() && View() == Emit(env, old(View()), event)
    {
      alive := alive && env.lives(now);
      now := now + 1;
      if alive { events := events + [event]; }
    }

    method Note(o: Obs)
      requires Valid()
      modifies this`obs
      ensures OnlyMine() && View() == Observe(old(View()), o)
    {
      if alive { obs := obs + [o]; }
    }

    method Current() returns (swap: Swap)
      requires Valid()
      ensures swap == View().rec
    {
      var row := store.GetSwap(id);
      swap := row.value;
    }

    method UpdateSwapStatus(swap: Swap, status: Status) returns (updated: Swap)
      requires Valid() && swap.terms.id == id
      modifies this, store`swaps
      ensures OnlyMine() && View() == UpdateStatus(env, old(View()), swap, status)
      ensures updated == swap.(status := status)
    {
      updated := swap.(status := status);
      Upsert(updated);
      Announce(SwapUpdated(updated));
    }

    // ----- reads -----

    method IsStillLocked() returns (answer: Option<bool>)
      requires Valid()
      modifies this`now
      ensures OnlyMine() && View() == Later(old(View())) && answer == LockRead(env, old(now))
    {
      answer := LockRead(env, now);
      now := now + 1;
    }

    method ResolveBlockRange(lockupTx: Option<Tx>) returns (range: Option<Option<(nat, nat)>>)
      requires Valid()
      modifies this`now
      ensures OnlyMine() && (range, now) == BlockRange(env, old(now), lockupTx)
      ensures View() == At(old(View()), now)
    {
      if lockupTx.None? { return Some(None); }
      var read := ReceiptRead(env, now, lockupTx.value);
      now := now + 1;
      if read.None? { return None; }
      if read.value.None? { return Some(None); }
      var block := read.value.value.block;
      if block.None? { return Some(None); }
      var latest := L2Read(env, now);
      now := now + 1;
      if latest.None? { return None; }
      var to := if latest.value < block.value then block.value else latest.value;
      return Some(Some((block.value, to)));
    }

    method ClassifySpentLockup(lockupTx: Option<Tx>) returns (verdict: Verdict)
      requires Valid()
      modifies this`now
      ensures OnlyMine() && (verdict, now) == Classify(env, old(now), lockupTx)
      ensures View() == At(old(View()), now)
    {
      var range := ResolveBlockRange(lockupTx);
      if range.None? { return Unreadable; }
      if range.value.None? { return Unknown; }
      var (from, to) := range.value.value;
      var claims := ClaimLogRead(env, now, from, to);
      now := now + 1;
      if claims.None? { return Unreadable; }
      if claims.value.Some? { return ByClaim(claims.value.value); }
      var refunds := RefundLogRead(env, now, from, to);
      now := now + 1;
      if refunds.None? { return Unreadable; }
      return if refunds.value then ByRefund else Unknown;
    }

    // ----- the claim executor -----

    method VerifyLockupOnChain() returns (verified: bool)
      requires Valid()
      modifies this
      ensures OnlyMine() && (verified, View()) == VerifyLockup(env, old(View()), LOCKUP_CHECK_MAX_ATTEMPTS)
    {
      verified := false;
      var attempt := 0;
      while attempt < LOCKUP_CHECK_MAX_ATTEMPTS
        invariant 0 <= attempt <= LOCKUP_CHECK_MAX_ATTEMPTS && !verified && OnlyMine()
        invariant VerifyLockup(env, old(View()), LOCKUP_CHECK_MAX_ATTEMPTS)
                  == VerifyLockup(env, View(), LOCKUP_CHECK_MAX_ATTEMPTS - attempt)
      {
        var at := now;
        Note(LockSeen(at, LockRead(env, at)));
        var answer := IsStillLocked();
        if answer == Some(true) {
          verified := true;
          break;
        }
        attempt := attempt + 1;
      }
    }

    method PersistPendingCallId(call: CallId)
      requires Valid()
      modifies this, store`swaps
      ensures OnlyMine() && View() == PersistCall(env, old(View()), call)
    {
      var row := Current();
      Upsert(row.(pendingCall := Some(call)));
    }

    method SubmitToSponsor() returns (outcome: ClaimOutcome)
      requires Valid()
      modifies this, store`swaps
      ensures OnlyMine() && (outcome, View()) == SubmitClaim(env, old(View()))
    {
      hide PersistCall;
      alive := alive && env.lives(now);
      var at := now;
      var acknowledged := alive && env.answers(at);
      Note(Submitted(at, acknowledged));
      now := now + 1;
      if !acknowledged { return Lost(Rejected); }
      acks := acks + 1;
      PersistPendingCallId(env.callId(at));
      var polled := now;
      now := now + 1;
      return if env.answers(polled) then Won(env.minedTx(polled)) else Lost(Unconfirmed);
    }

    method TryClaimOnce(skipDrift: bool) returns (outcome: ClaimOutcome)
      requires Valid()
      modifies this, store`swaps
      ensures OnlyMine() && (outcome, View()) == TryClaim(env, old(View()), skipDrift)
    {
      var at := now;
      Note(Attempted(at));
      now := now + 1;
      match env.attempt(at) {
        case Blocked => return Lost(Rejected);
        case QuoteDrifted =>
          if !skipDrift { return Lost(Drifted); }
          outcome := SubmitToSponsor();
        case Ready =>
          outcome := SubmitToSponsor();
      }
    }

    /** The retry loop only leaves through a return: its end is unreachable. */
    method AttemptClaims(skipDrift: bool) returns (outcome: ClaimOutcome)
      requires Valid()
      modifies this, store`swaps
      ensures OnlyMine() && (outcome, View()) == Attempts(env, old(View()), skipDrift, 0)
    {
      hide TryClaim, LockRead;
      var attempt := 0;
      while attempt < MAX_CLAIM_RETRIES
        invariant 0 <= attempt < MAX_CLAIM_RETRIES && OnlyMine()
        invariant Attempts(env, old(View()), skipDrift, 0) == Attempts(env, View(), skipDrift, attempt)
      {
        outcome := TryClaimOnce(skipDrift);
        if outcome.Won? { return; }
        if outcome.error.Drifted? || outcome.error.Unconfirmed? { return; }
        var at := now;
        Note(LockSeen(at, LockRead(env, at)));
        var answer := IsStillLocked();
        if answer == Some(false) { return; }
        if attempt >= MAX_CLAIM_RETRIES - 1 { return; }
        attempt := attempt + 1;
      }
      assert false;
    }

    method ExecuteClaim(timeoutHeight: nat, skipDrift: bool) returns (outcome: ClaimOutcome)
      requires Valid()
      modifies this, store`swaps
      ensures OnlyMine() && (outcome, View()) == ClaimAndSwap(env, old(View()), timeoutHeight, skipDrift)
    {
      hide Attempts, VerifyLockup;
      var verified := VerifyLockupOnChain();
      if !verified { return Lost(NotLocked); }
      var at := now;
      var l1 := L1Read(env, at);
      if l1.None? {
        now := now + 1;
        return Lost(NoMargin);
      }
      var enough := MarginOk(timeoutHeight, l1.value);
      Note(MarginChecked(at, enough));
      now := now + 1;
      if !enough { return Lost(NoMargin); }
      var ready := env.answers(now);
      now := now + 1;
      if !ready { return Lost(SetupFailed); }
      outcome := AttemptClaims(skipDrift);
    }

    // ----- receipts -----

    method ApplyReceipt(tx: Tx, receipt: Receipt) returns (reached: bool)
      requires Valid()
      modifies this, store`swaps
      ensures OnlyMine() && (reached, View()) == ApplySuccessfulReceipt(env, old(View()), tx, receipt)
    {
      var swap := Current();
      if env.source.Some? {
        var decoded := DecodeDelivered(receipt.logs, env.source.value);
        if decoded.Some? {
          var (delivered, bridgeRef) := DeliveredAndRef(decoded.value, tx);
          swap := swap.(delivered := delivered, bridgeRef := bridgeRef);
        }
      }
      if !HasEvidence(swap) { return false; }
      var _ := UpdateSwapStatus(swap, PostClaimStatus(swap.terms.kind));
      return true;
    }

    method CheckReceipt(tx: Tx) returns (outcome: ReceiptOutcome)
      requires Valid()
      modifies this, store`swaps
      ensures OnlyMine() && (outcome, View()) == CheckReceiptOnce(env, old(View()), tx)
    {
      hide ApplySuccessfulReceipt;
      var read := ReceiptRead(env, now, tx);
      now := now + 1;
      if read.None? || read.value.None? { return NotMined; }
      var receipt := read.value.value;
      if receipt.outcome.Succeeded? {
        var reached := ApplyReceipt(tx, receipt);
        return Advanced(reached);
      }
      return if receipt.outcome.Reverted? then WasReverted else NotMined;
    }

    method AdvanceViaWinner(tx: Tx) returns (reached: bool)
      requires Valid()
      modifies this, store`swaps
      ensures OnlyMine() && (reached, View()) == AdvanceViaWinningClaim(env, old(View()), tx)
    {
      hide CheckReceiptOnce;
      var swap := Current();
      if swap.status.Terminal() || swap.status.Settling? { return true; }
      Upsert(swap.(claimTx := Some(tx), pendingCall := None));
      var outcome := CheckReceipt(tx);
      return outcome.Advanced? && outcome.reached;
    }

    // ----- claiming and recovery -----

    method Claim(swap0: Swap, skipDrift: bool)
      requires Valid() && swap0.terms.id == id
      modifies this, store`swaps
      ensures OnlyMine() && View() == DoClaim(env, old(View()), swap0, skipDrift)
    {
      hide ClaimAndSwap, UpdateStatus, Put, Emit;
      var swap := UpdateSwapStatus(swap0, Claiming);
      var outcome := ExecuteClaim(swap.terms.timeoutHeight, skipDrift);
      match outcome {
        case Won(tx) =>
          swap := swap.(claimTx := Some(tx));
          Upsert(swap);
        case Lost(Drifted) =>
          swap := swap.(status := TbtcLocked);
          Upsert(swap);
          Announce(QuoteDegraded(swap));
        case Lost(_) =>
      }
    }

    method RetryOnChain(swap: Swap)
      requires Valid() && swap.terms.id == id
      modifies this, store`swaps
      ensures OnlyMine() && View() == CheckOnChainAndRetry(env, old(View()), swap)
    {
      hide DoClaim, AdvanceViaWinningClaim, Classify;
      var answer := IsStillLocked();
      match answer {
        case None =>
        case Some(true) =>
          var reset := swap.(status := TbtcLocked);
          Upsert(reset);
          Claim(reset, false);
        case Some(false) =>
          var verdict := ClassifySpentLockup(swap.lockupTx);
          match verdict {
            case ByClaim(tx) => var _ := AdvanceViaWinner(tx);
            case ByRefund => var _ := UpdateSwapStatus(swap, Failed("Lockup refunded"));
            case _ =>
          }
      }
    }

    method RecoverRevertedReceipt() returns (reached: bool)
      requires Valid()
      modifies this, store`swaps
      ensures OnlyMine() && (reached, View()) == RecoverFromReverted(env, old(View()))
    {
      hide DoClaim, AdvanceViaWinningClaim, Classify;
      var swap := Current();
      var answer := IsStillLocked();
      match answer {
        case None => return false;
        case Some(true) =>
          Claim(swap.(claimTx := None), false);
          return false;
        case Some(false) =>
          var verdict := ClassifySpentLockup(swap.lockupTx);
          match verdict {
            case ByClaim(tx) => reached := AdvanceViaWinner(tx);
            case ByRefund =>
              var _ := UpdateSwapStatus(swap, Failed("Lockup refunded"));
              return true;
            case _ => return false;
          }
      }
    }

    method PollForReceipt(tx: Tx) returns (reached: bool)
      requires Valid()
      modifies this, store`swaps
      ensures OnlyMine() && (reached, View()) == PollReceipt(env, old(View()), tx, RECEIPT_POLL_MAX_ATTEMPTS)
    {
      hide CheckReceiptOnce, RecoverFromReverted;
      var attempt := 0;
      while attempt < RECEIPT_POLL_MAX_ATTEMPTS
        invariant 0 <= attempt <= RECEIPT_POLL_MAX_ATTEMPTS && OnlyMine()
        invariant PollReceipt(env, old(View()), tx, RECEIPT_POLL_MAX_ATTEMPTS)
                  == PollReceipt(env, View(), tx, RECEIPT_POLL_MAX_ATTEMPTS - attempt)
      {
        var outcome := CheckReceipt(tx);
        match outcome {
          case Advanced(r) => return r;
          case WasReverted =>
            reached := RecoverRevertedReceipt();
            return;
          case NotMined =>
        }
        attempt := attempt + 1;
      }
      return false;
    }

    method ResumeCall(swap: Swap) returns (reached: bool)
      requires Valid() && swap.terms.id == id
      modifies this, store`swaps
      ensures OnlyMine() && (reached, View()) == ResumePendingCall(env, old(View()), swap)
    {
      hide PollReceipt, CheckOnChainAndRetry;
      var polled := now;
      now := now + 1;
      if env.answers(polled) {
        var tx := env.minedTx(polled);
        var row := Current();
        Upsert(row.(claimTx := Some(tx), pendingCall := None));
        reached := PollForReceipt(tx);
      } else {
        RetryOnChain(swap);
        reached := false;
      }
    }

    method ResumeClaiming(swap: Swap)
      requires Valid() && swap.terms.id == id
      modifies this, store`swaps
      ensures OnlyMine() && View() == HandleClaimingResume(env, old(View()), swap)
    {
      hide PollReceipt, ResumePendingCall, CheckOnChainAndRetry;
      if swap.claimTx.Some? { var _ := PollForReceipt(swap.claimTx.value); }
      else if swap.pendingCall.Some? { var _ := ResumeCall(swap); }
      else { RetryOnChain(swap); }
    }

    // ----- WebSocket events -----

    method OnSettled(swap: Swap)
      requires Valid() && swap.terms.id == id
      modifies this, store`swaps
      ensures OnlyMine() && View() == HandleSettled(env, old(View()), swap)
    {
      hide PollReceipt, ResumePendingCall, CheckOnChainAndRetry;
      if swap.claimTx.Some? {
        var _ := PollForReceipt(swap.claimTx.value);
      } else if swap.pendingCall.Some? {
        var _ := ResumeCall(swap);
      } else {
        var answer := IsStillLocked();
        match answer {
          case None =>
          case Some(true) => RetryOnChain(swap);
          case Some(false) => var _ := UpdateSwapStatus(swap, PostClaimStatus(swap.terms.kind));
        }
      }
    }

    method OnConfirmed(swap: Swap, tx: Option<Tx>)
      requires Valid() && swap.terms.id == id
      modifies this, store`swaps
      ensures OnlyMine() && View() == HandleConfirmed(env, old(View()), swap, tx)
    {
      hide HandleClaimingResume, DoClaim;
      if swap.status.Claiming? {
        ResumeClaiming(swap);
      } else {
        var locked := if tx.Some? then swap.(lockupTx := tx) else swap;
        locked := UpdateSwapStatus(locked, TbtcLocked);
        Claim(locked, false);
      }
    }

    method OnTerminalEvent(swap: Swap, status: Status)
      requires Valid() && swap.terms.id == id
      modifies this, store`swaps
      ensures OnlyMine() && View() == HandleTerminalEvent(env, old(View()), swap, status)
    {
      hide AdvanceViaWinningClaim, Classify;
      if swap.status.Claiming? {
        var answer := IsStillLocked();
        if answer.None? { return; }
        if answer == Some(false) {
          var verdict := ClassifySpentLockup(swap.lockupTx);
          match verdict {
            case ByClaim(tx) =>
              var _ := AdvanceViaWinner(tx);
              return;
            case ByRefund =>
            case _ => return;
          }
        }
      }
      var _ := UpdateSwapStatus(swap, status);
    }

    method OnWsUpdate(u: WsUpdate)
      requires Valid() && alive
      modifies this, store`swaps
      ensures OnlyMine() && View() == HandleWsUpdate(env, old(View()), u)
    {
      hide HandleSettled, HandleConfirmed, HandleTerminalEvent, KindOf;
      var swap := Current();
      if swap.status.Terminal() || swap.status.Settling? { return; }
      var kind := KindOf(u.status);
      if Stale(kind, swap.status) { return; }
      match kind {
        case StillCreated =>
        case InvoicePaidMsg => var _ := UpdateSwapStatus(swap, InvoicePaid);
        case Mempool =>
          if u.tx.Some? {
            swap := swap.(lockupTx := u.tx);
            Upsert(swap);
            Announce(SwapUpdated(swap));
          }
        case Confirmed => OnConfirmed(swap, u.tx);
        case Settled => OnSettled(swap);
        case Expiry => OnTerminalEvent(swap, Expired);
        case Failure => OnTerminalEvent(swap, Failed(FailureReason(u)));
        case Other =>
      }
    }

    // ----- the background pass -----

    method RecoverClaimingSwap(swap: Swap, tx: Tx, l1: Option<nat>)
      requires Valid() && swap.terms.id == id
      modifies this, store`swaps
      ensures OnlyMine() && View() == RecoverClaiming(env, old(View()), swap, tx, l1)
    {
      hide CheckReceiptOnce, AdvanceViaWinningClaim, Classify, UpdateStatus;
      var outcome := CheckReceipt(tx);
      if outcome.Advanced? || l1.None? { return; }
      if !PastTimeout(l1.value, swap.terms.timeoutHeight) { return; }
      var answer := IsStillLocked();
      if answer != Some(false) { return; }
      var verdict := ClassifySpentLockup(swap.lockupTx);
      match verdict {
        case ByRefund =>
          var _ := UpdateSwapStatus(swap, Failed("Claim transaction never mined; lockup refunded"));
        case ByClaim(winner) =>
          var _ := AdvanceViaWinner(winner);
        case _ =>
      }
    }

    method Finalize(amount: Option<nat>)
      requires Valid()
      modifies this, store`swaps
      ensures OnlyMine() && View() == FinalizeCompleted(env, old(View()), amount)
    {
      var row := Current();
      if !row.status.Settling? { return; }
      if amount.Some? { row := row.(delivered := amount); }
      var _ := UpdateSwapStatus(row, Completed);
    }

    method Confirm(swap: Swap)
      requires Valid()
      modifies this, store`swaps
      ensures OnlyMine() && View() == ConfirmDelivery(env, old(View()), swap)
    {
      hide FinalizeCompleted;
      if swap.bridgeRef.None? { return; }
      var r := swap.bridgeRef.value;
      match swap.terms.kind {
        case Direct => Finalize(None);
        case Oft =>
          var asked := now;
          now := now + 1;
          if env.answers(asked) && r in env.world(asked).oftDelivered { Finalize(None); }
        case Cctp =>
          var asked := now;
          now := now + 1;
          if !env.answers(asked) { return; }
          var w := env.world(asked);
          var amount := AttestedAmount(w, r);
          if r in w.forwarded && amount.Some? {
            Finalize(amount);
          } else if r in w.forwardFailed && amount.Some? && env.solana {
            var probed := now;
            now := now + 1;
            if env.answers(probed) && r in env.world(probed).nonceUsed { Finalize(amount); }
          }
      }
    }

    method ListForPoll(delay: nat)
      requires Valid()
      modifies this
      ensures OnlyMine() && View() == ListPending(env, old(View()), delay)
    {
      var active := store.ListActiveSwaps();
      if id !in active { return; }
      var swap := active[id];
      var l1: Option<nat> := None;
      if swap.status.Claiming? && swap.claimTx.Some? {
        l1 := L1Read(env, now + delay);
      }
      polls := polls + [Snapshot(swap, l1)];
      now := now + 1;
    }

    method ServeListed(snapshot: Snapshot)
      requires Valid()
      modifies this, store`swaps
      ensures OnlyMine() && View() == ServePoll(env, old(View()), snapshot)
    {
      hide ConfirmDelivery, RecoverClaiming;
      if snapshot.swap.status.Settling? {
        Confirm(snapshot.swap);
      } else if snapshot.swap.status.Claiming? && snapshot.swap.claimTx.Some? {
        var swap := Current();
        if !swap.status.Claiming? || swap.claimTx.None? { return; }
        RecoverClaimingSwap(swap, swap.claimTx.value, snapshot.l1);
      }
    }

    // ----- callers -----

    method AcceptQuote() returns (accepted: bool)
      requires Valid()
      modifies this, store`swaps
      ensures OnlyMine() && (accepted, View()) == AcceptDegradedQuote(env, old(View()))
    {
      hide ClaimAndSwap;
      var swap := Current();
      if !(swap.status.TbtcLocked? || swap.status.Claiming?) { return false; }
      swap := UpdateSwapStatus(swap, Claiming);
      var outcome := ExecuteClaim(swap.terms.timeoutHeight, true);
      if outcome.Lost? { return false; }
      Upsert(swap.(claimTx := Some(outcome.tx)));
      return true;
    }

    method SetSlippage(bps: nat) returns (updated: bool)
      requires Valid()
      modifies this, store`swaps
      ensures OnlyMine() && (updated, View()) == UpdateSlippage(env, old(View()), bps)
    {
      if !(MIN_SLIPPAGE_BPS <= bps <= MAX_SLIPPAGE_BPS) { return false; }
      var swap := Current();
      if swap.status.Terminal() { return false; }
      Upsert(swap.(slippageBps := bps));
      return true;
    }

    // ----- runs -----

    method Perform(action: Action)
      requires Valid()
      modifies this, store`swaps
      ensures OnlyMine() && View() == Step(env, old(View()), action)
    {
      hide HandleWsUpdate, ServePoll, AcceptDegradedQuote, UpdateSlippage, ListPending;
      alive := true;
      match action {
        case Ws(u) => OnWsUpdate(u);
        case List(delay) => ListForPoll(delay);
        case Serve(k) => if k < |polls| { ServeListed(polls[k]); }
        case Accept => var _ := AcceptQuote();
        case Slippage(bps) => var _ := SetSlippage(bps);
        case Wait(n) => now := now + n;
      }
    }

    /** A whole run of the manager is a run of the protocol, and keeps what such runs keep. */
    method PerformAll(actions: seq<Action>)
      requires Valid()
      modifies this, store`swaps
      ensures OnlyMine() && View() == Run(env, old(View()), actions)
      ensures EnvOk(env) && old(Safety.Inv(env, View())) ==>
                && Safety.Inv(env, View()) && Safety.Evolves(env, old(View()), View())
                && acks <= old(acks) + Runs.ClaimerCount(actions)
      ensures Reveal.KeepsGuard(env, old(View()), View())
    {
      hide Step, Safety.Inv, Safety.Evolves, Reveal.KeepsGuard;
      var i := 0;
      while i < |actions|
        invariant 0 <= i <= |actions| && OnlyMine()
        invariant Run(env, old(View()), actions) == Run(env, View(), actions[i..])
      {
        assert actions[i..][1..] == actions[i + 1..];
        Perform(actions[i]);
        i := i + 1;
      }
      if EnvOk(env) && old(Safety.Inv(env, View())) { Runs.RunKeeps(env, old(View()), actions); }
      Reveal.RunGuards(env, old(View()), actions);
    }
  }
}
