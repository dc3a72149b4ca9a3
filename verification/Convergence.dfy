/** With answering nodes and a settled outcome on chain, two ticks bring a claiming swap to the
    matching terminal state. */
module Convergence {
  import opened Wrappers
  import opened Models
  import opened LogScan
  import opened Chain
  import opened Ledger
  import opened Executor
  import opened Protocol
  import opened Safety
  import opened Runs

  /** One background pass over this swap: list it, then serve that listing. */
  function TickOnce(env: Env, s: State): State {
    var s1 := Step(env, s, List(0));
    if |s1.polls| == 0 then s1 else Step(env, s1, Serve(|s1.polls| - 1))
  }

  function Rank(status: Status): nat {
    match status
    case Claiming => 2
    case Settling => 1
    case _ => 0
  }

  ghost predicate Steady(env: Env, t: nat) {
    AnswersFrom(env, t) && forall i: nat :: t <= i ==> env.lives(i)
  }

  /** `tx` succeeded and its logs show this swap's delivery or bridge send. */
  ghost predicate Delivers(env: Env, w: World, tx: Tx) {
    && tx in w.receipts && w.receipts[tx].outcome.Succeeded?
    && env.source.Some? && FirstDecoded(w.receipts[tx].logs, env.source.value).Some?
  }

  function RefOf(env: Env, w: World, tx: Tx): Option<BridgeRef>
    requires tx in w.receipts && env.source.Some? && FirstDecoded(w.receipts[tx].logs, env.source.value).Some?
  {
    DeliveredAndRef(FirstDecoded(w.receipts[tx].logs, env.source.value).value, tx).1
  }

  /** Circle forwarded the message; or it is minted on Solana although the forward is, from here on,
      reported as failed (until it may after all be reported as forwarded). */
  ghost predicate Minted(env: Env, t: nat, r: BridgeRef) {
    || r in env.world(t).forwarded
    || (&& env.solana && r in env.world(t).nonceUsed
        && forall i: nat :: t <= i ==> r in env.world(i).forwardFailed || r in env.world(i).forwarded)
  }

  /** The bridge shows the swap's message as delivered (there is none to wait for when direct). */
  ghost predicate BridgeDone(env: Env, t: nat, kind: BridgeKind, r: Option<BridgeRef>) {
    match kind
    case Direct => true
    case Oft => r.Some? && r.value in env.world(t).oftDelivered
    case Cctp => r.Some? && r.value in env.world(t).attested && Minted(env, t, r.value)
  }

  ghost predicate NeverSucceeds(env: Env, from: nat, tx: Tx) {
    forall i: nat :: from <= i ==> !(tx in env.world(i).receipts && env.world(i).receipts[tx].outcome.Succeeded?)
  }

  /** The lockup was spent past its timeout and not by the recorded transaction. */
  ghost predicate SpentElsewhere(env: Env, s: State) {
    && s.rec.claimTx.Some? && NeverSucceeds(env, s.now, s.rec.claimTx.value)
    && var w := env.world(s.now);
       w.lockup.Spent() && Anchored(w, s.rec.lockupTx) && w.l1Height > s.rec.terms.timeoutHeight
  }

  /** The transaction that delivered: our own, or the one that won the lockup. */
  function WinningTx(env: Env, s: State): Option<Tx> {
    var w := env.world(s.now);
    if s.rec.claimTx.Some? && s.rec.claimTx.value in w.receipts
       && w.receipts[s.rec.claimTx.value].outcome.Succeeded? then s.rec.claimTx
    else match w.lockup
      case Claimed(tx) => Some(tx)
      case _ => None
  }

  /** What the chain has decided for a swap that is claiming with a recorded hash. */
  ghost predicate ClaimWon(env: Env, s: State) {
    && s.rec.claimTx.Some?
    && var w := env.world(s.now);
    && WinningTx(env, s).Some? && Delivers(env, w, WinningTx(env, s).value)
    && (WinningTx(env, s) == s.rec.claimTx || SpentElsewhere(env, s))
  }

  ghost predicate LockupRefunded(env: Env, s: State) {
    SpentElsewhere(env, s) && env.world(s.now).lockup.Refunded?
  }

  ghost predicate Claims(s: State) {
    s.rec.status.Claiming? && s.rec.claimTx.Some?
  }

  /** Applying the receipt of a delivering transaction takes the record past the claim. */
  lemma DeliveringReceiptAdvances(env: Env, s: State, tx: Tx)
    requires EnvOk(env) && Inv(env, s) && s.alive && Steady(env, s.now)
    requires s.rec.status.Claiming? && s.rec.claimTx == Some(tx) && Delivers(env, env.world(s.now), tx)
    ensures var (o, r) := CheckReceiptOnce(env, s, tx);
            && o == Advanced(true) && r.alive
            && r.rec.status == PostClaimStatus(s.rec.terms.kind)
            && r.rec.terms == s.rec.terms
            && r.rec.bridgeRef == RefOf(env, env.world(s.now), tx)
  {
    DecodedShape(env.world(s.now).receipts[tx].logs, env.source.value);
  }

  lemma WinningClaimAdvances(env: Env, s: State, tx: Tx)
    requires EnvOk(env) && Inv(env, s) && s.alive && Steady(env, s.now)
    requires s.rec.status.Claiming? && Delivers(env, env.world(s.now), tx)
    ensures var r := AdvanceViaWinningClaim(env, s, tx).1;
            && r.alive && r.rec.status == PostClaimStatus(s.rec.terms.kind)
            && r.rec.terms == s.rec.terms
            && r.rec.bridgeRef == RefOf(env, env.world(s.now), tx)
  {
    hide CheckReceiptOnce;
    var row := s.rec.(claimTx := Some(tx), pendingCall := None);
    PutKeeps(env, s, s, row);
    Growth(env, s.now, s.now + 1);
    DeliveringReceiptAdvances(env, Put(env, s, row), tx);
  }

  /** One recovery pass decides a settled outcome. */
  lemma RecoveryDecides(env: Env, s: State, l1: nat)
    requires EnvOk(env) && Inv(env, s) && s.alive && Steady(env, s.now) && Claims(s)
    requires ClaimWon(env, s) || LockupRefunded(env, s)
    requires SpentElsewhere(env, s) ==> l1 > s.rec.terms.timeoutHeight
    ensures var r := RecoverClaiming(env, s, s.rec, s.rec.claimTx.value, Some(l1));
            && r.alive
            && (ClaimWon(env, s) ==>
                  && r.rec.status == PostClaimStatus(s.rec.terms.kind)
                  && r.rec.terms == s.rec.terms
                  && r.rec.bridgeRef == RefOf(env, env.world(s.now), WinningTx(env, s).value))
            && (LockupRefunded(env, s) ==> r.rec.status.Failed?)
  {
    hide AdvanceViaWinningClaim, Classify, CheckReceiptOnce, Inv, Handled, FirstDecoded, Backed;
    var tx := s.rec.claimTx.value;
    CheckReceiptKeeps(env, s, tx);
    if WinningTx(env, s) == Some(tx) && Delivers(env, env.world(s.now), tx) {
      DeliveringReceiptAdvances(env, s, tx);
    } else {
      NoAdvanceWithoutSuccess(env, s, tx);
      SpendDecides(env, s, s.now + 1);
      var t := Classify(env, s.now + 2, s.rec.lockupTx).1;
      assert At(Later(s), t) == At(s, t);
    }
  }

  /** Classifying a lockup spent elsewhere, from any later instant. */
  lemma SpendDecides(env: Env, s: State, t0: nat)
    requires EnvOk(env) && Inv(env, s) && s.alive && Steady(env, s.now) && Claims(s) && s.now < t0
    requires SpentElsewhere(env, s)
    ensures LockRead(env, t0) == Some(false)
    ensures Classify(env, t0 + 1, s.rec.lockupTx).1 > s.now
    ensures var (verdict, t) := Classify(env, t0 + 1, s.rec.lockupTx);
            match env.world(s.now).lockup
            case Claimed(tx) =>
              && verdict == ByClaim(tx)
              && (Delivers(env, env.world(s.now), tx) ==>
                    var r := AdvanceViaWinningClaim(env, At(s, t), tx).1;
                    && r.alive && r.rec.status == PostClaimStatus(s.rec.terms.kind) && r.rec.terms == s.rec.terms
                    && r.rec.bridgeRef == RefOf(env, env.world(s.now), tx))
            case _ => verdict == ByRefund
  {
    hide AdvanceViaWinningClaim, Classify, Inv, Handled;
    Growth(env, s.now, t0);
    Growth(env, s.now, t0 + 1);
    VerdictIsComplete(env, t0 + 1, s.rec.lockupTx);
    VerdictIsSound(env, t0 + 1, s.rec.lockupTx);
    var (verdict, t) := Classify(env, t0 + 1, s.rec.lockupTx);
    InvLater(env, s, t);
    Growth(env, s.now, t);
    if verdict.ByClaim? && Delivers(env, env.world(s.now), verdict.tx) {
      WinningClaimAdvances(env, At(s, t), verdict.tx);
    }
  }

  lemma NoAdvanceWithoutSuccess(env: Env, s: State, tx: Tx)
    requires NeverSucceeds(env, s.now, tx)
    ensures var (o, r) := CheckReceiptOnce(env, s, tx);
            !o.Advanced? && r == Later(s)
  {
  }

  /** One tick strictly lowers the rank of a claiming swap whose outcome is settled. */
  lemma TickDecides(env: Env, s: State)
    requires EnvOk(env) && Inv(env, s) && Steady(env, s.now) && Claims(s)
    requires ClaimWon(env, s) || LockupRefunded(env, s)
    ensures var r := TickOnce(env, s);
            && Inv(env, r) && Evolves(env, s, r)
            && Rank(r.rec.status) < Rank(s.rec.status)
            && (ClaimWon(env, s) ==>
                  && r.rec.status == PostClaimStatus(s.rec.terms.kind) && r.rec.terms == s.rec.terms
                  && r.rec.bridgeRef == RefOf(env, env.world(s.now), WinningTx(env, s).value))
            && (LockupRefunded(env, s) ==> r.rec.status.Failed?)
  {
    hide RecoverClaiming, ConfirmDelivery, Inv, Backed, FirstDecoded;
    var s1 := Step(env, s, List(0));
    StepKeeps(env, s, List(0));
    StepKeeps(env, s1, Serve(|s1.polls| - 1));
    EvolvesCompose(env, s, s1, TickOnce(env, s));
    Growth(env, s.now, s1.now);
    RecoveryDecides(env, s1, env.world(s.now).l1Height);
  }

  lemma ConfirmCompletes(env: Env, s: State)
    requires EnvOk(env) && Inv(env, s) && Steady(env, s.now) && s.alive && s.rec.status.Settling?
    requires BridgeDone(env, s.now, s.rec.terms.kind, s.rec.bridgeRef)
    ensures ConfirmDelivery(env, s, s.rec).rec.status.Completed?
  {
    hide Backed;
    Growth(env, s.now, s.now + 1);
  }

  /** A tick over a `Settling` swap whose bridge reports delivery completes it. */
  lemma TickCompletes(env: Env, s: State)
    requires EnvOk(env) && Inv(env, s) && Steady(env, s.now) && s.rec.status.Settling?
    requires BridgeDone(env, s.now, s.rec.terms.kind, s.rec.bridgeRef)
    ensures TickOnce(env, s).rec.status.Completed?
  {
    hide ConfirmDelivery, Inv, RecoverClaiming, BridgeDone;
    StepKeeps(env, s, List(0));
    var s1 := Step(env, s, List(0));
    BridgeDoneLater(env, s.now, s1.now, s.rec.terms.kind, s.rec.bridgeRef);
    ConfirmCompletes(env, s1);
  }

  lemma BridgeDoneLater(env: Env, i: nat, j: nat, kind: BridgeKind, r: Option<BridgeRef>)
    requires EnvOk(env) && i <= j && BridgeDone(env, i, kind, r)
    ensures BridgeDone(env, j, kind, r)
  {
    Growth(env, i, j);
  }

  /** A settled swap stays settled under a further tick. */
  lemma TickKeeps(env: Env, s: State)
    requires EnvOk(env) && Inv(env, s)
    ensures Inv(env, TickOnce(env, s)) && Evolves(env, s, TickOnce(env, s))
  {
    hide Step;
    var s1 := Step(env, s, List(0));
    StepKeeps(env, s, List(0));
    if |s1.polls| > 0 {
      StepKeeps(env, s1, Serve(|s1.polls| - 1));
      EvolvesCompose(env, s, s1, TickOnce(env, s));
    }
  }

  /** Two ticks, with anything at all in between, reach the terminal state the chain decided:
      `Completed` when the claim delivered, `Failed` when the lockup was refunded. */
  lemma TwoTicksConverge(env: Env, s: State, between: seq<Action>)
    requires EnvOk(env) && Inv(env, s) && Steady(env, s.now) && Claims(s)
    requires ClaimWon(env, s) || LockupRefunded(env, s)
    requires ClaimWon(env, s) ==>
               var w := env.world(s.now);
               BridgeDone(env, s.now, s.rec.terms.kind, RefOf(env, w, WinningTx(env, s).value))
    ensures var r := TickOnce(env, Run(env, TickOnce(env, s), between));
            && Rank(r.rec.status) == 0
            && (ClaimWon(env, s) ==> r.rec.status.Completed?)
            && (LockupRefunded(env, s) ==> r.rec.status.Failed?)
  {
    hide TickOnce, Run;
    var s1 := TickOnce(env, s);
    TickDecides(env, s);
    RunKeeps(env, s1, between);
    var s2 := Run(env, s1, between);
    TickKeeps(env, s2);
    if s2.rec.status.Settling? {
      BridgeDoneLater(env, s.now, s2.now, s.rec.terms.kind, s2.rec.bridgeRef);
      TickCompletes(env, s2);
    }
  }

  /** Following the transaction that claimed the lockup never fails the swap. */
  lemma WinningClaimNeverFails(env: Env, s: State, tx: Tx)
    requires EnvOk(env) && Inv(env, s) && s.rec.status.Claiming? && env.world(s.now).lockup.Claimed?
    ensures !Abandoned(AdvanceViaWinningClaim(env, s, tx).1.rec.status)
  {
    hide AdvanceViaWinningClaim;
    AdvanceKeeps(env, s, tx);
    var r := AdvanceViaWinningClaim(env, s, tx).1;
    if Abandoned(r.rec.status) {
      var t: nat :| s.now <= t < r.now && NotClaimedAt(env, t);
      Growth(env, s.now, t);
    }
  }

  lemma ReceiptNeverFails(env: Env, s: State, tx: Tx)
    requires s.rec.status.Claiming?
    ensures !Abandoned(CheckReceiptOnce(env, s, tx).1.rec.status)
  {
  }

  /** Recovery without a verdict on the lockup, or before its timeout, never fails the swap. */
  lemma RecoveryFailsOnlyRefunds(env: Env, s: State, l1: Option<nat>)
    requires EnvOk(env) && Inv(env, s) && s.alive && Claims(s)
    ensures var r := RecoverClaiming(env, s, s.rec, s.rec.claimTx.value, l1);
            r.rec.status.Failed? || r.rec.status.Expired? ==>
              env.world(r.now).lockup.Refunded? && l1.Some? && l1.value > s.rec.terms.timeoutHeight
  {
    hide AdvanceViaWinningClaim, Classify, CheckReceiptOnce, Inv, Handled, Proven;
    var tx := s.rec.claimTx.value;
    CheckReceiptKeeps(env, s, tx);
    ReceiptNeverFails(env, s, tx);
    var (o, s1) := CheckReceiptOnce(env, s, tx);
    VerdictIsSound(env, s1.now + 1, s.rec.lockupTx);
    var (verdict, t) := Classify(env, s1.now + 1, s.rec.lockupTx);
    if !o.Advanced? {
      InvLater(env, s, t);
      if verdict.ByRefund? { Growth(env, t, t + 2); }
      if verdict.ByClaim? { WinningClaimNeverFails(env, At(s1, t), verdict.tx); }
    }
  }

  /** A tick fails a swap only if its lockup was refunded; it never does so to a claimed one. */
  lemma TicksFailOnlyRefunds(env: Env, s: State, k: nat)
    requires EnvOk(env) && Inv(env, s) && !s.rec.status.Terminal()
    requires var status := Step(env, s, Serve(k)).rec.status; status.Failed? || status.Expired?
    ensures env.world(Step(env, s, Serve(k)).now).lockup.Refunded?
  {
    hide RecoverClaiming;
    var s0 := Begin(s);
    StepKeeps(env, s, Serve(k));
    if Claims(s) { RecoveryFailsOnlyRefunds(env, s0, s0.polls[k].l1); }
  }
}
