/** What each handler does to a swap's persisted row, its events and the clock (swap/manager.rs,
    lib.rs): the specification the manager's methods are proved against. */
module Protocol {
  import opened Wrappers
  import opened Models
  import opened LogScan
  import opened Chain
  import opened Ledger
  import opened Executor

  const RECEIPT_POLL_MAX_ATTEMPTS: nat := 60
  const MIN_SLIPPAGE_BPS: nat := 10
  const MAX_SLIPPAGE_BPS: nat := 500

  datatype WsKind =
    | StillCreated | InvoicePaidMsg | Mempool | Confirmed | Settled | Expiry | Failure | Other

  datatype WsUpdate = WsUpdate(status: string, tx: Option<Tx>, reason: Option<string>)

  function KindOf(status: string): WsKind {
    if status in {"swap.created", "invoice.set", "invoice.pending"} then StillCreated
    else if status == "invoice.paid" then InvoicePaidMsg
    else if status == "transaction.mempool" then Mempool
    else if status == "transaction.confirmed" then Confirmed
    else if status in {"invoice.settled", "transaction.claimed"} then Settled
    else if status in {"invoice.expired", "swap.expired"} then Expiry
    else if status in {"invoice.failedToPay", "transaction.lockupFailed", "transaction.refunded", "swap.refunded"}
    then Failure
    else Other
  }

  /** `ws_progress_stage`: only events that unconditionally set a forward status are gated. */
  function ProgressStage(kind: WsKind): Option<Status> {
    match kind
    case StillCreated => Some(Created)
    case InvoicePaidMsg => Some(InvoicePaid)
    case _ => None
  }

  // ----- receipts -----

  /** `delivered_and_ref`: CCTP defers the amount and is keyed by the burn transaction. */
  function DeliveredAndRef(d: DeliveredAmount, tx: Tx): (Option<nat>, Option<BridgeRef>) {
    match d.cctpSourceDomain
    case Some(domain) => (None, Some(Burn(domain, tx)))
    case None => (Some(d.amount), match d.lzGuid case Some(g) => Some(Guid(g)) case None => None)
  }

  /** `apply_delivered_amount`. */
  function WithDelivery(env: Env, swap: Swap, receipt: Receipt, tx: Tx): Swap {
    match env.source
    case None => swap
    case Some(source) =>
      match FirstDecoded(receipt.logs, source)
      case None => swap
      case Some(d) =>
        var (delivered, bridgeRef) := DeliveredAndRef(d, tx);
        swap.(delivered := delivered, bridgeRef := bridgeRef)
  }

  predicate HasEvidence(swap: Swap) {
    !swap.terms.kind.Direct? || swap.delivered.Some?
  }

  function PostClaimStatus(kind: BridgeKind): Status {
    match kind
    case Direct => Completed
    case Oft => Settling
    case Cctp => Settling
  }

  datatype ReceiptOutcome = Advanced(reached: bool) | WasReverted | NotMined

  function ApplySuccessfulReceipt(env: Env, s: State, tx: Tx, receipt: Receipt): (bool, State) {
    var swap := WithDelivery(env, s.rec, receipt, tx);
    if !HasEvidence(swap) then (false, s)
    else (true, UpdateStatus(env, s, swap, PostClaimStatus(swap.terms.kind)))
  }

  function CheckReceiptOnce(env: Env, s: State, tx: Tx): (ReceiptOutcome, State) {
    match ReceiptRead(env, s.now, tx)
    case Some(Some(receipt)) =>
      if receipt.outcome.Succeeded? then
        var (reached, s1) := ApplySuccessfulReceipt(env, Later(s), tx, receipt);
        (Advanced(reached), s1)
      else if receipt.outcome.Reverted? then (WasReverted, Later(s))
      else (NotMined, Later(s))
    case _ => (NotMined, Later(s))
  }

  function AdvanceViaWinningClaim(env: Env, s: State, tx: Tx): (bool, State) {
    if s.rec.status.Terminal() || s.rec.status.Settling? then (true, s)
    else
      var s1 := Put(env, s, s.rec.(claimTx := Some(tx), pendingCall := None));
      var (outcome, s2) := CheckReceiptOnce(env, s1, tx);
      (outcome.Advanced? && outcome.reached, s2)
  }

  // ----- claiming -----

  function DoClaim(env: Env, s: State, swap: Swap, skipDrift: bool): State {
    var claiming := swap.(status := Claiming);
    var s1 := UpdateStatus(env, s, swap, Claiming);
    var (outcome, s2) := ClaimAndSwap(env, s1, swap.terms.timeoutHeight, skipDrift);
    match outcome
    case Won(tx) => Put(env, s2, claiming.(claimTx := Some(tx)))
    case Lost(Drifted) =>
      var reverted := claiming.(status := TbtcLocked);
      Emit(env, Put(env, s2, reverted), QuoteDegraded(reverted))
    case Lost(_) => s2
  }

  function CheckOnChainAndRetry(env: Env, s: State, swap: Swap): State {
    match LockRead(env, s.now)
    case None => Later(s)
    case Some(true) =>
      var reset := swap.(status := TbtcLocked);
      DoClaim(env, Put(env, Later(s), reset), reset, false)
    case Some(false) =>
      var (verdict, t) := Classify(env, s.now + 1, swap.lockupTx);
      match verdict
      case ByClaim(tx) => AdvanceViaWinningClaim(env, At(s, t), tx).1
      case ByRefund => UpdateStatus(env, At(s, t), swap, Failed("Lockup refunded"))
      case _ => At(s, t)
  }

  function RecoverFromReverted(env: Env, s: State): (bool, State) {
    match LockRead(env, s.now)
    case None => (false, Later(s))
    case Some(true) => (false, DoClaim(env, Later(s), s.rec.(claimTx := None), false))
    case Some(false) =>
      var (verdict, t) := Classify(env, s.now + 1, s.rec.lockupTx);
      match verdict
      case ByClaim(tx) => AdvanceViaWinningClaim(env, At(s, t), tx)
      case ByRefund => (true, UpdateStatus(env, At(s, t), s.rec, Failed("Lockup refunded")))
      case _ => (false, At(s, t))
  }

  function PollReceipt(env: Env, s: State, tx: Tx, left: nat): (bool, State)
    decreases left
  {
    if left == 0 then (false, s)
    else
      var (outcome, s1) := CheckReceiptOnce(env, s, tx);
      match outcome
      case Advanced(reached) => (reached, s1)
      case WasReverted => RecoverFromReverted(env, s1)
      case NotMined => PollReceipt(env, s1, tx, left - 1)
  }

  function ResumePendingCall(env: Env, s: State, swap: Swap): (bool, State) {
    if env.answers(s.now) then
      var tx := env.minedTx(s.now);
      var s1 := Later(s);
      var s2 := Put(env, s1, s1.rec.(claimTx := Some(tx), pendingCall := None));
      PollReceipt(env, s2, tx, RECEIPT_POLL_MAX_ATTEMPTS)
    else (false, CheckOnChainAndRetry(env, Later(s), swap))
  }

  function HandleClaimingResume(env: Env, s: State, swap: Swap): State {
    if swap.claimTx.Some? then PollReceipt(env, s, swap.claimTx.value, RECEIPT_POLL_MAX_ATTEMPTS).1
    else if swap.pendingCall.Some? then ResumePendingCall(env, s, swap).1
    else CheckOnChainAndRetry(env, s, swap)
  }

  // ----- WebSocket events -----

  function HandleSettled(env: Env, s: State, swap: Swap): State {
    if swap.claimTx.Some? then PollReceipt(env, s, swap.claimTx.value, RECEIPT_POLL_MAX_ATTEMPTS).1
    else if swap.pendingCall.Some? then ResumePendingCall(env, s, swap).1
    else
      match LockRead(env, s.now)
      case None => Later(s)
      case Some(true) => CheckOnChainAndRetry(env, Later(s), swap)
      case Some(false) => UpdateStatus(env, Later(s), swap, PostClaimStatus(swap.terms.kind))
  }

  function HandleConfirmed(env: Env, s: State, swap: Swap, tx: Option<Tx>): State {
    if swap.status.Claiming? then HandleClaimingResume(env, s, swap)
    else
      var lockupTx := if tx.Some? then tx else swap.lockupTx;
      var locked := swap.(lockupTx := lockupTx);
      DoClaim(env, UpdateStatus(env, s, locked, TbtcLocked), locked.(status := TbtcLocked), false)
  }

  function HandleTerminalEvent(env: Env, s: State, swap: Swap, status: Status): State {
    if !swap.status.Claiming? then UpdateStatus(env, s, swap, status)
    else
      match LockRead(env, s.now)
      case None => Later(s)
      case Some(true) => UpdateStatus(env, Later(s), swap, status)
      case Some(false) =>
        var (verdict, t) := Classify(env, s.now + 1, swap.lockupTx);
        match verdict
        case ByClaim(tx) => AdvanceViaWinningClaim(env, At(s, t), tx).1
        case ByRefund => UpdateStatus(env, At(s, t), swap, status)
        case _ => At(s, t)
  }

  function HandleMempool(env: Env, s: State, swap: Swap, tx: Option<Tx>): State {
    if tx.None? then s
    else
      var seen := swap.(lockupTx := tx);
      Emit(env, Put(env, s, seen), SwapUpdated(seen))
  }

  function FailureReason(u: WsUpdate): string {
    if u.reason.Some? then u.reason.value else u.status
  }

  predicate Stale(kind: WsKind, status: Status) {
    var stage := ProgressStage(kind);
    stage.Some? && stage.value.Stage() < status.Stage()
  }

  function HandleWsUpdate(env: Env, s: State, u: WsUpdate): State {
    var swap := s.rec;
    var kind := KindOf(u.status);
    if swap.status.Terminal() || swap.status.Settling? || Stale(kind, swap.status) then s
    else match kind
      case StillCreated => s
      case InvoicePaidMsg => UpdateStatus(env, s, swap, InvoicePaid)
      case Mempool => HandleMempool(env, s, swap, u.tx)
      case Confirmed => HandleConfirmed(env, s, swap, u.tx)
      case Settled => HandleSettled(env, s, swap)
      case Expiry => HandleTerminalEvent(env, s, swap, Expired)
      case Failure => HandleTerminalEvent(env, s, swap, Failed(FailureReason(u)))
      case Other => s
  }

  // ----- the background pass -----

  predicate PastTimeout(l1: nat, timeoutHeight: nat) {
    l1 > timeoutHeight
  }

  function RecoverClaiming(env: Env, s: State, swap: Swap, tx: Tx, l1: Option<nat>): State {
    var (outcome, s1) := CheckReceiptOnce(env, s, tx);
    if outcome.Advanced? || l1.None? || !PastTimeout(l1.value, swap.terms.timeoutHeight) then s1
    else
      match LockRead(env, s1.now)
      case Some(false) =>
        var (verdict, t) := Classify(env, s1.now + 1, swap.lockupTx);
        (match verdict
         case ByRefund =>
           UpdateStatus(env, At(s1, t), swap, Failed("Claim transaction never mined; lockup refunded"))
         case ByClaim(winner) => AdvanceViaWinningClaim(env, At(s1, t), winner).1
         case _ => At(s1, t))
      case _ => Later(s1)
  }

  function FinalizeCompleted(env: Env, s: State, amount: Option<nat>): State {
    if !s.rec.status.Settling? then s
    else
      var row := if amount.Some? then s.rec.(delivered := amount) else s.rec;
      UpdateStatus(env, s, row, Completed)
  }

  function AttestedAmount(w: World, r: BridgeRef): Option<nat> {
    if r in w.attested then Some(w.attested[r]) else None
  }

  /** `confirm_delivery`, from the pass's own copy of the record. */
  function ConfirmDelivery(env: Env, s: State, swap: Swap): State {
    if swap.bridgeRef.None? then s
    else
      var r := swap.bridgeRef.value;
      match swap.terms.kind
      case Direct => FinalizeCompleted(env, s, None)
      case Oft =>
        if env.answers(s.now) && r in env.world(s.now).oftDelivered
        then FinalizeCompleted(env, Later(s), None) else Later(s)
      case Cctp =>
        if !env.answers(s.now) then Later(s)
        else
          var w := env.world(s.now);
          var amount := AttestedAmount(w, r);
          if r in w.forwarded && amount.Some? then FinalizeCompleted(env, Later(s), amount)
          else if r in w.forwardFailed && amount.Some? && env.solana then
            if env.answers(s.now + 1) && r in env.world(s.now + 1).nonceUsed
            then FinalizeCompleted(env, At(s, s.now + 2), amount) else At(s, s.now + 2)
          else Later(s)
  }

  /** `poll_pending_swaps`, first half: list the swap if it is active, reading the L1 height `delay`
      instants later if it is claiming with a hash. (`Put` has the passes that list inside a handler.) */
  function ListPending(env: Env, s: State, delay: nat): State {
    if s.rec.status.Terminal() then s
    else Later(s.(polls := s.polls + [Listing(env, s.now, s.rec, delay)]))
  }

  /** `poll_pending_swaps`, second half: under the swap's lock, any number of handlers later. */
  function ServePoll(env: Env, s: State, snapshot: Snapshot): State {
    if snapshot.swap.status.Settling? then ConfirmDelivery(env, s, snapshot.swap)
    else if snapshot.swap.status.Claiming? && snapshot.swap.claimTx.Some?
            && s.rec.status.Claiming? && s.rec.claimTx.Some? then
      RecoverClaiming(env, s, s.rec, s.rec.claimTx.value, snapshot.l1)
    else s
  }

  // ----- callers -----

  function AcceptDegradedQuote(env: Env, s: State): (bool, State) {
    if !(s.rec.status.TbtcLocked? || s.rec.status.Claiming?) then (false, s)
    else
      var claiming := s.rec.(status := Claiming);
      var s1 := UpdateStatus(env, s, s.rec, Claiming);
      var (outcome, s2) := ClaimAndSwap(env, s1, s.rec.terms.timeoutHeight, true);
      match outcome
      case Won(tx) => (true, Put(env, s2, claiming.(claimTx := Some(tx))))
      case Lost(_) => (false, s2)
  }

  function UpdateSlippage(env: Env, s: State, bps: nat): (bool, State) {
    if !(MIN_SLIPPAGE_BPS <= bps <= MAX_SLIPPAGE_BPS) || s.rec.status.Terminal() then (false, s)
    else (true, Put(env, s, s.rec.(slippageBps := bps)))
  }

  // ----- runs -----

  datatype Action =
    | Ws(update: WsUpdate)
    | List(delay: nat)
    | Serve(index: nat)
    | Accept
    | Slippage(bps: nat)
    | Wait(instants: nat)

  /** A handler starts in a live process, whatever became of the last one: it may have been cancelled
      with its caller, or have died with the whole process. Listings that other tasks hold survive the
      former; after the latter nobody serves them. */
  function Begin(s: State): State {
    s.(alive := true)
  }

  function Step(env: Env, s: State, a: Action): State {
    var s0 := Begin(s);
    match a
    case Ws(u) => HandleWsUpdate(env, s0, u)
    case List(delay) => ListPending(env, s0, delay)
    case Serve(k) => if k < |s0.polls| then ServePoll(env, s0, s0.polls[k]) else s0
    case Accept => AcceptDegradedQuote(env, s0).1
    case Slippage(bps) => UpdateSlippage(env, s0, bps).1
    case Wait(n) => At(s0, s0.now + n)
  }

  function Run(env: Env, s: State, actions: seq<Action>): State
    decreases |actions|
  {
    if actions == [] then s else Run(env, Step(env, s, actions[0]), actions[1..])
  }

  function Start(swap: Swap): State {
    State(swap, 0, true, [], [], 0, [])
  }
}
