/** What the outside world looks like and what one read of it can say (evm/lockup.rs, evm/provider.rs). */
module Chain {
  import opened Wrappers
  import opened Models
  import opened LogScan

  datatype TxOutcome = Succeeded | Reverted | Ambiguous

  datatype Receipt = Receipt(outcome: TxOutcome, block: Option<nat>, logs: seq<Log>)

  datatype Lockup = NotYet | Locked | Claimed(winner: Tx) | Refunded {
    predicate Spent() {
      Claimed? || Refunded?
    }
  }

  /** Arbitrum, LayerZero Scan, Circle Iris and the destination chain at one instant, as far as one
      swap is concerned. */
  datatype World = World(
    lockup: Lockup,
    spentBlock: nat,
    l1Height: nat,
    l2Height: nat,
    receipts: map<Tx, Receipt>,
    oftDelivered: set<BridgeRef>,
    attested: map<BridgeRef, nat>,
    forwarded: set<BridgeRef>,
    forwardFailed: set<BridgeRef>,
    nonceUsed: set<BridgeRef>)

  /** How far one claim attempt gets before it would hand a transaction to the gas sponsor. */
  datatype Attempt = Blocked | QuoteDrifted | Ready

  /** Everything outside the client's control, instant by instant: the world's history, whether the
      remote call made at an instant is answered, whether the process survives it, how an attempt
      started then goes, what the gas sponsor replies, and which background passes list a row just
      written, each given by how much later it reads the L1 height. */
  datatype Env = Env(
    world: nat -> World,
    answers: nat -> bool,
    lives: nat -> bool,
    attempt: nat -> Attempt,
    callId: nat -> CallId,
    minedTx: nat -> Tx,
    listed: nat -> seq<nat>,
    source: Option<DeliveredSource>,
    solana: bool)

  predicate LockupGrows(a: Lockup, b: Lockup) {
    || a == b
    || a.NotYet?
    || (a.Locked? && b.Spent())
  }

  /** Locks are taken once and spent once; receipts, heights and bridge reports only accumulate. */
  ghost predicate Grows(a: World, b: World) {
    && LockupGrows(a.lockup, b.lockup)
    && (a.lockup.Spent() ==> b.spentBlock == a.spentBlock)
    && a.l1Height <= b.l1Height
    && a.l2Height <= b.l2Height
    && (forall tx :: tx in a.receipts ==> tx in b.receipts && b.receipts[tx] == a.receipts[tx])
    && a.oftDelivered <= b.oftDelivered
    && (forall r :: r in a.attested ==> r in b.attested && b.attested[r] == a.attested[r])
    && a.forwarded <= b.forwarded
    && a.nonceUsed <= b.nonceUsed
  }

  ghost predicate EnvOk(env: Env) {
    forall i: nat, j: nat {:trigger Grows(env.world(i), env.world(j))} ::
      i <= j ==> Grows(env.world(i), env.world(j))
  }

  /** The registry resolves the swap's destination to the bridge recorded on the swap, if at all. */
  predicate SourceFits(env: Env, kind: BridgeKind) {
    match env.source
    case None => true
    case Some(ArbitrumTransfer(_, _)) => kind.Direct?
    case Some(OftSent(_)) => kind.Oft?
    case Some(CctpSent(_)) => kind.Cctp?
  }

  /** `is_swap_still_locked_by_swap`: an answer is truthful, otherwise there is none. */
  function LockRead(env: Env, t: nat): Option<bool> {
    if env.answers(t) then Some(env.world(t).lockup.Locked?) else None
  }

  /** `eth_getTransactionReceipt`: error, not found, or the receipt. */
  function ReceiptRead(env: Env, t: nat, tx: Tx): Option<Option<Receipt>> {
    if !env.answers(t) then None
    else if tx in env.world(t).receipts then Some(Some(env.world(t).receipts[tx]))
    else Some(None)
  }

  function L1Read(env: Env, t: nat): Option<nat> {
    if env.answers(t) then Some(env.world(t).l1Height) else None
  }

  function L2Read(env: Env, t: nat): Option<nat> {
    if env.answers(t) then Some(env.world(t).l2Height) else None
  }

  /** `eth_getLogs` for the swap's `Claim` event over a block range. */
  function ClaimLogRead(env: Env, t: nat, from: nat, to: nat): Option<Option<Tx>> {
    if !env.answers(t) then None
    else
      var w := env.world(t);
      if w.lockup.Claimed? && from <= w.spentBlock <= to then Some(Some(w.lockup.winner)) else Some(None)
  }

  function RefundLogRead(env: Env, t: nat, from: nat, to: nat): Option<bool> {
    if !env.answers(t) then None
    else var w := env.world(t); Some(w.lockup.Refunded? && from <= w.spentBlock <= to)
  }

  datatype Verdict = ByClaim(tx: Tx) | ByRefund | Unknown | Unreadable

  /** `resolve_lockup_block_range`: the range, or no anchor, or a failed read; and when it finished. */
  function BlockRange(env: Env, t: nat, lockupTx: Option<Tx>): (Option<Option<(nat, nat)>>, nat) {
    match lockupTx
    case None => (Some(None), t)
    case Some(tx) =>
      match ReceiptRead(env, t, tx)
      case None => (None, t + 1)
      case Some(None) => (Some(None), t + 1)
      case Some(Some(receipt)) =>
        match receipt.block
        case None => (Some(None), t + 1)
        case Some(from) =>
          match L2Read(env, t + 1)
          case None => (None, t + 2)
          case Some(to) => (Some(Some((from, if to < from then from else to))), t + 2)
  }

  /** `classify_spent_lockup`: up to four reads, each at its own instant. */
  function Classify(env: Env, t: nat, lockupTx: Option<Tx>): (Verdict, nat) {
    var (range, t1) := BlockRange(env, t, lockupTx);
    match range
    case None => (Unreadable, t1)
    case Some(None) => (Unknown, t1)
    case Some(Some(r)) =>
      match ClaimLogRead(env, t1, r.0, r.1)
      case None => (Unreadable, t1 + 1)
      case Some(Some(tx)) => (ByClaim(tx), t1 + 1)
      case Some(None) =>
        match RefundLogRead(env, t1 + 1, r.0, r.1)
        case None => (Unreadable, t1 + 2)
        case Some(true) => (ByRefund, t1 + 2)
        case Some(false) => (Unknown, t1 + 2)
  }

  lemma Growth(env: Env, i: nat, j: nat)
    requires EnvOk(env) && i <= j
    ensures Grows(env.world(i), env.world(j))
  {
  }

  /** A verdict is proof: `ByClaim` names the transaction that claimed the lockup and `ByRefund` is
      only said of a refunded one, both still true when the classification returns. */
  lemma VerdictIsSound(env: Env, t: nat, lockupTx: Option<Tx>)
    requires EnvOk(env)
    ensures var (v, t') := Classify(env, t, lockupTx);
            && t <= t'
            && (v.ByClaim? ==> env.world(t').lockup == Claimed(v.tx))
            && (v.ByRefund? ==> t < t' && env.world(t' - 1).lockup == Refunded && env.world(t').lockup == Refunded)
  {
    var (v, t') := Classify(env, t, lockupTx);
    if t < t' { Growth(env, t' - 1, t'); }
  }

  /** The lockup transaction anchors a block at or below the one that spent the lockup. */
  ghost predicate Anchored(w: World, lockupTx: Option<Tx>) {
    && lockupTx.Some? && lockupTx.value in w.receipts
    && var block := w.receipts[lockupTx.value].block;
       block.Some? && block.value <= w.spentBlock <= w.l2Height
  }

  ghost predicate AnswersFrom(env: Env, t: nat) {
    forall i: nat :: t <= i ==> env.answers(i)
  }

  /** With answering nodes and a usable anchor the classification of a spent lockup is exact. */
  lemma VerdictIsComplete(env: Env, t: nat, lockupTx: Option<Tx>)
    requires EnvOk(env) && AnswersFrom(env, t)
    requires env.world(t).lockup.Spent() && Anchored(env.world(t), lockupTx)
    ensures var v := Classify(env, t, lockupTx).0;
            match env.world(t).lockup
            case Claimed(tx) => v == ByClaim(tx)
            case _ => v == ByRefund
  {
    Growth(env, t, t + 1);
    Growth(env, t, t + 2);
    Growth(env, t, t + 3);
  }

  /** With answering nodes a spent lockup is told apart exactly when the recorded lockup transaction is
      mined in a block that is not after the spending one, which the node's head has reached. */
  lemma VerdictIsDecisiveExactly(env: Env, t: nat, lockupTx: Option<Tx>)
    requires EnvOk(env) && AnswersFrom(env, t) && env.world(t).lockup.Spent()
    ensures var w := env.world(t);
            !Classify(env, t, lockupTx).0.Unknown? <==>
            && lockupTx.Some? && lockupTx.value in w.receipts
            && var block := w.receipts[lockupTx.value].block;
               && block.Some? && block.value <= w.spentBlock
               && (w.spentBlock <= env.world(t + 1).l2Height || w.spentBlock == block.value)
  {
    Growth(env, t, t + 1);
    Growth(env, t, t + 2);
    Growth(env, t, t + 3);
  }
}
