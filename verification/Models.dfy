/** The persisted swap record and its lifecycle (models.rs). */
module Models {
  import opened Wrappers

  type Tx = string
  type CallId = string

  datatype BridgeKind = Direct | Oft | Cctp

  /** Declaration order is the derived order the WebSocket monotonicity guard compares by. */
  datatype Status =
    | Created | InvoicePaid | TbtcLocked | Claiming | Settling
    | Completed | Failed(reason: string) | Expired
  {
    predicate Terminal() {
      Completed? || Failed? || Expired?
    }

    predicate PreClaim() {
      Created? || InvoicePaid? || TbtcLocked?
    }

    /** Past the claim: nothing the client does can strand the funds any more. */
    predicate PostClaim() {
      Settling? || Completed?
    }

    function Stage(): nat {
      match this
      case Created => 0
      case InvoicePaid => 1
      case TbtcLocked => 2
      case Claiming => 3
      case Settling => 4
      case Completed => 5
      case Failed(_) => 6
      case Expired => 7
    }
  }

  /** The handle a bridged delivery is looked up by: a LayerZero GUID, or Circle's
      "source domain : burn transaction" key. */
  datatype BridgeRef = Guid(guid: string) | Burn(domain: nat, tx: Tx)

  /** The part of a swap that is fixed when it is created. */
  datatype Terms = Terms(id: string, kind: BridgeKind, timeoutHeight: nat)

  datatype Swap = Swap(
    terms: Terms,
    status: Status,
    slippageBps: nat,
    lockupTx: Option<Tx>,
    claimTx: Option<Tx>,
    pendingCall: Option<CallId>,
    delivered: Option<nat>,
    bridgeRef: Option<BridgeRef>)

  /** A swap as `create` first persists it. */
  predicate Fresh(swap: Swap) {
    && swap.status == Created
    && swap.lockupTx.None? && swap.claimTx.None? && swap.pendingCall.None?
    && swap.delivered.None? && swap.bridgeRef.None?
  }

  datatype Event =
    | SwapUpdated(swap: Swap)
    | QuoteDegraded(swap: Swap)
}
