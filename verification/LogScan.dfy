/** Decoding the delivered amount from a claim receipt's logs (evm/contracts.rs). */
module LogScan {
  import opened Wrappers
  import opened CctpMessage

  type Address = string

  const MESSAGE_SENT: string := "MessageSent(bytes)"
  const TRANSFER: string := "Transfer(address,address,uint256)"
  const OFT_SENT: string := "OFTSent(bytes32,uint32,address,uint256,uint256)"

  /** A log's data under each ABI shape the scanners try; `None` where that shape does not decode. */
  datatype LogData = LogData(
    asUint: Option<nat>, asOftAmounts: Option<(nat, nat, nat)>, asBytes: Option<seq<byte>>)

  /** `address` is `None` when the text is not a 20-byte hex address; `topics` are canonical. */
  datatype Log = Log(address: Option<Address>, topics: seq<string>, data: LogData)

  datatype DeliveredSource =
    | ArbitrumTransfer(token: Address, user: Address)
    | OftSent(oftContract: Address)
    | CctpSent(messageTransmitter: Address)

  datatype DeliveredAmount = DeliveredAmount(
    amount: nat, lzGuid: Option<string>, cctpSourceDomain: Option<nat>)

  function UserTopic(user: Address): string {
    "topic:" + user
  }

  /** `saturating_sub` followed by the 64-bit conversion. */
  function BurnEstimate(amount: nat, fee: nat): Option<nat> {
    var delivered := if fee > amount then 0 else amount - fee;
    if delivered <= U64_MAX then Some(delivered) else None
  }

  function DecodeCctpMessage(msg: seq<byte>): Option<DeliveredAmount> {
    match (ReadUint(msg, SOURCE_DOMAIN_OFFSET, 4), ReadUint(msg, BURN_AMOUNT_OFFSET, 32),
           ReadUint(msg, BURN_FEE_OFFSET, 32))
    case (Some(domain), Some(amount), Some(fee)) =>
      (match BurnEstimate(amount, fee)
       case Some(delivered) => Some(DeliveredAmount(delivered, None, Some(domain)))
       case None => None)
    case _ => None
  }

  function DecodeCctpLog(log: Log, transmitter: Address): Option<DeliveredAmount> {
    if log.address != Some(transmitter) || |log.topics| == 0 || log.topics[0] != MESSAGE_SENT then None
    else match log.data.asBytes
      case None => None
      case Some(msg) => DecodeCctpMessage(msg)
  }

  function DecodeTransferLog(log: Log, token: Address, user: Address): Option<DeliveredAmount> {
    if log.address != Some(token) || |log.topics| < 3
       || log.topics[0] != TRANSFER || log.topics[2] != UserTopic(user) then None
    else match log.data.asUint
      case Some(value) => if value <= U64_MAX then Some(DeliveredAmount(value, None, None)) else None
      case None => None
  }

  function DecodeOftLog(log: Log, oft: Address): Option<DeliveredAmount> {
    if log.address != Some(oft) || |log.topics| < 3 || log.topics[0] != OFT_SENT then None
    else match log.data.asOftAmounts
      case Some(amounts) =>
        if amounts.2 <= U64_MAX then Some(DeliveredAmount(amounts.2, Some(log.topics[1]), None)) else None
      case None => None
  }

  function DecodeLog(log: Log, source: DeliveredSource): Option<DeliveredAmount> {
    match source
    case ArbitrumTransfer(token, user) => DecodeTransferLog(log, token, user)
    case OftSent(oft) => DecodeOftLog(log, oft)
    case CctpSent(transmitter) => DecodeCctpLog(log, transmitter)
  }

  /** The first log that both matches and decodes: undecodable look-alikes are skipped. */
  function FirstDecoded(logs: seq<Log>, source: DeliveredSource): Option<DeliveredAmount> {
    if logs == [] then None
    else if DecodeLog(logs[0], source).Some? then DecodeLog(logs[0], source)
    else FirstDecoded(logs[1..], source)
  }

  /** The scan finds nothing only when no log decodes, and otherwise the earliest one that does. */
  lemma {:induction false} FirstDecodedIsEarliest(logs: seq<Log>, source: DeliveredSource)
    ensures FirstDecoded(logs, source).None? <==> forall i :: 0 <= i < |logs| ==> DecodeLog(logs[i], source).None?
    ensures FirstDecoded(logs, source).Some? ==>
              exists i :: 0 <= i < |logs| && DecodeLog(logs[i], source) == FirstDecoded(logs, source)
                          && forall j :: 0 <= j < i ==> DecodeLog(logs[j], source).None?
  {
    if logs != [] {
      FirstDecodedIsEarliest(logs[1..], source);
      if DecodeLog(logs[0], source).None? {
        if FirstDecoded(logs, source).Some? {
          var i :| 0 <= i < |logs[1..]| && DecodeLog(logs[1..][i], source) == FirstDecoded(logs, source)
                   && forall j :: 0 <= j < i ==> DecodeLog(logs[1..][j], source).None?;
          assert DecodeLog(logs[i + 1], source) == FirstDecoded(logs, source);
          forall j | 0 <= j < i + 1 ensures DecodeLog(logs[j], source).None? {
            if j > 0 { assert logs[j] == logs[1..][j - 1]; }
          }
        } else {
          forall i | 0 <= i < |logs| ensures DecodeLog(logs[i], source).None? {
            if i > 0 { assert logs[i] == logs[1..][i - 1]; }
          }
        }
      }
    }
  }

  /** The scanning loop with its `continue` and early return. */
  method DecodeDelivered(logs: seq<Log>, source: DeliveredSource) returns (decoded: Option<DeliveredAmount>)
    ensures decoded == FirstDecoded(logs, source)
  {
    for i := 0 to |logs|
      invariant FirstDecoded(logs, source) == FirstDecoded(logs[i..], source)
    {
      var hit := DecodeLog(logs[i], source);
      if hit.None? { continue; }
      return hit;
    }
    return None;
  }

  /** Each source yields exactly the tracking handle its bridge needs, and no other. */
  lemma {:induction false} DecodedShape(logs: seq<Log>, source: DeliveredSource)
    requires FirstDecoded(logs, source).Some?
    ensures var d := FirstDecoded(logs, source).value;
            && d.amount <= U64_MAX
            && (d.lzGuid.Some? <==> source.OftSent?)
            && (d.cctpSourceDomain.Some? <==> source.CctpSent?)
  {
    if DecodeLog(logs[0], source).None? { DecodedShape(logs[1..], source); }
  }

  /** A burn log built from a laid-out message decodes to its domain and burn minus fee,
      floored at zero: unlike the attested reader this one does not reject a fee above the burn. */
  lemma BurnLogDecodes(m: BurnMessage, log: Log, transmitter: Address)
    requires m.WellSized()
    requires log.address == Some(transmitter) && |log.topics| > 0 && log.topics[0] == MESSAGE_SENT
    requires log.data.asBytes == Some(m.Encode())
    ensures DecodeCctpLog(log, transmitter) ==
            (match BurnEstimate(m.amount, m.feeExecuted)
             case Some(v) => Some(DeliveredAmount(v, None, Some(m.sourceDomain)))
             case None => None)
    ensures DeliveredFromMessage(m.Encode()).Some? ==>
              DecodeCctpLog(log, transmitter)
              == Some(DeliveredAmount(DeliveredFromMessage(m.Encode()).value, None, Some(m.sourceDomain)))
  {
    hide ReadUint, Slice, BigEndian, ToBytes;
    ReadersRecoverFields(m);
  }

  /** An OFT send of the contract is found exactly when the amount received fits 64 bits; that is the amount,
      whatever was sent, and the second topic is the message's id. */
  lemma OftLogDecodes(log: Log, oft: Address, eid: nat, sent: nat, received: nat)
    requires log.address == Some(oft) && |log.topics| >= 3
    requires log.topics[0] == "OFTSent(bytes32,uint32,address,uint256,uint256)"
    requires log.data.asOftAmounts == Some((eid, sent, received))
    ensures FirstDecoded([log], OftSent(oft)) ==
            if received <= 0xFFFF_FFFF_FFFF_FFFF then Some(DeliveredAmount(received, Some(log.topics[1]), None))
            else None
  {
    assert [log][1..] == [];
  }

  /** A transfer of the token to the user is found exactly when its value fits; one to anybody else is not,
      whoever sent it. */
  lemma TransferLogDecodes(log: Log, token: Address, user: Address, value: nat)
    requires log.address == Some(token) && |log.topics| >= 3
    requires log.topics[0] == "Transfer(address,address,uint256)" && log.data.asUint == Some(value)
    ensures FirstDecoded([log], ArbitrumTransfer(token, user)) ==
            if log.topics[2] == UserTopic(user) && value <= 0xFFFF_FFFF_FFFF_FFFF
            then Some(DeliveredAmount(value, None, None)) else None
  {
    assert [log][1..] == [];
  }

  /** A burn message of the transmitter is found as its decoded fields say. */
  lemma BurnLogIsFound(m: BurnMessage, log: Log, transmitter: Address)
    requires m.WellSized() && log.address == Some(transmitter) && |log.topics| > 0
    requires log.topics[0] == "MessageSent(bytes)" && log.data.asBytes == Some(m.Encode())
    ensures var net := if m.feeExecuted > m.amount then 0 else m.amount - m.feeExecuted;
            FirstDecoded([log], CctpSent(transmitter)) ==
            if net <= 0xFFFF_FFFF_FFFF_FFFF then Some(DeliveredAmount(net, None, Some(m.sourceDomain))) else None
  {
    BurnLogDecodes(m, log, transmitter);
    hide DecodeCctpLog;
    assert [log][1..] == [];
  }

  /** The contract, the topics and the signature the source looks for. */
  predicate LooksRight(log: Log, source: DeliveredSource) {
    match source
    case ArbitrumTransfer(token, _) =>
      log.address == Some(token) && |log.topics| >= 3 && log.topics[0] == "Transfer(address,address,uint256)"
    case OftSent(oft) =>
      && log.address == Some(oft) && |log.topics| >= 3
      && log.topics[0] == "OFTSent(bytes32,uint32,address,uint256,uint256)"
    case CctpSent(transmitter) =>
      log.address == Some(transmitter) && |log.topics| >= 1 && log.topics[0] == "MessageSent(bytes)"
  }

  /** Nothing is taken from a log of another contract, of another event, or short of topics. */
  lemma OthersAreSkipped(log: Log, source: DeliveredSource)
    requires !LooksRight(log, source)
    ensures FirstDecoded([log], source).None?
  {
    assert [log][1..] == [];
  }
}
