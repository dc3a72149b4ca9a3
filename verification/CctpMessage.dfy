/** The byte-offset readers for Circle CCTP v2 messages (evm/contracts.rs). */
module CctpMessage {
  import opened Wrappers

  const SOURCE_DOMAIN_OFFSET: nat := 4
  const NONCE_OFFSET: nat := 12
  const BODY_OFFSET: nat := 148
  const BURN_AMOUNT_OFFSET: nat := BODY_OFFSET + 68
  const BURN_FEE_OFFSET: nat := BODY_OFFSET + 164

  function BigEndian(bytes: seq<byte>): nat {
    if bytes == [] then 0 else BigEndian(bytes[..|bytes| - 1]) * 256 + bytes[|bytes| - 1]
  }

  /** `n` as exactly `width` big-endian bytes. */
  function ToBytes(n: nat, width: nat): (bytes: seq<byte>)
    ensures |bytes| == width
    decreases width
  {
    if width == 0 then [] else ToBytes(n / 256, width - 1) + [n % 256]
  }

  function Pow256(width: nat): (p: nat)
    ensures p > 0
  {
    if width == 0 then 1 else 256 * Pow256(width - 1)
  }

  /** Encoding a number that fits and reading it back gives the number. */
  lemma {:induction false} BytesRoundTrip(n: nat, width: nat)
    requires n < Pow256(width)
    ensures BigEndian(ToBytes(n, width)) == n
    decreases width
  {
    if width > 0 {
      var low := ToBytes(n / 256, width - 1);
      BytesRoundTrip(n / 256, width - 1);
      assert (low + [n % 256])[..width - 1] == low;
    }
  }

  /** `msg.get(offset..offset + width)`. */
  function Slice(msg: seq<byte>, offset: nat, width: nat): Option<seq<byte>> {
    if offset + width <= |msg| then Some(msg[offset..offset + width]) else None
  }

  function ReadUint(msg: seq<byte>, offset: nat, width: nat): Option<nat> {
    match Slice(msg, offset, width)
    case None => None
    case Some(bytes) => Some(BigEndian(bytes))
  }

  /** What the attested message says was minted: the burned amount less the executed fee. */
  function DeliveredFromMessage(msg: seq<byte>): Option<nat> {
    match (ReadUint(msg, BURN_AMOUNT_OFFSET, 32), ReadUint(msg, BURN_FEE_OFFSET, 32))
    case (Some(amount), Some(fee)) =>
      if fee > amount then None
      else if amount - fee <= U64_MAX then Some(amount - fee)
      else None
    case _ => None
  }

  function NonceFromMessage(msg: seq<byte>): Option<seq<byte>> {
    Slice(msg, NONCE_OFFSET, 32)
  }

  /** Fields of a MessageV2 carrying a BurnMessageV2, in wire order. */
  datatype BurnMessage = BurnMessage(
    version: seq<byte>, sourceDomain: nat, destinationDomain: seq<byte>, nonce: seq<byte>,
    sender: seq<byte>, recipient: seq<byte>, destinationCaller: seq<byte>,
    minFinality: seq<byte>, finalityExecuted: seq<byte>,
    bodyVersion: seq<byte>, burnToken: seq<byte>, mintRecipient: seq<byte>, amount: nat,
    messageSender: seq<byte>, maxFee: seq<byte>, feeExecuted: nat, expirationBlock: seq<byte>,
    hookData: seq<byte>)
  {
    ghost predicate WellSized() {
      && |version| == 4 && sourceDomain < Pow256(4) && |destinationDomain| == 4 && |nonce| == 32
      && |sender| == 32 && |recipient| == 32 && |destinationCaller| == 32
      && |minFinality| == 4 && |finalityExecuted| == 4
      && |bodyVersion| == 4 && |burnToken| == 32 && |mintRecipient| == 32 && amount < Pow256(32)
      && |messageSender| == 32 && |maxFee| == 32 && feeExecuted < Pow256(32)
      && |expirationBlock| == 32
    }

    function Header(): seq<byte> {
      version + ToBytes(sourceDomain, 4) + destinationDomain + nonce + sender + recipient
      + destinationCaller + minFinality + finalityExecuted
    }

    function Body(): seq<byte> {
      bodyVersion + burnToken + mintRecipient + ToBytes(amount, 32) + messageSender + maxFee
      + ToBytes(feeExecuted, 32) + expirationBlock + hookData
    }

    function Encode(): seq<byte> {
      Header() + Body()
    }
  }

  lemma BodyFieldsAt(m: BurnMessage)
    requires m.WellSized()
    ensures |m.Body()| >= 228
    ensures m.Body()[68..100] == ToBytes(m.amount, 32)
    ensures m.Body()[164..196] == ToBytes(m.feeExecuted, 32)
  {
    hide ToBytes;
    var before := m.bodyVersion + m.burnToken + m.mintRecipient;
    assert |before| == 68;
    var middle := before + ToBytes(m.amount, 32) + m.messageSender + m.maxFee;
    assert middle[68..100] == ToBytes(m.amount, 32);
    var full := middle + ToBytes(m.feeExecuted, 32) + m.expirationBlock + m.hookData;
    assert full[..164] == middle;
    assert full[68..100] == full[..164][68..100];
    assert m.Body() == full;
  }

  lemma HeaderFieldsAt(m: BurnMessage)
    requires m.WellSized()
    ensures |m.Header()| == BODY_OFFSET
    ensures m.Header()[4..8] == ToBytes(m.sourceDomain, 4)
    ensures m.Header()[12..44] == m.nonce
  {
    var front := m.version + ToBytes(m.sourceDomain, 4) + m.destinationDomain + m.nonce;
    assert front[4..8] == ToBytes(m.sourceDomain, 4);
    assert front[12..44] == m.nonce;
    var header := front + m.sender + m.recipient + m.destinationCaller + m.minFinality + m.finalityExecuted;
    assert header[..44] == front;
    assert header[4..8] == header[..44][4..8];
    assert header[12..44] == header[..44][12..44];
    assert m.Header() == header;
  }

  /** The offset readers recover every field the client uses, from any message laid out field by field. */
  lemma ReadersRecoverFields(m: BurnMessage)
    requires m.WellSized()
    ensures ReadUint(m.Encode(), SOURCE_DOMAIN_OFFSET, 4) == Some(m.sourceDomain)
    ensures ReadUint(m.Encode(), BURN_AMOUNT_OFFSET, 32) == Some(m.amount)
    ensures ReadUint(m.Encode(), BURN_FEE_OFFSET, 32) == Some(m.feeExecuted)
    ensures NonceFromMessage(m.Encode()) == Some(m.nonce)
  {
    hide BigEndian, ToBytes;
    HeaderFieldsAt(m);
    BodyFieldsAt(m);
    var msg := m.Encode();
    assert msg[..148] == m.Header() && msg[148..] == m.Body();
    assert msg[4..8] == msg[..148][4..8];
    assert msg[12..44] == msg[..148][12..44];
    assert msg[216..248] == msg[148..][68..100];
    assert msg[312..344] == msg[148..][164..196];
    BytesRoundTrip(m.sourceDomain, 4);
    BytesRoundTrip(m.amount, 32);
    BytesRoundTrip(m.feeExecuted, 32);
  }

  /** The attested amount is reported exactly when burn minus fee is non-negative and fits 64 bits. */
  lemma DeliveredIsBurnMinusFee(m: BurnMessage, delivered: nat)
    requires m.WellSized()
    ensures DeliveredFromMessage(m.Encode()) == Some(delivered)
       <==> delivered + m.feeExecuted == m.amount && delivered <= U64_MAX
  {
    hide ReadUint, Slice, BigEndian, ToBytes;
    ReadersRecoverFields(m);
  }
}
