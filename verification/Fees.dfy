/** Boltz's fee: from a wanted on-chain amount to the invoice, and back (swap/reverse.rs). */
module Fees {
  import opened Wrappers
  import opened Arith

  const BPS: nat := 10_000

  datatype Pair = Pair(bps: u64, claim: u64, lockup: u64) {
    function MinerFees(): nat {
      claim + lockup
    }
  }

  datatype FeeCalc = FeeCalc(invoice: nat, boltzFee: nat, onchain: nat)

  datatype FeeError = InvalidPercentage | Overflow | TooSmall

  function Narrow(c: FeeCalc): Result<FeeCalc, FeeError> {
    if c.invoice <= U64_MAX && c.boltzFee <= U64_MAX && c.onchain <= U64_MAX then Ok(c) else Err(Overflow)
  }

  function ComputeInvoiceAmount(pair: Pair, sats: u64): Result<FeeCalc, FeeError> {
    var base := sats + pair.MinerFees();
    if pair.bps >= BPS then Err(InvalidPercentage)
    else if base * BPS > U128_MAX then Err(Overflow)
    else
      var invoice := CeilDiv(base * BPS, BPS - pair.bps);
      if invoice < base then Err(Overflow)
      else
        var fee := invoice - base;
        if invoice < fee + pair.MinerFees() then Err(Overflow)
        else Narrow(FeeCalc(invoice, fee, invoice - fee - pair.MinerFees()))
  }

  function ComputeOnchainAmount(pair: Pair, invoice: u64): Result<FeeCalc, FeeError> {
    if invoice * pair.bps > U128_MAX then Err(Overflow)
    else
      var fee := CeilDiv(invoice * pair.bps, BPS);
      if invoice < fee + pair.MinerFees() then Err(TooSmall)
      else Narrow(FeeCalc(invoice, fee, invoice - fee - pair.MinerFees()))
  }

  lemma ProductFits(x: nat, y: nat)
    requires x <= U64_MAX && y <= U64_MAX
    ensures x * y <= U128_MAX
  {
    MulMono(x, U64_MAX, y);
    MulMono(y, U64_MAX, U64_MAX);
  }

  /** What is left of an invoice after the rounded-up fee. */
  lemma NetOfFee(invoice: nat, bps: nat)
    requires bps <= BPS
    ensures CeilDiv(invoice * bps, BPS) <= invoice
    ensures invoice - CeilDiv(invoice * bps, BPS) == invoice * (BPS - bps) / BPS
  {
    var fee := CeilDiv(invoice * bps, BPS);
    assert invoice * (BPS - bps) == invoice * BPS - invoice * bps;
    CeilIs(invoice * bps, BPS, invoice);
    CeilBounds(invoice * bps, BPS);
    FloorIs(invoice * (BPS - bps), BPS, invoice - fee);
  }

  /** An invoice nets at least `base` exactly from the rounded-up inverse on. */
  lemma NetsAtLeast(base: nat, bps: nat, invoice: nat)
    requires bps < BPS
    ensures invoice * (BPS - bps) / BPS >= base <==> invoice >= CeilDiv(base * BPS, BPS - bps)
  {
    CeilIs(base * BPS, BPS - bps, invoice);
    FloorAtLeast(invoice * (BPS - bps), BPS, base);
  }

  /** That inverse nets `base` itself. */
  lemma NetsExactly(base: nat, bps: nat)
    requires bps < BPS
    ensures var least := CeilDiv(base * BPS, BPS - bps);
            least >= base && least * (BPS - bps) / BPS == base
  {
    hide CeilDiv;
    var keep, least := BPS - bps, CeilDiv(base * BPS, BPS - bps);
    CeilBounds(base * BPS, keep);
    FloorIs(least * keep, BPS, base);
    if least < base { MulMono(keep, BPS, least); }
  }

  /** The inverse exists exactly for a fee below 100% whose invoice fits 64 bits; every other guard in
      the computation is dead. */
  lemma InvoiceExists(pair: Pair, sats: u64)
    ensures ComputeInvoiceAmount(pair, sats).Ok? <==>
            pair.bps < 10_000 && (sats + pair.claim + pair.lockup) * 10_000 <= U64_MAX * (10_000 - pair.bps)
  {
    if pair.bps < BPS {
      var base := sats + pair.MinerFees();
      NetsExactly(base, pair.bps);
      CeilIs(base * BPS, BPS - pair.bps, U64_MAX);
    }
  }

  /** Going forward from the computed invoice gives the same invoice, the same Boltz fee and exactly the
      amount asked for. */
  lemma InvoiceIsExact(pair: Pair, sats: u64)
    requires ComputeInvoiceAmount(pair, sats).Ok?
    ensures var fees := ComputeInvoiceAmount(pair, sats).value;
            fees.onchain == sats && fees.invoice <= U64_MAX && ComputeOnchainAmount(pair, fees.invoice) == Ok(fees)
  {
    var base := sats + pair.MinerFees();
    var invoice := ComputeInvoiceAmount(pair, sats).value.invoice;
    NetsExactly(base, pair.bps);
    NetOfFee(invoice, pair.bps);
    ProductFits(invoice, pair.bps);
  }

  /** An invoice yields at least the amount exactly when it is at least the computed one. */
  lemma InvoiceIsLeast(pair: Pair, sats: u64, other: u64)
    requires ComputeInvoiceAmount(pair, sats).Ok?
    ensures var forward := ComputeOnchainAmount(pair, other);
            (forward.Ok? && forward.value.onchain >= sats)
            <==> other >= ComputeInvoiceAmount(pair, sats).value.invoice
  {
    NetsAtLeast(sats + pair.MinerFees(), pair.bps, other);
    NetOfFee(other, pair.bps);
    ProductFits(other, pair.bps);
  }

  /** Inverting a forward result never asks for more than the invoice it came from, for a fee below 100%;
      at 100% or more the only forward results are zero, and they have no inverse. */
  lemma InverseOfForward(pair: Pair, invoice: u64)
    requires ComputeOnchainAmount(pair, invoice).Ok?
    ensures var forward := ComputeOnchainAmount(pair, invoice).value;
            forward.onchain <= U64_MAX
            && var back := ComputeInvoiceAmount(pair, forward.onchain);
            if pair.bps < 10_000 then back.Ok? && back.value.invoice <= invoice && back.value.onchain == forward.onchain
            else forward.onchain == 0 && back == Err(InvalidPercentage)
  {
    if pair.bps < BPS {
      NetOfFee(invoice, pair.bps);
      var sats := ComputeOnchainAmount(pair, invoice).value.onchain;
      NetsAtLeast(sats + pair.MinerFees(), pair.bps, invoice);
      NetsExactly(sats + pair.MinerFees(), pair.bps);
      InvoiceExists(pair, sats);
    } else {
      MulMono(BPS, pair.bps, invoice);
      CeilIs(invoice * pair.bps, BPS, CeilDiv(invoice * pair.bps, BPS));
      MulLess(invoice, CeilDiv(invoice * pair.bps, BPS) + 1, BPS);
    }
  }

  /** Forward: the parts add up to the invoice, and Boltz's fee is its percentage, rounded up. */
  lemma FeesAddUp(pair: Pair, invoice: u64)
    requires ComputeOnchainAmount(pair, invoice).Ok?
    ensures var fees := ComputeOnchainAmount(pair, invoice).value;
            && fees.invoice == invoice == fees.onchain + fees.boltzFee + pair.claim + pair.lockup
            && invoice * pair.bps <= fees.boltzFee * 10_000 < invoice * pair.bps + 10_000
  {
    CeilBounds(invoice * pair.bps, BPS);
  }

  /** It exists exactly when the invoice covers all fees. */
  lemma OnchainExists(pair: Pair, invoice: u64)
    ensures ComputeOnchainAmount(pair, invoice).Ok? <==>
            if pair.bps <= 10_000 then (pair.claim + pair.lockup) * 10_000 <= invoice * (10_000 - pair.bps)
            else invoice == 0 && pair.claim + pair.lockup == 0
  {
    ProductFits(invoice, pair.bps);
    if pair.bps <= BPS {
      NetOfFee(invoice, pair.bps);
      FloorAtLeast(invoice * (BPS - pair.bps), BPS, pair.MinerFees());
    } else {
      MulMono(BPS + 1, pair.bps, invoice);
      CeilBounds(invoice * pair.bps, BPS);
    }
  }
}
