/** Circle's burn fee, its inverse, and the cap put on it (evm/cctp.rs). */
module CctpFees {
  import opened Wrappers
  import opened Arith

  /** Ten thousand basis points, each split into 10^9 units. */
  const DENOMINATOR: nat := 10_000_000_000_000
  const BPS: nat := 10_000
  const MAX_FEE_BUFFER_BPS: nat := 2

  datatype CctpFee = CctpFee(bpsUnits: u128, forwardFee: u128)

  function ComputeTotalFee(amount: nat, fee: CctpFee): nat {
    Saturate(Saturate(amount * fee.bpsUnits) / DENOMINATOR + fee.forwardFee)
  }

  function RequiredBurn(target: nat, fee: CctpFee): nat {
    var net := SaturatingSub(DENOMINATOR, fee.bpsUnits);
    if net == 0 then U128_MAX
    else Saturate(Saturate(Saturate(target + fee.forwardFee) * DENOMINATOR) + (net - 1)) / net
  }

  function AddFeeBuffer(amount: nat): nat {
    Saturate(Saturate(amount * (BPS + MAX_FEE_BUFFER_BPS)) + (BPS - 1)) / BPS
  }

  /** What arrives after the fee is taken from the burn. */
  function Delivered(burn: nat, fee: CctpFee): int {
    burn - ComputeTotalFee(burn, fee)
  }

  lemma SaturateMono(x: nat, y: nat)
    requires x <= y
    ensures Saturate(x) <= Saturate(y)
  {
  }

  lemma TotalFeeMono(a: nat, b: nat, fee: CctpFee)
    requires a <= b
    ensures ComputeTotalFee(a, fee) <= ComputeTotalFee(b, fee)
  {
    MulMono(a, b, fee.bpsUnits);
    SaturateMono(a * fee.bpsUnits, b * fee.bpsUnits);
    FloorMono(Saturate(a * fee.bpsUnits), Saturate(b * fee.bpsUnits), DENOMINATOR);
  }

  /** Wanting more never burns less, saturated or not. */
  lemma RequiredBurnMono(t: nat, u: nat, fee: CctpFee)
    requires t <= u
    ensures RequiredBurn(t, fee) <= RequiredBurn(u, fee)
  {
    var net := SaturatingSub(DENOMINATOR, fee.bpsUnits);
    if net > 0 {
      var x := Saturate(Saturate(t + fee.forwardFee) * DENOMINATOR) + (net - 1);
      var y := Saturate(Saturate(u + fee.forwardFee) * DENOMINATOR) + (net - 1);
      FloorMono(Saturate(x), Saturate(y), net);
    }
  }

  /** The scaled-up target with its ceiling bump stays inside 128 bits. */
  predicate Unsaturated(target: nat, fee: CctpFee) {
    && fee.bpsUnits < DENOMINATOR
    && (target + fee.forwardFee) * DENOMINATOR + (DENOMINATOR - fee.bpsUnits - 1) <= U128_MAX
  }

  lemma BurnBounds(target: nat, fee: CctpFee)
    requires Unsaturated(target, fee)
    ensures var base, net, burn := target + fee.forwardFee, DENOMINATOR - fee.bpsUnits, RequiredBurn(target, fee);
            base * DENOMINATOR <= burn * net < base * DENOMINATOR + net && burn <= U128_MAX
  {
    var base, net := target + fee.forwardFee, DENOMINATOR - fee.bpsUnits;
    var scaled := base * DENOMINATOR;
    assert RequiredBurn(target, fee) == (scaled + net - 1) / net;
    hide CeilDiv, RequiredBurn;
    CeilByBump(scaled, net);
    CeilBounds(scaled, net);
    FloorBounds(scaled + net - 1, net);
    MulMono(1, net, RequiredBurn(target, fee));
  }

  lemma ProtocolFeeBounds(burn: nat, base: nat, bps: nat, net: nat)
    requires bps + net == DENOMINATOR && net > 0
    requires base * DENOMINATOR <= burn * net < base * DENOMINATOR + net
    ensures base <= burn - burn * bps / DENOMINATOR <= base + 1
  {
    var fee := burn * bps / DENOMINATOR;
    FloorBounds(burn * bps, DENOMINATOR);
    assert burn * net + burn * bps == burn * DENOMINATOR;
    assert (burn - fee) * DENOMINATOR >= base * DENOMINATOR;
    assert (burn - fee) * DENOMINATOR < (base + 2) * DENOMINATOR;
  }

  /** Burning the computed amount delivers at least the target; and the target or one more, when the fee
      computation does not saturate either. */
  lemma BurnDeliversTarget(target: nat, fee: CctpFee)
    requires Unsaturated(target, fee)
    ensures var burn := RequiredBurn(target, fee);
            && Delivered(burn, fee) >= target
            && (burn * fee.bpsUnits <= U128_MAX ==> Delivered(burn, fee) <= target + 1)
  {
    hide RequiredBurn;
    var burn := RequiredBurn(target, fee);
    BurnBounds(target, fee);
    ProtocolFeeBounds(burn, target + fee.forwardFee, fee.bpsUnits, DENOMINATOR - fee.bpsUnits);
    FloorMono(Saturate(burn * fee.bpsUnits), burn * fee.bpsUnits, DENOMINATOR);
  }

  /** Outside saturation the cap is the fee and two basis points of it, rounded up. */
  lemma BufferIsTwoBps(fee: nat)
    requires fee * 10_002 + 10_000 <= U128_MAX
    ensures AddFeeBuffer(fee) == fee + CeilDiv(2 * fee, 10_000)
  {
    CeilByBump(fee * (BPS + MAX_FEE_BUFFER_BPS), BPS);
    CeilBounds(2 * fee, BPS);
    CeilBounds(fee * (BPS + MAX_FEE_BUFFER_BPS), BPS);
  }

  /** The cap covers the fee it was made from exactly while the fee is below a ten-thousandth of the
      128-bit range; above that the buffer saturates under it. */
  lemma BufferCovers(fee: u128)
    ensures AddFeeBuffer(fee) >= fee <==> fee <= U128_MAX / 10_000
  {
  }

  /** Outside saturation the fee is Circle's units of a basis point, of 10^13 to the whole, rounded down, and
      the flat forwarding fee. */
  lemma TotalFeeIs(amount: nat, fee: CctpFee)
    requires amount * fee.bpsUnits <= U128_MAX
    requires amount * fee.bpsUnits / 10_000_000_000_000 + fee.forwardFee <= U128_MAX
    ensures ComputeTotalFee(amount, fee) == amount * fee.bpsUnits / 10_000_000_000_000 + fee.forwardFee
  {
  }
}
