/** What a claim commits to on chain: the drift check, the slippage floor, and the amounts each of the
    three delivery routes encodes (swap/reverse.rs). */
module Floors {
  import opened Wrappers
  import opened Arith
  import opened CctpFees

  /** The prepared swap's terms. `skipDrift` is a claim at the live quote, which the user asked for. */
  datatype Terms = Terms(expected: u64, slippageBps: nat, skipDrift: bool)

  datatype ClaimError = Arithmetic | BadSlippage | ZeroQuote | BelowMinimum | FeeTooHigh
                      | QuoteDegraded(expected: nat, quoted: nat)

  function SlippageMulDiv(amount: nat, numerator: nat): Result<nat, ClaimError> {
    if amount * numerator > U128_MAX then Err(Arithmetic) else Ok(amount * numerator / BPS)
  }

  function SlippageUp(amount: nat, bps: nat): Result<nat, ClaimError> {
    SlippageMulDiv(amount, Saturate(BPS + bps))
  }

  function SlippageDown(amount: nat, bps: nat): Result<nat, ClaimError> {
    if bps > BPS then Err(BadSlippage) else SlippageMulDiv(amount, BPS - bps)
  }

  /** `None` when the live quote is within tolerance. */
  function QuoteDrift(terms: Terms, quote: nat): Option<ClaimError> {
    match SlippageDown(terms.expected, terms.slippageBps)
    case Err(e) => Some(e)
    case Ok(threshold) =>
      if quote < threshold then Some(QuoteDegraded(terms.expected, Min(quote, U64_MAX))) else None
  }

  function ClaimFloor(terms: Terms, quote: nat): Result<nat, ClaimError> {
    SlippageDown(if terms.skipDrift then quote else terms.expected, terms.slippageBps)
  }

  /** The drift check and the floor, as every route runs them on what its quote would deliver. */
  function CheckedFloor(terms: Terms, quote: nat): Result<nat, ClaimError> {
    var drift := if terms.skipDrift then None else QuoteDrift(terms, quote);
    if drift.Some? then Err(drift.value)
    else
      match ClaimFloor(terms, quote)
      case Err(e) => Err(e)
      case Ok(floor) => if floor == 0 then Err(BelowMinimum) else Ok(floor)
  }

  /** The minimum a Direct claim makes the Router enforce. */
  function DirectPlan(terms: Terms, quote: nat): Result<nat, ClaimError> {
    if quote == 0 then Err(ZeroQuote) else CheckedFloor(terms, quote)
  }

  datatype CctpPlan = CctpPlan(maxFee: nat, minAmount: nat)

  function PlanCctp(terms: Terms, quote: nat, fee: CctpFee): Result<CctpPlan, ClaimError> {
    if quote == 0 then Err(ZeroQuote)
    else
      var maxFee := AddFeeBuffer(ComputeTotalFee(quote, fee));
      match CheckedFloor(terms, SaturatingSub(quote, maxFee))
      case Err(e) => Err(e)
      case Ok(floor) =>
        if floor + maxFee > U128_MAX then Err(Arithmetic) else Ok(CctpPlan(maxFee, floor + maxFee))
  }

  /** What the exchange and the bridge answer during an Oft claim: the first messaging fee, the tBTC
      price of a native amount, the trade's output, and what the bridge would deliver of it. */
  datatype OftQuotes = OftQuotes(nativeFee: nat, price: nat -> nat, trade: nat -> nat, receive: nat -> nat)

  datatype OftPlan = OftPlan(tradeTbtc: nat, feeTbtc: nat, nativeAsk: nat, minDelivered: nat)

  function PlanOft(terms: Terms, tbtc: nat, quotes: OftQuotes): Result<OftPlan, ClaimError> {
    if quotes.nativeFee > U128_MAX then Err(Arithmetic)
    else
      match SlippageUp(quotes.nativeFee, terms.slippageBps)
      case Err(e) => Err(e)
      case Ok(ask) =>
        var feeTbtc := quotes.price(ask);
        if tbtc <= feeTbtc then Err(FeeTooHigh)
        else
          var out := quotes.trade(tbtc - feeTbtc);
          if out == 0 then Err(ZeroQuote)
          else if quotes.receive(out) > U128_MAX then Err(Arithmetic)
          else
            match CheckedFloor(terms, quotes.receive(out))
            case Err(e) => Err(e)
            case Ok(floor) => Ok(OftPlan(tbtc - feeTbtc, feeTbtc, ask, floor))
  }

  // ----- what an accepted claim guarantees -----

  /** `amount` less the tolerance, rounded down. */
  function Kept(amount: nat, slippageBps: nat): nat
    requires slippageBps <= 10_000
  {
    var kept: nat := 10_000 - slippageBps;
    var scaled: nat := amount * kept;
    scaled / 10_000
  }

  /** The user's end-to-end promise. */
  function Promise(terms: Terms): nat
    requires terms.slippageBps <= 10_000
  {
    Kept(terms.expected, terms.slippageBps)
  }

  /** What a claim must deliver: the promise, or at the live quote that quote less the tolerance. */
  function Floor(terms: Terms, quote: nat): nat
    requires terms.slippageBps <= 10_000
  {
    if terms.skipDrift then Kept(quote, terms.slippageBps) else Promise(terms)
  }

  lemma PartOf(amount: nat, bps: nat)
    requires bps <= BPS
    ensures amount * (BPS - bps) / BPS <= amount
  {
    MulMono(BPS - bps, BPS, amount);
    FloorMono(amount * (BPS - bps), amount * BPS, BPS);
    FloorIs(amount * BPS, BPS, amount);
  }

  lemma ExpectedFits(terms: Terms)
    requires terms.slippageBps <= BPS
    ensures terms.expected * (BPS - terms.slippageBps) <= U128_MAX
  {
    MulMono(terms.expected, U64_MAX, BPS - terms.slippageBps);
    MulMono(BPS - terms.slippageBps, BPS, U64_MAX);
  }

  /** The floor is positive, never above what the live quote delivers, and with the drift check on it is
      the promise itself. */
  lemma FloorIsSoundAndAttainable(terms: Terms, quote: nat)
    requires CheckedFloor(terms, quote).Ok?
    ensures var floor := CheckedFloor(terms, quote).value;
            && terms.slippageBps <= BPS && 0 < floor <= quote
            && floor == Floor(terms, quote)
  {
    if terms.skipDrift { PartOf(quote, terms.slippageBps); }
  }

  /** A claim is refused exactly when the tolerance is no fraction, the drift check is on and the quote
      delivers less than the promise, or the floor is zero (or, at the live quote, does not fit). */
  lemma FloorRefusesExactly(terms: Terms, quote: nat)
    ensures CheckedFloor(terms, quote).Ok? <==>
            && terms.slippageBps <= BPS
            && (if terms.skipDrift then 10_000 <= quote * (10_000 - terms.slippageBps) <= U128_MAX
                else 0 < Promise(terms) <= quote)
  {
    if terms.slippageBps <= BPS {
      ExpectedFits(terms);
      FloorAtLeast(quote * (BPS - terms.slippageBps), BPS, 1);
    }
  }

  /** A quote below the promise is reported with both amounts. */
  lemma DegradedSaysBoth(terms: Terms, quote: nat)
    requires !terms.skipDrift && terms.slippageBps <= 10_000 && quote < Promise(terms)
    ensures CheckedFloor(terms, quote) == Err(QuoteDegraded(terms.expected, quote))
  {
    ExpectedFits(terms);
    PartOf(terms.expected, terms.slippageBps);
  }

  /** A direct claim is refused for nothing else, but for nothing at all it is said so. */
  lemma DirectRefusesLikeTheFloor(terms: Terms, quote: nat)
    ensures DirectPlan(terms, quote).Ok? <==> CheckedFloor(terms, quote).Ok?
    ensures DirectPlan(terms, quote) == Err(ZeroQuote) <==> quote == 0
  {
    if CheckedFloor(terms, quote).Ok? { FloorIsSoundAndAttainable(terms, quote); }
  }

  /** An Oft claim is refused exactly when an amount does not fit, the fee leg leaves nothing to trade, the
      trade yields nothing, or its delivery fails the floor. */
  lemma OftRefusesExactly(terms: Terms, tbtc: nat, quotes: OftQuotes)
    requires terms.slippageBps <= 10_000
    ensures var ask := quotes.nativeFee * (10_000 + terms.slippageBps) / 10_000;
            PlanOft(terms, tbtc, quotes).Ok? <==>
            && quotes.nativeFee <= U128_MAX && quotes.nativeFee * (10_000 + terms.slippageBps) <= U128_MAX
            && quotes.price(ask) < tbtc
            && var out := quotes.trade(tbtc - quotes.price(ask));
               out > 0 && quotes.receive(out) <= U128_MAX && CheckedFloor(terms, quotes.receive(out)).Ok?
  {
    hide CheckedFloor;
  }

  /** Direct: whatever output the Router lets through is at least the promise, and the live quote would
      get through. */
  lemma DirectDelivers(terms: Terms, quote: nat, out: nat)
    requires DirectPlan(terms, quote).Ok? && out >= DirectPlan(terms, quote).value
    ensures DirectPlan(terms, quote).value <= quote
    ensures terms.slippageBps <= BPS && DirectPlan(terms, quote).value == Floor(terms, quote)
    ensures !terms.skipDrift ==> out >= Promise(terms)
  {
    FloorIsSoundAndAttainable(terms, quote);
  }

  /** Cctp: any burn at or above the minimum, charged any fee up to the cap, delivers at least the promise;
      the minimum is within the live quote. */
  lemma CctpDelivers(terms: Terms, quote: nat, fee: CctpFee, burn: nat, charged: nat)
    requires PlanCctp(terms, quote, fee).Ok?
    requires var plan := PlanCctp(terms, quote, fee).value; burn >= plan.minAmount && charged <= plan.maxFee
    ensures PlanCctp(terms, quote, fee).value.minAmount <= quote
    ensures var plan := PlanCctp(terms, quote, fee).value;
            && plan.maxFee == AddFeeBuffer(ComputeTotalFee(quote, fee)) < quote && terms.slippageBps <= BPS
            && plan.minAmount == Floor(terms, quote - plan.maxFee) + plan.maxFee
    ensures terms.slippageBps <= BPS && burn > charged && (!terms.skipDrift ==> burn - charged >= Promise(terms))
  {
    hide CheckedFloor, ComputeTotalFee, AddFeeBuffer;
    FloorIsSoundAndAttainable(terms, SaturatingSub(quote, AddFeeBuffer(ComputeTotalFee(quote, fee))));
  }

  /** The final overflow check of the Cctp route never fires. */
  lemma CctpRefusesLikeTheFloor(terms: Terms, quote: u128, fee: CctpFee)
    ensures var net := SaturatingSub(quote, AddFeeBuffer(ComputeTotalFee(quote, fee)));
            PlanCctp(terms, quote, fee).Ok? <==> quote > 0 && CheckedFloor(terms, net).Ok?
  {
    hide CheckedFloor, ComputeTotalFee, AddFeeBuffer;
    var net := SaturatingSub(quote, AddFeeBuffer(ComputeTotalFee(quote, fee)));
    if CheckedFloor(terms, net).Ok? { FloorIsSoundAndAttainable(terms, net); }
  }

  /** The cap covers the quoted fee of every burn up to the quote, exactly while that fee is within a
      ten-thousandth of the 128-bit range. */
  lemma CapCoversQuotedFees(terms: Terms, quote: nat, fee: CctpFee)
    requires PlanCctp(terms, quote, fee).Ok?
    ensures (forall burn: nat | burn <= quote :: ComputeTotalFee(burn, fee) <= PlanCctp(terms, quote, fee).value.maxFee)
            <==> ComputeTotalFee(quote, fee) <= U128_MAX / 10_000
  {
    hide CheckedFloor, ComputeTotalFee, AddFeeBuffer;
    assert ComputeTotalFee(quote, fee) <= U128_MAX by { FeeFits(quote, fee); }
    BufferCovers(ComputeTotalFee(quote, fee));
    forall burn: nat | burn <= quote
      ensures ComputeTotalFee(burn, fee) <= ComputeTotalFee(quote, fee)
    {
      TotalFeeMono(burn, quote, fee);
    }
  }

  lemma FeeFits(amount: nat, fee: CctpFee)
    ensures ComputeTotalFee(amount, fee) <= U128_MAX
  {
  }

  /** So an accepted claim burning what was quoted can still be short on its cap, for an absurd fee. */
  lemma AbsurdFeeOutgrowsTheCap()
    ensures var fee, terms := CctpFee(0, 2 * (U128_MAX / BPS)), Terms(1_000_000, 100, false);
            && PlanCctp(terms, U128_MAX, fee).Ok?
            && PlanCctp(terms, U128_MAX, fee).value.maxFee < ComputeTotalFee(U128_MAX, fee)
  {
  }

  /** Oft: the two legs spend exactly the locked tBTC, the fee leg asks for at least the quoted messaging
      fee, the minimum is within what the live quote delivers, and any delivery at or above it keeps the
      promise. */
  lemma OftDelivers(terms: Terms, tbtc: nat, quotes: OftQuotes, delivered: nat)
    requires PlanOft(terms, tbtc, quotes).Ok?
    requires delivered >= PlanOft(terms, tbtc, quotes).value.minDelivered
    ensures var plan := PlanOft(terms, tbtc, quotes).value;
            && plan.tradeTbtc + plan.feeTbtc == tbtc && plan.tradeTbtc > 0
            && quotes.nativeFee <= plan.nativeAsk == quotes.nativeFee * (10_000 + terms.slippageBps) / 10_000
            && plan.feeTbtc == quotes.price(plan.nativeAsk)
            && 0 < plan.minDelivered <= quotes.receive(quotes.trade(plan.tradeTbtc))
            && terms.slippageBps <= BPS
            && plan.minDelivered == Floor(terms, quotes.receive(quotes.trade(plan.tradeTbtc)))
    ensures terms.slippageBps <= BPS && (!terms.skipDrift ==> delivered >= Promise(terms))
  {
    hide CheckedFloor, SlippageUp;
    var plan := PlanOft(terms, tbtc, quotes).value;
    FloorIsSoundAndAttainable(terms, quotes.receive(quotes.trade(plan.tradeTbtc)));
    UpIsEnough(quotes.nativeFee, terms.slippageBps);
  }

  lemma UpIsEnough(amount: nat, bps: nat)
    requires bps <= BPS && SlippageUp(amount, bps).Ok?
    ensures amount <= SlippageUp(amount, bps).value == amount * (BPS + bps) / BPS
  {
    MulMono(BPS, BPS + bps, amount);
    FloorAtLeast(amount * (BPS + bps), BPS, amount);
  }
}
