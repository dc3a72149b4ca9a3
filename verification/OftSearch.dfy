/** How much to send so that an OFT route delivers a target: a doubling and halving search over the
    bridge's own quote, or the closed form for the legacy mesh (swap/reverse.rs, evm/oft.rs). */
module OftSearch {
  import opened Wrappers
  import opened Arith
  import Fees

  const MAX_ATTEMPTS: nat := 32
  const LEGACY_MESH_FEE_BPS: nat := 3

  datatype Mesh = Native | Legacy

  datatype SearchError = NotOft | QuoteFailed | Overflow | NotFound

  /** A quote call for one route: the amount received, or an error. */
  type Oracle = nat -> Option<nat>

  /** Sending `amount` is quoted to deliver at least `target`. */
  predicate Reaches(quote: Oracle, amount: nat, target: nat) {
    quote(amount).Some? && quote(amount).value >= target
  }

  predicate FallsShort(quote: Oracle, amount: nat, target: nat) {
    quote(amount).Some? && quote(amount).value < target
  }

  function Doubled(amount: nat, times: nat): nat {
    if times == 0 then amount else 2 * Doubled(amount, times - 1)
  }

  function BitLength(n: nat): nat {
    if n == 0 then 0 else 1 + BitLength(n / 2)
  }

  lemma {:induction false} BitLengthMono(m: nat, n: nat)
    requires m <= n
    ensures BitLength(m) <= BitLength(n)
    decreases n
  {
    if m > 0 { BitLengthMono(m / 2, n / 2); }
  }

  lemma BitLengthHalves(n: nat)
    requires n > 0
    ensures BitLength(n) == 1 + BitLength(n / 2)
  {
  }

  /** The legacy closed form. */
  function LegacySourceAmount(target: nat): Option<nat> {
    var numerator := target * Fees.BPS;
    if numerator > U128_MAX then None
    else if numerator + (Fees.BPS - LEGACY_MESH_FEE_BPS - 1) > U128_MAX then None
    else Some((numerator + (Fees.BPS - LEGACY_MESH_FEE_BPS - 1)) / (Fees.BPS - LEGACY_MESH_FEE_BPS))
  }

  /** What is left of a legacy transfer after its three basis points. */
  function AfterLegacyFee(amount: nat): nat {
    amount * 9_997 / 10_000
  }

  /** An amount delivers at least the target exactly from the closed form on, and the closed form
      delivers it to the unit. */
  lemma LegacyIsExactAndLeast(target: nat, other: nat)
    requires LegacySourceAmount(target).Some?
    ensures var source := LegacySourceAmount(target).value;
            AfterLegacyFee(source) == target && (AfterLegacyFee(other) >= target <==> other >= source)
  {
    hide CeilDiv;
    CeilByBump(target * Fees.BPS, Fees.BPS - LEGACY_MESH_FEE_BPS);
    Fees.NetsExactly(target, LEGACY_MESH_FEE_BPS);
    Fees.NetsAtLeast(target, LEGACY_MESH_FEE_BPS, other);
  }

  /** It exists exactly while the scaled target with its ceiling bump fits 128 bits. */
  lemma LegacyExists(target: nat)
    ensures LegacySourceAmount(target).Some? <==> target * 10_000 + 9_996 <= U128_MAX
  {
  }

  /** The search's result on a native route: it delivers the target, one unit less would not (unless the
      target itself is already enough), and it was found in few quotes. */
  ghost predicate Found(quote: Oracle, target: nat, amount: nat, asked: nat) {
    && target <= amount <= U128_MAX
    && Reaches(quote, amount, target)
    && (amount == target || FallsShort(quote, amount - 1, target))
    && asked <= 33 + BitLength(amount)
  }

  /** The first `n` doublings and the target itself fall short. */
  ghost predicate AllShort(quote: Oracle, target: nat, n: nat) {
    forall k: nat | k <= n :: FallsShort(quote, Doubled(target, k), target)
  }

  /** The doublings ran out of 128 bits before one delivered the target. */
  ghost predicate OutOfRange(quote: Oracle, target: nat) {
    exists n: nat | n <= 32 :: AllShort(quote, target, n) && Doubled(target, n + 1) > U128_MAX
  }

  /** Below `low` nothing but the target was ruled out, and `low - 1` was. */
  predicate LowIsTight(quote: Oracle, target: nat, low: nat) {
    low >= target && (low == target || FallsShort(quote, low - 1, target))
  }

  /** Phase 1: double until the target is delivered. */
  method FindUpperBound(quote: Oracle, target: nat)
    returns (r: Result<(nat, nat), SearchError>, ghost asked: nat)
    requires 0 < target <= U128_MAX
    ensures asked <= 33
    ensures r.Ok? ==>
              var (low, high) := r.value;
              && low <= high <= U128_MAX && high - low <= low
              && LowIsTight(quote, target, low) && Reaches(quote, high, target)
    ensures r == Err(NotFound) ==> AllShort(quote, target, 32)
    ensures r == Err(Overflow) ==> OutOfRange(quote, target)
    ensures r == Err(QuoteFailed) ==> exists amount :: quote(amount).None?
    ensures r != Err(NotOft)
  {
    var low, high := target, target;
    var attempts := 0;
    asked := 0;
    while true
      invariant asked == attempts <= MAX_ATTEMPTS
      invariant high == Doubled(target, attempts) && high <= U128_MAX
      invariant forall k: nat | k < attempts :: FallsShort(quote, Doubled(target, k), target)
      invariant 0 <= low && LowIsTight(quote, target, low)
      invariant if attempts == 0 then low == high else 2 * (low - 1) == high
      decreases MAX_ATTEMPTS - attempts
    {
      asked := asked + 1;
      var received := quote(high);
      if received.None? { return Err(QuoteFailed), asked; }
      if received.value >= target { break; }
      assert AllShort(quote, target, attempts);
      assert 2 * high == Doubled(target, attempts + 1);
      if high + 1 > U128_MAX || high * 2 > U128_MAX { return Err(Overflow), asked; }
      low, high := high + 1, high * 2;
      attempts := attempts + 1;
      if attempts > MAX_ATTEMPTS { return Err(NotFound), asked; }
    }
    r := Ok((low, high));
  }

  /** Phase 2: halve the range that is left. */
  method NarrowDown(quote: Oracle, target: nat, start: nat, end: nat)
    returns (r: Result<nat, SearchError>, ghost asked: nat)
    requires start <= end && LowIsTight(quote, target, start) && Reaches(quote, end, target)
    ensures asked <= BitLength(end - start)
    ensures r.Ok? ==> start <= r.value <= end && LowIsTight(quote, target, r.value) && Reaches(quote, r.value, target)
    ensures r.Err? ==> r.error == QuoteFailed && exists amount :: quote(amount).None?
  {
    hide BitLength;
    var low, high := start, end;
    asked := 0;
    while low < high
      invariant start <= low <= high <= end
      invariant LowIsTight(quote, target, low) && Reaches(quote, high, target)
      invariant asked + BitLength(high - low) <= BitLength(end - start)
    {
      BitLengthHalves(high - low);
      var mid := low + (high - low) / 2;
      asked := asked + 1;
      var received := quote(mid);
      if received.None? { return Err(QuoteFailed), asked; }
      if received.value >= target {
        high := mid;
      } else {
        BitLengthMono(high - (mid + 1), (high - low) / 2);
        low := mid + 1;
      }
    }
    r := Ok(low);
  }

  /** `estimate_oft_required_send_amount`; a destination that is no OFT route has no mesh. */
  method EstimateRequiredSend(mesh: Option<Mesh>, quote: Oracle, target: nat)
    returns (r: Result<nat, SearchError>, ghost asked: nat)
    requires target <= U128_MAX
    ensures target == 0 ==> r == Ok(0)
    ensures target > 0 && mesh.None? ==> r == Err(NotOft)
    ensures target > 0 && mesh == Some(Legacy) ==>
              r == match LegacySourceAmount(target) case Some(source) => Ok(source) case None => Err(Overflow)
    ensures target > 0 && mesh == Some(Native) && r.Ok? ==> Found(quote, target, r.value, asked)
    ensures target > 0 && mesh == Some(Native) && r == Err(NotFound) ==> AllShort(quote, target, 32)
    ensures target > 0 && mesh == Some(Native) && r == Err(Overflow) ==> OutOfRange(quote, target)
    ensures target > 0 && mesh == Some(Native) && r == Err(QuoteFailed) ==> exists amount :: quote(amount).None?
  {
    asked := 0;
    if target == 0 { return Ok(0), asked; }
    if mesh.None? { return Err(NotOft), asked; }
    if mesh.value.Legacy? {
      var source := LegacySourceAmount(target);
      return if source.Some? then Ok(source.value) else Err(Overflow), asked;
    }
    var bounds;
    bounds, asked := FindUpperBound(quote, target);
    if bounds.Err? { return Err(bounds.error), asked; }
    var (low, high) := bounds.value;
    ghost var halvings;
    r, halvings := NarrowDown(quote, target, low, high);
    asked := asked + halvings;
    BitLengthMono(high - low, low);
    if r.Ok? { BitLengthMono(low, r.value); }
  }

  ghost predicate Monotone(quote: Oracle) {
    forall a: nat, b: nat | a <= b && quote(a).Some? && quote(b).Some? :: quote(a).value <= quote(b).value
  }

  /** For a monotone quote the result is the least amount at or above the target that delivers it. */
  lemma FoundIsLeast(quote: Oracle, target: nat, amount: nat, asked: nat, other: nat)
    requires Found(quote, target, amount, asked) && Monotone(quote)
    requires other >= target && Reaches(quote, other, target)
    ensures amount <= other
  {
  }
}
