/**
 EIP-1559 fee arithmetic (crates/core/src/tx/fees.rs and the fee part of
 crates/core/src/tx/types.rs) in saturating 128-bit integers.
 */
module Fees {
  import opened Wrappers
  import opened Numbers

  const U128_MAX: nat := 0xFFFF_FFFF_FFFF_FFFF_FFFF_FFFF_FFFF_FFFF
  const PRECISION: nat := 1_000_000

  datatype Fees = Fees(maxFee: nat, priority: nat)

  function Saturate(a: nat): nat { Min(a, U128_MAX) }

  function DivCeil(a: nat, b: nat): nat
    requires b > 0
  {
    if a % b == 0 then a / b else a / b + 1
  }

  /** The estimated fee, raised to at least 10% above the previous one. */
  function BumpFee(estimate: nat, previous: nat): nat {
    Max(estimate, Saturate(previous + DivCeil(previous, 10)))
  }

  function Bump(estimate: Fees, previous: Option<Fees>): Fees {
    match previous
    case None => estimate
    case Some(p) => Fees(BumpFee(estimate.maxFee, p.maxFee), BumpFee(estimate.priority, p.priority))
  }

  function Quotient(a: nat, d: nat): nat
    requires d > 0
  {
    a / d
  }

  /** Caps the priority fee at `percent` millionths of the total fee. The rounding of the
      configured percentage to millionths is an input. */
  function CapPriorityFee(fees: Fees, percent: nat): Fees {
    if percent >= PRECISION then fees
    else
      var base := if fees.maxFee >= fees.priority then fees.maxFee - fees.priority else 0;
      var priority := Min(fees.priority, Quotient(Saturate(base * percent), PRECISION - percent));
      Fees(base + priority, priority)
  }

  /** Both components are 128-bit, and the priority fee is within the total fee. */
  predicate Proper(fees: Fees) {
    fees.priority <= fees.maxFee <= U128_MAX
  }

  // ---------------------------------------------------------------- growth

  function Pow(b: nat, n: nat): nat {
    if n == 0 then 1 else b * Pow(b, n - 1)
  }

  /** One recorded submission after another: proper, and both components raised by at least a
      tenth unless they have reached the 128-bit maximum. */
  predicate Raises(previous: Option<Fees>, next: Fees) {
    Proper(next)
    && (previous.Some? ==>
          && (next.maxFee >= U128_MAX || 10 * next.maxFee >= 11 * previous.value.maxFee)
          && (next.priority >= U128_MAX || 10 * next.priority >= 11 * previous.value.priority))
  }

  /** The recorded fees of one nonce, in order, above the floor they start from. */
  predicate Climbs(floor: Option<Fees>, recorded: seq<Fees>) {
    recorded == [] ||
    var k := |recorded| - 1;
    Climbs(floor, recorded[..k]) && Raises(Floor(floor, recorded[..k]), recorded[k])
  }

  function Floor(floor: Option<Fees>, recorded: seq<Fees>): Option<Fees> {
    if recorded == [] then floor else Some(recorded[|recorded| - 1])
  }

  lemma BumpFeeGrows(estimate: nat, previous: nat)
    ensures BumpFee(estimate, previous) >= U128_MAX || 10 * BumpFee(estimate, previous) >= 11 * previous
    ensures previous >= U128_MAX ==> BumpFee(estimate, previous) >= U128_MAX
  {
    assert 10 * DivCeil(previous, 10) >= previous;
  }

  lemma GrowthStep(powTen: nat, powEleven: nat, first: nat, previous: nat, next: nat)
    requires powTen * previous >= powEleven * first
    requires 10 * next >= 11 * previous
    ensures (10 * powTen) * next >= (11 * powEleven) * first
  {
    assert powTen * (10 * next) >= powTen * (11 * previous) by { Monotone(powTen, 11 * previous, 10 * next); }
    assert powTen * (11 * previous) == 11 * (powTen * previous);
    assert powTen * (10 * next) == (10 * powTen) * next;
    assert 11 * (powEleven * first) == (11 * powEleven) * first;
  }

  lemma Monotone(factor: nat, a: nat, b: nat)
    requires a <= b
    ensures factor * a <= factor * b
  {
  }

  /** After `k` more recorded submissions each fee component has grown by at least (11/10)^k,
      unless it has reached the 128-bit maximum. */
  lemma {:induction false} ClimbsGrow(first: Fees, recorded: seq<Fees>)
    requires Climbs(Some(first), recorded)
    ensures var last := Floor(Some(first), recorded).value;
            var k := |recorded|;
            && (last.maxFee >= U128_MAX || Pow(10, k) * last.maxFee >= Pow(11, k) * first.maxFee)
            && (last.priority >= U128_MAX || Pow(10, k) * last.priority >= Pow(11, k) * first.priority)
  {
    if recorded != [] {
      var k := |recorded| - 1;
      ClimbsGrow(first, recorded[..k]);
      var before := Floor(Some(first), recorded[..k]).value;
      var last := recorded[k];
      assert Raises(Some(before), last);
      if last.maxFee < U128_MAX {
        GrowthStep(Pow(10, k), Pow(11, k), first.maxFee, before.maxFee, last.maxFee);
      }
      if last.priority < U128_MAX {
        GrowthStep(Pow(10, k), Pow(11, k), first.priority, before.priority, last.priority);
      }
    }
  }

  /** A floor that starts with the first recorded fees. */
  lemma {:induction false} ClimbsFromFirst(recorded: seq<Fees>)
    requires recorded != [] && Climbs(None, recorded)
    ensures Proper(recorded[0]) && Climbs(Some(recorded[0]), recorded[1..])
    ensures Floor(Some(recorded[0]), recorded[1..]) == Floor(None, recorded)
  {
    var k := |recorded| - 1;
    if k > 0 {
      ClimbsFromFirst(recorded[..k]);
      assert recorded[1..][..k - 1] == recorded[..k][1..];
    }
  }

  lemma BumpFeeMonotone(estimate: nat, previous: nat, estimate': nat, previous': nat)
    requires estimate <= estimate' && previous <= previous'
    ensures BumpFee(estimate, previous) <= BumpFee(estimate', previous')
  {
    assert DivCeil(previous, 10) <= DivCeil(previous', 10);
  }

  /** A bumped estimate raises the floor, and keeps the priority fee within the total fee, as the
      Specification section of EIP-1559 requires. */
  lemma BumpRaises(estimate: Fees, previous: Option<Fees>)
    requires Proper(estimate) && (previous.Some? ==> Proper(previous.value))
    ensures Raises(previous, Bump(estimate, previous))
  {
    if previous.Some? {
      BumpFeeGrows(estimate.maxFee, previous.value.maxFee);
      BumpFeeGrows(estimate.priority, previous.value.priority);
      BumpFeeMonotone(estimate.priority, previous.value.priority, estimate.maxFee, previous.value.maxFee);
    }
  }

  /** No lower fee is at least the estimate and a tenth above the previous one. */
  lemma BumpIsLeast(estimate: nat, previous: nat, fee: nat)
    requires estimate <= fee && 11 * previous <= 10 * fee
    ensures BumpFee(estimate, previous) <= fee
  {
    assert 10 * (previous + DivCeil(previous, 10)) < 11 * previous + 10;
  }

  // ---------------------------------------------------------------- the cap

  lemma DivisionIsLargest(a: nat, d: nat, q: nat)
    requires d > 0
    ensures q * d <= a <==> q <= Quotient(a, d)
  {
    var r := a / d;
    assert r * d <= a < (r + 1) * d;
    if q <= r {
      Monotone(d, q, r);
    } else {
      Monotone(d, r + 1, q);
    }
  }

  /** The quotient is the largest priority fee that meets the ratio. */
  lemma RatioIff(base: nat, percent: nat, p: nat)
    requires percent < PRECISION
    ensures p * PRECISION <= percent * (base + p) <==> p <= Quotient(base * percent, PRECISION - percent)
  {
    DivisionIsLargest(base * percent, PRECISION - percent, p);
    Spread(base, percent, PRECISION - percent, p);
  }

  lemma Spread(base: nat, percent: nat, rest: nat, p: nat)
    ensures p * (rest + percent) == p * rest + p * percent
    ensures percent * (base + p) == base * percent + p * percent
  {
  }

  /** Below saturation, the cap keeps the base fee and picks the largest priority fee not above
      the estimate that is at most `percent` millionths of the total fee. */
  lemma CapIsLargest(fees: Fees, percent: nat)
    requires Proper(fees) && percent < PRECISION
    requires (fees.maxFee - fees.priority) * percent <= U128_MAX
    ensures var capped := CapPriorityFee(fees, percent);
            var base := fees.maxFee - fees.priority;
            && Proper(capped)
            && capped.maxFee - capped.priority == base
            && forall p: nat :: p <= capped.priority <==>
                 p <= fees.priority && p * PRECISION <= percent * (base + p)
  {
    var base := fees.maxFee - fees.priority;
    forall p: nat
      ensures p * PRECISION <= percent * (base + p) <==> p <= Quotient(base * percent, PRECISION - percent)
    {
      RatioIff(base, percent, p);
    }
  }

  /** For every estimate and cap the result fits in 128 bits, and never raises a component. */
  lemma CapNeverRaises(fees: Fees, percent: nat)
    requires fees.maxFee <= U128_MAX && fees.priority <= U128_MAX
    ensures var capped := CapPriorityFee(fees, percent);
            capped.priority <= fees.priority && capped.maxFee <= Max(fees.maxFee, fees.priority)
            && (fees.priority <= fees.maxFee ==> capped.maxFee <= fees.maxFee)
            && (percent >= PRECISION ==> capped == fees)
  {
    if percent < PRECISION && fees.maxFee < fees.priority {
      assert Saturate(0 * percent) == 0;
    }
  }
}
