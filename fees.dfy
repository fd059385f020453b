/**
 * Basis-point fee arithmetic of the transfer path: every fee is
 * `amount * bp / 10000` with truncating division, computed independently
 * for the aggregate rate and for each of the four components.
 */
module Fees {
  import opened Primitives

  /** One basis point is 1/10000 of the amount. */
  const BP_DENOMINATOR: int := 10000

  /** Ceiling on the sum of the four rates (10%). */
  const MAX_TOTAL_FEE_BP: int := 1000

  datatype FeeSchedule = FeeSchedule(reflectionBp: U16, marketingBp: U16, burnBp: U16, devBp: U16)

  /** The aggregate rate, summed without wrap-around. */
  function TotalBp(s: FeeSchedule): nat {
    s.reflectionBp + s.marketingBp + s.burnBp + s.devBp
  }

  predicate WithinCeiling(s: FeeSchedule) {
    TotalBp(s) <= MAX_TOTAL_FEE_BP
  }

  /** The fee at rate `bp` on `amount`: the largest whole amount not above the exact share. */
  function FeeAmount(amount: nat, bp: nat): (fee: nat)
    ensures fee * BP_DENOMINATOR <= amount * bp < (fee + 1) * BP_DENOMINATOR
    ensures bp <= BP_DENOMINATOR ==> fee <= amount
  {
    var fee := amount * bp / BP_DENOMINATOR;
    assert bp <= BP_DENOMINATOR ==> fee <= amount by {
      if bp <= BP_DENOMINATOR {
        assert amount * bp <= amount * BP_DENOMINATOR;
      }
    }
    fee
  }

  /** The aggregate fee and the four component fees of one transfer. */
  datatype FeeBreakdown = FeeBreakdown(total: nat, reflection: nat, marketing: nat, burn: nat, dev: nat)

  function ComponentSum(f: FeeBreakdown): nat {
    f.reflection + f.marketing + f.burn + f.dev
  }

  /**
   * Splits `amount` by schedule `s`. The components, each truncated on its own,
   * never add up to more than the truncated aggregate, and fall short of it by at
   * most 3 (one unit lost per component).
   */
  function Split(amount: nat, s: FeeSchedule): (f: FeeBreakdown)
    ensures ComponentSum(f) <= f.total <= ComponentSum(f) + 3
    ensures TotalBp(s) <= BP_DENOMINATOR ==> f.total <= amount
    ensures f.marketing <= f.total
  {
    var f := FeeBreakdown(
      FeeAmount(amount, TotalBp(s)),
      FeeAmount(amount, s.reflectionBp),
      FeeAmount(amount, s.marketingBp),
      FeeAmount(amount, s.burnBp),
      FeeAmount(amount, s.devBp));
    assert amount * TotalBp(s)
        == amount * s.reflectionBp + amount * s.marketingBp + amount * s.burnBp + amount * s.devBp;
    f
  }

  /**
   * Within the ceiling and with `amount` at most `limit`, where `limit * 1000`
   * itself fits in u64, no product of the fee computation leaves the u64 range.
   */
  lemma ProductsFit(amount: nat, limit: nat, s: FeeSchedule)
    requires amount <= limit
    requires limit * MAX_TOTAL_FEE_BP <= U64_MAX
    requires WithinCeiling(s)
    ensures amount * TotalBp(s) <= U64_MAX
    ensures amount * s.reflectionBp <= U64_MAX && amount * s.marketingBp <= U64_MAX
    ensures amount * s.burnBp <= U64_MAX && amount * s.devBp <= U64_MAX
  {
    MulMonotone(amount, limit, TotalBp(s));
    MulMonotone(TotalBp(s), MAX_TOTAL_FEE_BP, limit);
    MulMonotone(s.reflectionBp, TotalBp(s), amount);
    MulMonotone(s.marketingBp, TotalBp(s), amount);
    MulMonotone(s.burnBp, TotalBp(s), amount);
    MulMonotone(s.devBp, TotalBp(s), amount);
  }

  lemma MulMonotone(a: nat, b: nat, k: nat)
    requires a <= b
    ensures a * k <= b * k && k * a <= k * b
  {
  }
}
