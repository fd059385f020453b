/**
 * Per-holder cooldown bookkeeping: one record per sending token account,
 * created zeroed the first time that account sends.
 */
module Holders {
  import opened Primitives
  import opened Errors

  datatype HolderState = HolderState(
    lastTransaction: I64,
    totalTransactions: U64,
    totalAmount: U64,
    lastReflectionClaim: I64)

  /** The record of a holder that has never sent. */
  const ZERO_HOLDER: HolderState := HolderState(0, 0, 0, 0)

  /** A missing key reads as the zeroed record it would be created as. */
  function HolderOf(m: map<Pubkey, HolderState>, holder: Pubkey): HolderState {
    if holder in m then m[holder] else ZERO_HOLDER
  }

  /**
   * The record after one accepted transfer of gross `amount` at time `now`;
   * a counter that would leave the u64 range aborts instead.
   */
  function Recorded(h: HolderState, amount: U64, now: I64): Result<HolderState> {
    if h.totalTransactions + 1 > U64_MAX || h.totalAmount + amount > U64_MAX then Err(ArithmeticOverflow)
    else Ok(h.(lastTransaction := now,
               totalTransactions := h.totalTransactions + 1,
               totalAmount := h.totalAmount + amount))
  }

  /**
   * Recording stamps the time, counts one more transfer and adds the gross
   * amount; the reflection-claim field is left as it was. It fails only when a
   * counter is already at the top of its range.
   */
  lemma RecordedEffect(h: HolderState, amount: U64, now: I64)
    ensures Recorded(h, amount, now).Err?
        <==> h.totalTransactions == U64_MAX || h.totalAmount + amount > U64_MAX
    ensures Recorded(h, amount, now).Ok? ==>
      var h' := Recorded(h, amount, now).value;
      && h'.lastTransaction == now
      && h'.totalTransactions == h.totalTransactions + 1
      && h'.totalAmount == h.totalAmount + amount
      && h'.lastReflectionClaim == h.lastReflectionClaim
  {
  }

  /** The holder-state accounts, keyed by the sending token account. */
  class HolderRegistry {
    var records: map<Pubkey, HolderState>

    constructor ()
      ensures records == map[]
    {
      records := map[];
    }

    /** Updates (creating it if needed) the sender's record for one accepted transfer. */
    method RecordTransfer(holder: Pubkey, amount: U64, now: I64) returns (r: Result<()>)
      modifies this
      ensures var o := Recorded(HolderOf(old(records), holder), amount, now);
        && (o.Ok? ==> r == Ok(()) && records == old(records)[holder := o.value])
        && (o.Err? ==> r == Err(o.error) && records == old(records))
    {
      var h := HolderOf(records, holder);
      if h.totalTransactions + 1 > U64_MAX || h.totalAmount + amount > U64_MAX {
        return Err(ArithmeticOverflow);
      }
      h := h.(lastTransaction := now);
      h := h.(totalTransactions := h.totalTransactions + 1);
      h := h.(totalAmount := h.totalAmount + amount);
      records := records[holder := h];
      r := Ok(());
    }
  }
}
