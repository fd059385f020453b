/**
 * The transfer instruction: trading switch, transaction limit and per-holder
 * cooldown checked in that order, fees split in basis points, the net amount
 * and the marketing fee moved on the token ledger, then the sender's record
 * updated. A failure at any step leaves every account as it was.
 */
module TransferEngine {
  import opened Primitives
  import opened Errors
  import opened Fees
  import opened Ledger
  import opened Holders
  import opened Config

  /** What the instruction reports: the net amount received and the five fee amounts. */
  datatype Receipt = Receipt(netAmount: nat, fees: FeeBreakdown)

  /** The accounts an accepted transfer leaves behind, with its receipt. */
  datatype Effect = Effect(receipt: Receipt, holders: map<Pubkey, HolderState>, balances: Balances)

  predicate CooldownElapsed(c: ConfigView, h: HolderState, now: I64) {
    now >= h.lastTransaction + c.transactionCooldown
  }

  /**
   * The transfer of gross `amount` from token account `source` to `dest`, with
   * the marketing fee paid to `marketingAccount`, at clock time `now`.
   */
  function TransferOutcome(c: ConfigView, holders: map<Pubkey, HolderState>, balances: Balances,
                           source: Pubkey, dest: Pubkey, marketingAccount: Pubkey,
                           amount: U64, now: I64): Result<Effect>
  {
    if !c.tradingEnabled then Err(Program(TradingNotEnabled))
    else if amount > c.maxTransactionAmount then Err(Program(ExceedsMaxTransaction))
    else if !CooldownElapsed(c, HolderOf(holders, source), now) then Err(Program(CooldownNotElapsed))
    // each component rate is at most the aggregate, so this is the widest product
    else if amount * TotalBp(c.fees) > U64_MAX then Err(ArithmeticOverflow)
    else
      var f := Split(amount, c.fees);
      if f.total > amount then Err(ArithmeticOverflow)
      else
        var afterNet :- MoveValue(balances, source, dest, amount - f.total);
        var afterFee :- if f.marketing > 0 then MoveValue(afterNet, source, marketingAccount, f.marketing)
                        else Ok(afterNet);
        var h :- Recorded(HolderOf(holders, source), amount, now);
        Ok(Effect(Receipt(amount - f.total, f), holders[source := h], afterFee))
  }

  /** The instruction itself, over the configuration, holder and ledger accounts. */
  method Transfer(config: TokenConfig, registry: HolderRegistry, ledger: TokenLedger,
                  source: Pubkey, dest: Pubkey, marketingAccount: Pubkey, amount: U64, now: I64)
    returns (r: Result<Receipt>)
    modifies registry, ledger
    ensures var o := TransferOutcome(config.View(), old(registry.records), old(ledger.balances),
                                     source, dest, marketingAccount, amount, now);
      && (o.Ok? ==> r == Ok(o.value.receipt)
                    && registry.records == o.value.holders && ledger.balances == o.value.balances)
      && (o.Err? ==> r == Err(o.error)
                     && registry.records == old(registry.records) && ledger.balances == old(ledger.balances))
  {
    ghost var c := config.View();
    if !config.tradingEnabled {
      return Err(Program(TradingNotEnabled));
    }
    if amount > config.maxTransactionAmount {
      return Err(Program(ExceedsMaxTransaction));
    }
    var holder := HolderOf(registry.records, source);
    if now < holder.lastTransaction + config.transactionCooldown {
      return Err(Program(CooldownNotElapsed));
    }

    var totalFeeBp := config.reflectionFeeBp + config.marketingFeeBp + config.burnFeeBp + config.devFeeBp;
    assert totalFeeBp == TotalBp(c.fees);
    if amount * totalFeeBp > U64_MAX {
      return Err(ArithmeticOverflow);
    }
    var totalFee := amount * totalFeeBp / BP_DENOMINATOR;
    var reflectionAmount := amount * config.reflectionFeeBp / BP_DENOMINATOR;
    var marketingAmount := amount * config.marketingFeeBp / BP_DENOMINATOR;
    var burnAmount := amount * config.burnFeeBp / BP_DENOMINATOR;
    var devAmount := amount * config.devFeeBp / BP_DENOMINATOR;
    var fees := FeeBreakdown(totalFee, reflectionAmount, marketingAmount, burnAmount, devAmount);
    assert fees == Split(amount, c.fees);
    if totalFee > amount {
      return Err(ArithmeticOverflow);
    }
    ChargedSteps(c, registry.records, ledger.balances, source, dest, marketingAccount, amount, now);

    // A failed instruction's writes are discarded by the runtime: `saved` restores them.
    var saved := ledger.balances;
    var moved := ledger.Move(source, dest, amount - totalFee);
    if moved.Err? {
      return Err(moved.error);
    }
    if marketingAmount > 0 {
      moved := ledger.Move(source, marketingAccount, marketingAmount);
      if moved.Err? {
        ledger.balances := saved;
        return Err(moved.error);
      }
    }
    var recorded := registry.RecordTransfer(source, amount, now);
    if recorded.Err? {
      ledger.balances := saved;
      return Err(recorded.error);
    }
    r := Ok(Receipt(amount - totalFee, fees));
  }

  /** Past the checks and the fee computation, the outcome is that of the two moves and the record update. */
  lemma ChargedSteps(c: ConfigView, holders: map<Pubkey, HolderState>, balances: Balances,
                     source: Pubkey, dest: Pubkey, marketingAccount: Pubkey, amount: U64, now: I64)
    requires c.tradingEnabled && amount <= c.maxTransactionAmount
    requires CooldownElapsed(c, HolderOf(holders, source), now)
    requires amount * TotalBp(c.fees) <= U64_MAX
    requires Split(amount, c.fees).total <= amount
    ensures var f := Split(amount, c.fees);
      var o := TransferOutcome(c, holders, balances, source, dest, marketingAccount, amount, now);
      var m1 := MoveValue(balances, source, dest, amount - f.total);
      && (m1.Err? ==> o == Err(m1.error))
      && (m1.Ok? && f.marketing > 0 && MoveValue(m1.value, source, marketingAccount, f.marketing).Err? ==>
            o == Err(MoveValue(m1.value, source, marketingAccount, f.marketing).error))
      && (m1.Ok? && (f.marketing == 0 || MoveValue(m1.value, source, marketingAccount, f.marketing).Ok?) ==>
            var b2 := if f.marketing > 0 then MoveValue(m1.value, source, marketingAccount, f.marketing).value
                      else m1.value;
            var rec := Recorded(HolderOf(holders, source), amount, now);
            && (rec.Err? ==> o == Err(rec.error))
            && (rec.Ok? ==> o == Ok(Effect(Receipt(amount - f.total, f), holders[source := rec.value], b2))))
  {
  }

  // ---------------------------------------------------------------- order of the checks

  /**
   * The checks run in a fixed order and the first violated one names the error:
   * trading switch, then transaction limit, then cooldown.
   */
  lemma TransferCheckOrder(c: ConfigView, holders: map<Pubkey, HolderState>, balances: Balances,
                           source: Pubkey, dest: Pubkey, marketingAccount: Pubkey, amount: U64, now: I64)
    ensures var o := TransferOutcome(c, holders, balances, source, dest, marketingAccount, amount, now);
      && (!c.tradingEnabled ==> o == Err(Program(TradingNotEnabled)))
      && (c.tradingEnabled && amount > c.maxTransactionAmount ==> o == Err(Program(ExceedsMaxTransaction)))
      && (c.tradingEnabled && amount <= c.maxTransactionAmount
          && now < HolderOf(holders, source).lastTransaction + c.transactionCooldown
          ==> o == Err(Program(CooldownNotElapsed)))
      && (o.Ok? ==> c.tradingEnabled && amount <= c.maxTransactionAmount
                    && CooldownElapsed(c, HolderOf(holders, source), now))
  {
  }

  /** A holder with no record yet passes the cooldown once the clock is past one cooldown period. */
  lemma FirstTransferPassesCooldown(c: ConfigView, holders: map<Pubkey, HolderState>, balances: Balances,
                                    source: Pubkey, dest: Pubkey, marketingAccount: Pubkey,
                                    amount: U64, now: I64)
    requires source !in holders
    requires now >= c.transactionCooldown
    ensures TransferOutcome(c, holders, balances, source, dest, marketingAccount, amount, now)
         != Err(Program(CooldownNotElapsed))
  {
  }

  // ---------------------------------------------------------------- fee arithmetic

  /**
   * Under the configuration invariant the fee arithmetic never aborts: an
   * arithmetic failure can only come from a holder counter at the top of its range.
   */
  lemma FeeArithmeticNeverAborts(c: ConfigView, holders: map<Pubkey, HolderState>, balances: Balances,
                                 source: Pubkey, dest: Pubkey, marketingAccount: Pubkey,
                                 amount: U64, now: I64)
    requires Valid(c)
    ensures TransferOutcome(c, holders, balances, source, dest, marketingAccount, amount, now)
         == Err(ArithmeticOverflow)
      ==> HolderOf(holders, source).totalTransactions == U64_MAX
          || HolderOf(holders, source).totalAmount + amount > U64_MAX
  {
    if c.tradingEnabled && amount <= c.maxTransactionAmount {
      ValidLimitFits(c);
      ProductsFit(amount, c.maxTransactionAmount, c.fees);
      RecordedEffect(HolderOf(holders, source), amount, now);
    }
  }

  /**
   * The receipt of an accepted transfer: the net amount and the aggregate fee
   * add up to the gross amount, the components never exceed the aggregate,
   * and under the invariant the net amount is at least 90% of the gross.
   */
  lemma TransferReceiptBounds(c: ConfigView, holders: map<Pubkey, HolderState>, balances: Balances,
                              source: Pubkey, dest: Pubkey, marketingAccount: Pubkey,
                              amount: U64, now: I64)
    requires TransferOutcome(c, holders, balances, source, dest, marketingAccount, amount, now).Ok?
    ensures var rc := TransferOutcome(c, holders, balances, source, dest, marketingAccount, amount, now).value.receipt;
      && rc.fees == Split(amount, c.fees)
      && rc.netAmount + rc.fees.total == amount
      && ComponentSum(rc.fees) <= rc.fees.total
      && (Valid(c) ==> rc.netAmount * 10 >= amount * 9)
  {
    var f := Split(amount, c.fees);
    if Valid(c) {
      MulMonotone(TotalBp(c.fees), MAX_TOTAL_FEE_BP, amount);
      assert f.total * BP_DENOMINATOR <= amount * MAX_TOTAL_FEE_BP;
    }
  }

  /** Truncation makes the components fall short of the aggregate: 4 against 5 for an amount of 100. */
  lemma RoundingShortfallExample()
    ensures Split(100, DEFAULT_FEES).total == 5
    ensures ComponentSum(Split(100, DEFAULT_FEES)) == 4
  {
  }

  /** At the default schedule, 1,000,000 yields a net 950,000 and a marketing fee of 15,000. */
  lemma DefaultSplitExample()
    ensures var f := Split(1_000_000, DEFAULT_FEES);
      && f == FeeBreakdown(50_000, 20_000, 15_000, 10_000, 5_000)
      && 1_000_000 - f.total == 950_000
  {
  }

  // ---------------------------------------------------------------- effects of an accepted transfer

  /**
   * An accepted transfer makes exactly two moves: the net amount from `source`
   * to `dest` and the marketing fee from `source` to `marketingAccount`; the
   * sender keeps the reflection, burn and dev shares, and nothing else changes.
   * The accounts need not be distinct: a move to the sender itself nets to zero.
   */
  lemma TransferLedgerEffect(c: ConfigView, holders: map<Pubkey, HolderState>, balances: Balances,
                             source: Pubkey, dest: Pubkey, marketingAccount: Pubkey,
                             amount: U64, now: I64)
    requires TransferOutcome(c, holders, balances, source, dest, marketingAccount, amount, now).Ok?
    ensures var e := TransferOutcome(c, holders, balances, source, dest, marketingAccount, amount, now).value;
      var net, fee := e.receipt.netAmount, e.receipt.fees.marketing;
      && net + fee <= amount
      && (forall k :: Balance(e.balances, k) == Balance(balances, k)
                                              - (if k == source then net + fee else 0)
                                              + (if k == dest then net else 0)
                                              + (if k == marketingAccount then fee else 0))
  {
    var f := Split(amount, c.fees);
    var afterNet := MoveValue(balances, source, dest, amount - f.total).value;
    MoveValueEffect(balances, source, dest, amount - f.total);
    if f.marketing > 0 {
      MoveValueEffect(afterNet, source, marketingAccount, f.marketing);
    }
  }

  /**
   * An accepted transfer creates or updates only the sender's record: it stamps
   * `now`, counts one more transfer, adds the gross amount and keeps the
   * reflection-claim field.
   */
  lemma TransferHolderEffect(c: ConfigView, holders: map<Pubkey, HolderState>, balances: Balances,
                             source: Pubkey, dest: Pubkey, marketingAccount: Pubkey,
                             amount: U64, now: I64)
    requires TransferOutcome(c, holders, balances, source, dest, marketingAccount, amount, now).Ok?
    ensures var e := TransferOutcome(c, holders, balances, source, dest, marketingAccount, amount, now).value;
      var before, after := HolderOf(holders, source), HolderOf(e.holders, source);
      && e.holders.Keys == holders.Keys + {source}
      && after.lastTransaction == now
      && after.totalTransactions == before.totalTransactions + 1
      && after.totalAmount == before.totalAmount + amount
      && after.lastReflectionClaim == before.lastReflectionClaim
      && (forall k :: k != source ==> HolderOf(e.holders, k) == HolderOf(holders, k))
  {
    RecordedEffect(HolderOf(holders, source), amount, now);
  }

  /**
   * After an accepted transfer at time `now`, a second one from the same
   * account at any time `now2` before the cooldown has run out is refused
   * whatever its destination: by the limit if it is over it, otherwise by the
   * cooldown.
   */
  lemma ImmediateRetryFails(c: ConfigView, holders: map<Pubkey, HolderState>, balances: Balances,
                            source: Pubkey, dest: Pubkey, marketingAccount: Pubkey, amount: U64, now: I64,
                            dest2: Pubkey, marketingAccount2: Pubkey, amount2: U64, now2: I64)
    requires now2 < now + c.transactionCooldown
    requires TransferOutcome(c, holders, balances, source, dest, marketingAccount, amount, now).Ok?
    ensures var e := TransferOutcome(c, holders, balances, source, dest, marketingAccount, amount, now).value;
      TransferOutcome(c, e.holders, e.balances, source, dest2, marketingAccount2, amount2, now2)
        == Err(Program(if amount2 > c.maxTransactionAmount then ExceedsMaxTransaction else CooldownNotElapsed))
  {
    TransferHolderEffect(c, holders, balances, source, dest, marketingAccount, amount, now);
  }

  // ---------------------------------------------------------------- end to end

  /**
   * Initialize with 9 decimals, enable trading, transfer 1,000,000 from a new
   * holder: the recipient gets 950,000, the marketing account 15,000, the
   * holder's record counts one transfer of 1,000,000, and an immediate second
   * transfer is refused for the cooldown.
   */
  lemma EndToEndScenario(wallet: Pubkey, authority: Pubkey, balances: Balances,
                         holder: Pubkey, dest: Pubkey, marketingAccount: Pubkey, now: I64, amount2: U64)
    requires wallet != DEFAULT_KEY
    requires holder != dest && holder != marketingAccount && dest != marketingAccount
    requires Balance(balances, holder) >= 1_000_000
    requires Balance(balances, dest) + 950_000 <= U64_MAX
    requires Balance(balances, marketingAccount) + 15_000 <= U64_MAX
    requires now >= 60
    ensures var c0 := InitializeOutcome("Big Balls", "BIGBALLS", 9, wallet, authority, None);
      c0.Ok? && SetTradingOutcome(c0.value, authority, true).Ok?
    ensures var c := SetTradingOutcome(
                       InitializeOutcome("Big Balls", "BIGBALLS", 9, wallet, authority, None).value,
                       authority, true).value;
      var o := TransferOutcome(c, map[], balances, holder, dest, marketingAccount, 1_000_000, now);
      && o.Ok?
      && o.value.receipt.netAmount == 950_000
      && Balance(o.value.balances, dest) == Balance(balances, dest) + 950_000
      && Balance(o.value.balances, marketingAccount) == Balance(balances, marketingAccount) + 15_000
      && HolderOf(o.value.holders, holder).totalTransactions == 1
      && HolderOf(o.value.holders, holder).totalAmount == 1_000_000
      && TransferOutcome(c, o.value.holders, o.value.balances, holder, dest, marketingAccount, amount2, now)
           == Err(Program(if amount2 > c.maxTransactionAmount then ExceedsMaxTransaction else CooldownNotElapsed))
  {
    var c0 := InitializeOutcome("Big Balls", "BIGBALLS", 9, wallet, authority, None);
    InitializeSucceedsIff("Big Balls", "BIGBALLS", 9, wallet, authority, None);
    InitializeDefaults("Big Balls", "BIGBALLS", 9, wallet, authority, None);
    var c := SetTradingOutcome(c0.value, authority, true).value;
    assert c.maxTransactionAmount == 1_000_000_000_000_000 by {
      assert Pow10(9) == 1_000_000_000 by {
        assert Pow10(3) == 1000;
        assert Pow10(6) == 1_000_000;
      }
    }
    DefaultSplitExample();
    var o := TransferOutcome(c, map[], balances, holder, dest, marketingAccount, 1_000_000, now);
    assert o.Ok?;
    TransferLedgerEffect(c, map[], balances, holder, dest, marketingAccount, 1_000_000, now);
    TransferHolderEffect(c, map[], balances, holder, dest, marketingAccount, 1_000_000, now);
    ImmediateRetryFails(c, map[], balances, holder, dest, marketingAccount, 1_000_000, now,
                        dest, marketingAccount, amount2, now);
  }
}
