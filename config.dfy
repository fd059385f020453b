/**
 * The token's configuration record: supply, limits, fee schedule, cooldowns,
 * the trading switch and the authority allowed to change them.
 */
module Config {
  import opened Primitives
  import opened Errors
  import opened Fees

  /** One billion whole tokens. */
  const BASE_SUPPLY: nat := 1_000_000_000

  /** The schedule set at creation: 2%, 1.5%, 1% and 0.5%. */
  const DEFAULT_FEES: FeeSchedule := FeeSchedule(200, 150, 100, 50)

  const DEFAULT_BUY_COOLDOWN: I64 := 300
  const DEFAULT_SELL_COOLDOWN: I64 := 1800
  const DEFAULT_TRANSACTION_COOLDOWN: I64 := 60

  /** The value of a configuration record, with the four fee fields grouped. */
  datatype ConfigView = ConfigView(
    name: string,
    symbol: string,
    decimals: U8,
    totalSupply: U64,
    tradingEnabled: bool,
    authority: Pubkey,
    marketingWallet: Pubkey,
    maxTransactionAmount: U64,
    maxWalletAmount: U64,
    fees: FeeSchedule,
    buyCooldown: I64,
    sellCooldown: I64,
    transactionCooldown: I64)

  /** Ten to the power `n`. */
  function Pow10(n: nat): nat {
    if n == 0 then 1 else 10 * Pow10(n - 1)
  }

  /** The raw supply for a number of decimals, before the u64 range is checked. */
  function SupplyFor(decimals: nat): nat {
    BASE_SUPPLY * Pow10(decimals)
  }

  lemma {:induction false} Pow10Monotone(m: nat, n: nat)
    requires m <= n
    ensures Pow10(m) <= Pow10(n)
  {
    if m < n {
      Pow10Monotone(m, n - 1);
    }
  }

  /** The supply fits in u64 exactly for at most 10 decimals. */
  lemma SupplyFitsIff(decimals: nat)
    ensures SupplyFor(decimals) <= U64_MAX <==> decimals <= 10
  {
    assert Pow10(10) == 10_000_000_000 by {
      assert Pow10(1) == 10;
      assert Pow10(2) == 100;
      assert Pow10(4) == 10_000;
      assert Pow10(6) == 1_000_000;
      assert Pow10(8) == 100_000_000;
    }
    if decimals <= 10 {
      Pow10Monotone(decimals, 10);
    } else {
      Pow10Monotone(11, decimals);
    }
  }

  /**
   * The invariant every reachable configuration keeps: the fee ceiling, the
   * supply and limits derived from the decimals, and a real marketing wallet.
   */
  ghost predicate Valid(c: ConfigView) {
    && WithinCeiling(c.fees)
    && c.totalSupply == SupplyFor(c.decimals)
    && c.maxTransactionAmount == c.totalSupply / 1000
    && c.maxWalletAmount == c.totalSupply / 100
    && c.marketingWallet != DEFAULT_KEY
  }

  /** Under the invariant, a thousand times the transaction limit still fits in u64. */
  lemma ValidLimitFits(c: ConfigView)
    requires Valid(c)
    ensures c.maxTransactionAmount * MAX_TOTAL_FEE_BP <= U64_MAX
  {
  }

  /** A u64 amount of a hundredth of the whole u64 range is always over the transaction limit. */
  lemma HundredthOfRangeOverLimit(c: ConfigView)
    requires Valid(c)
    ensures U64_MAX / 100 > c.maxTransactionAmount
  {
  }

  /** The single authorization guard of the privileged instructions. */
  function Authorize(c: ConfigView, caller: Pubkey): Result<()> {
    if caller == c.authority then Ok(()) else Err(Program(Unauthorized))
  }

  /**
   * `initialize`: validate the marketing wallet, derive supply and limits from
   * `decimals` (a supply outside u64 aborts), set the default schedule and
   * cooldowns, then request the mint; `mintFailure` is the ledger's answer.
   */
  function InitializeOutcome(name: string, symbol: string, decimals: U8, marketingWallet: Pubkey,
                             authority: Pubkey, mintFailure: Option<LedgerError>): Result<ConfigView>
  {
    if marketingWallet == DEFAULT_KEY then Err(Program(InvalidMarketingWallet))
    else if SupplyFor(decimals) > U64_MAX then Err(ArithmeticOverflow)
    else if mintFailure.Some? then Err(Ledger(mintFailure.value))
    else
      var supply := SupplyFor(decimals);
      Ok(ConfigView(name, symbol, decimals, supply, false, authority, marketingWallet,
                    supply / 1000, supply / 100, DEFAULT_FEES,
                    DEFAULT_BUY_COOLDOWN, DEFAULT_SELL_COOLDOWN, DEFAULT_TRANSACTION_COOLDOWN))
  }

  /** `set_trading_enabled`: the authority sets the switch, nothing else. */
  function SetTradingOutcome(c: ConfigView, caller: Pubkey, enabled: bool): Result<ConfigView> {
    var auth :- Authorize(c, caller);
    Ok(c.(tradingEnabled := enabled))
  }

  /** `update_fees`: the authority replaces the whole schedule if the proposal is within the ceiling. */
  function UpdateFeesOutcome(c: ConfigView, caller: Pubkey, proposed: FeeSchedule): Result<ConfigView> {
    var auth :- Authorize(c, caller);
    if TotalBp(proposed) > MAX_TOTAL_FEE_BP then Err(Program(InvalidFeeConfiguration))
    else Ok(c.(fees := proposed))
  }

  // ---------------------------------------------------------------- initialize

  /** The default key is refused before anything else is looked at, and no configuration results. */
  lemma InitializeRejectsDefaultWallet(name: string, symbol: string, decimals: U8, authority: Pubkey,
                                       mintFailure: Option<LedgerError>)
    ensures InitializeOutcome(name, symbol, decimals, DEFAULT_KEY, authority, mintFailure)
         == Err(Program(InvalidMarketingWallet))
  {
  }

  /**
   * `initialize` succeeds exactly for a non-default wallet, at most 10 decimals
   * and a mint the ledger creates; otherwise the first failing step names the error.
   */
  lemma InitializeSucceedsIff(name: string, symbol: string, decimals: U8, marketingWallet: Pubkey,
                              authority: Pubkey, mintFailure: Option<LedgerError>)
    ensures var r := InitializeOutcome(name, symbol, decimals, marketingWallet, authority, mintFailure);
      && (r.Ok? <==> marketingWallet != DEFAULT_KEY && decimals <= 10 && mintFailure.None?)
      && (marketingWallet != DEFAULT_KEY && decimals > 10 ==> r == Err(ArithmeticOverflow))
      && (marketingWallet != DEFAULT_KEY && decimals <= 10 && mintFailure.Some? ==>
            r == Err(Ledger(mintFailure.value)))
  {
    SupplyFitsIff(decimals);
  }

  /** What a fresh configuration holds. */
  lemma InitializeDefaults(name: string, symbol: string, decimals: U8, marketingWallet: Pubkey,
                           authority: Pubkey, mintFailure: Option<LedgerError>)
    requires InitializeOutcome(name, symbol, decimals, marketingWallet, authority, mintFailure).Ok?
    ensures var c := InitializeOutcome(name, symbol, decimals, marketingWallet, authority, mintFailure).value;
      && c.name == name && c.symbol == symbol && c.decimals == decimals
      && c.totalSupply == 1_000_000_000 * Pow10(decimals)
      && c.maxTransactionAmount == c.totalSupply / 1000
      && c.maxWalletAmount == c.totalSupply / 100
      && !c.tradingEnabled
      && c.fees == FeeSchedule(200, 150, 100, 50) && TotalBp(c.fees) == 500
      && c.buyCooldown == 300 && c.sellCooldown == 1800 && c.transactionCooldown == 60
      && c.authority == authority && c.marketingWallet == marketingWallet
  {
  }

  lemma InitializeEstablishesValid(name: string, symbol: string, decimals: U8, marketingWallet: Pubkey,
                                   authority: Pubkey, mintFailure: Option<LedgerError>)
    requires InitializeOutcome(name, symbol, decimals, marketingWallet, authority, mintFailure).Ok?
    ensures Valid(InitializeOutcome(name, symbol, decimals, marketingWallet, authority, mintFailure).value)
  {
  }

  // ---------------------------------------------------------------- set_trading_enabled

  /**
   * Only the authority may flip the switch; on success the switch takes the new
   * value and every other field is unchanged.
   */
  lemma SetTradingEffect(c: ConfigView, caller: Pubkey, enabled: bool)
    ensures SetTradingOutcome(c, caller, enabled).Err? <==> caller != c.authority
    ensures SetTradingOutcome(c, caller, enabled).Err? ==>
      SetTradingOutcome(c, caller, enabled).error == Program(Unauthorized)
    ensures SetTradingOutcome(c, caller, enabled).Ok? ==>
      var c' := SetTradingOutcome(c, caller, enabled).value;
      c'.tradingEnabled == enabled && c'.(tradingEnabled := c.tradingEnabled) == c
  {
  }

  /** Setting the same value twice is the same as setting it once. */
  lemma SetTradingIdempotent(c: ConfigView, caller: Pubkey, enabled: bool)
    requires SetTradingOutcome(c, caller, enabled).Ok?
    ensures SetTradingOutcome(SetTradingOutcome(c, caller, enabled).value, caller, enabled)
         == SetTradingOutcome(c, caller, enabled)
  {
  }

  lemma SetTradingPreservesValid(c: ConfigView, caller: Pubkey, enabled: bool)
    requires Valid(c)
    requires SetTradingOutcome(c, caller, enabled).Ok?
    ensures Valid(SetTradingOutcome(c, caller, enabled).value)
  {
  }

  // ---------------------------------------------------------------- update_fees

  /**
   * A non-authority caller is refused first; then a proposal above the ceiling
   * is refused; otherwise all four rates are replaced together and nothing else.
   */
  lemma UpdateFeesEffect(c: ConfigView, caller: Pubkey, proposed: FeeSchedule)
    ensures caller != c.authority ==> UpdateFeesOutcome(c, caller, proposed) == Err(Program(Unauthorized))
    ensures caller == c.authority && TotalBp(proposed) > MAX_TOTAL_FEE_BP ==>
      UpdateFeesOutcome(c, caller, proposed) == Err(Program(InvalidFeeConfiguration))
    ensures UpdateFeesOutcome(c, caller, proposed).Ok?
        <==> caller == c.authority && TotalBp(proposed) <= MAX_TOTAL_FEE_BP
    ensures UpdateFeesOutcome(c, caller, proposed).Ok? ==>
      var c' := UpdateFeesOutcome(c, caller, proposed).value;
      c'.fees == proposed && c'.(fees := c.fees) == c
  {
  }

  /** The fee ceiling, and the rest of the invariant, survive every accepted update. */
  lemma UpdateFeesPreservesValid(c: ConfigView, caller: Pubkey, proposed: FeeSchedule)
    requires Valid(c)
    requires UpdateFeesOutcome(c, caller, proposed).Ok?
    ensures Valid(UpdateFeesOutcome(c, caller, proposed).value)
  {
  }

  /** The authority's schedule of 500 bp is applied, and kept when a later proposal of 1100 bp is refused. */
  lemma UpdateFeesScenario(c: ConfigView)
    ensures UpdateFeesOutcome(c, c.authority, FeeSchedule(300, 100, 50, 50)).Ok?
    ensures var c1 := UpdateFeesOutcome(c, c.authority, FeeSchedule(300, 100, 50, 50)).value;
      && c1.fees == FeeSchedule(300, 100, 50, 50)
      && UpdateFeesOutcome(c1, c1.authority, FeeSchedule(500, 300, 200, 100))
           == Err(Program(InvalidFeeConfiguration))
  {
  }

  // ---------------------------------------------------------------- the account

  /** The configuration account, whose fields the instructions assign in place. */
  class TokenConfig {
    var name: string
    var symbol: string
    var decimals: U8
    var totalSupply: U64
    var tradingEnabled: bool
    var authority: Pubkey
    var marketingWallet: Pubkey
    var maxTransactionAmount: U64
    var maxWalletAmount: U64
    var reflectionFeeBp: U16
    var marketingFeeBp: U16
    var burnFeeBp: U16
    var devFeeBp: U16
    var buyCooldown: I64
    var sellCooldown: I64
    var transactionCooldown: I64

    function View(): ConfigView
      reads this
    {
      ConfigView(name, symbol, decimals, totalSupply, tradingEnabled, authority, marketingWallet,
                 maxTransactionAmount, maxWalletAmount,
                 FeeSchedule(reflectionFeeBp, marketingFeeBp, burnFeeBp, devFeeBp),
                 buyCooldown, sellCooldown, transactionCooldown)
    }

    /** `initialize`; on failure no configuration account exists. */
    static method Initialize(name: string, symbol: string, decimals: U8, marketingWallet: Pubkey,
                             authority: Pubkey, mintFailure: Option<LedgerError>)
      returns (r: Result<TokenConfig>)
      ensures var o := InitializeOutcome(name, symbol, decimals, marketingWallet, authority, mintFailure);
        && (o.Ok? ==> r.Ok? && fresh(r.value) && r.value.View() == o.value)
        && (o.Err? ==> r == Err(o.error))
    {
      if marketingWallet == DEFAULT_KEY {
        return Err(Program(InvalidMarketingWallet));
      }
      // `10u64.pow(decimals)` and the multiplication by one billion both abort
      // exactly when the product leaves the u64 range.
      var raw := BASE_SUPPLY * Pow10(decimals);
      if raw > U64_MAX {
        return Err(ArithmeticOverflow);
      }
      var config := new TokenConfig(name, symbol, decimals, raw, authority, marketingWallet);
      if mintFailure.Some? {
        return Err(Ledger(mintFailure.value));
      }
      r := Ok(config);
    }

    /** The field assignments of `initialize`: identity, derived limits, default schedule and cooldowns. */
    constructor (name: string, symbol: string, decimals: U8, supply: U64, authority: Pubkey,
                 marketingWallet: Pubkey)
      ensures View() == ConfigView(name, symbol, decimals, supply, false, authority, marketingWallet,
                                   supply / 1000, supply / 100, DEFAULT_FEES,
                                   DEFAULT_BUY_COOLDOWN, DEFAULT_SELL_COOLDOWN, DEFAULT_TRANSACTION_COOLDOWN)
    {
      this.name := name;
      this.symbol := symbol;
      this.decimals := decimals;
      totalSupply := supply;
      this.authority := authority;
      this.marketingWallet := marketingWallet;
      tradingEnabled := false;
      maxTransactionAmount := supply / 1000;
      maxWalletAmount := supply / 100;
      reflectionFeeBp := 200;
      marketingFeeBp := 150;
      burnFeeBp := 100;
      devFeeBp := 50;
      buyCooldown := 300;
      sellCooldown := 1800;
      transactionCooldown := 60;
    }

    /** `set_trading_enabled`. */
    method SetTradingEnabled(caller: Pubkey, enabled: bool) returns (r: Result<()>)
      modifies this
      ensures var o := SetTradingOutcome(old(View()), caller, enabled);
        && (o.Ok? ==> r == Ok(()) && View() == o.value)
        && (o.Err? ==> r == Err(o.error) && View() == old(View()))
    {
      var _ :- Authorize(View(), caller);
      tradingEnabled := enabled;
      r := Ok(());
    }

    /** `update_fees`. */
    method UpdateFees(caller: Pubkey, reflectionBp: U16, marketingBp: U16, burnBp: U16, devBp: U16)
      returns (r: Result<()>)
      modifies this
      ensures var o := UpdateFeesOutcome(old(View()), caller, FeeSchedule(reflectionBp, marketingBp, burnBp, devBp));
        && (o.Ok? ==> r == Ok(()) && View() == o.value)
        && (o.Err? ==> r == Err(o.error) && View() == old(View()))
    {
      var _ :- Authorize(View(), caller);
      var totalFeeBp := reflectionBp + marketingBp + burnBp + devBp;
      if totalFeeBp > MAX_TOTAL_FEE_BP {
        return Err(Program(InvalidFeeConfiguration));
      }
      reflectionFeeBp := reflectionBp;
      marketingFeeBp := marketingBp;
      burnFeeBp := burnBp;
      devFeeBp := devBp;
      r := Ok(());
    }
  }
}
