# BigBalls token program, modelled in Dafny

This project models the on-chain program `bigballs_token`, a fungible token with a
transfer tax, a transaction limit and a cooldown per holder. It has two state machines.

- The **configuration record** (`TokenConfig`). `initialize` creates it. It checks the
  marketing wallet, derives the supply and the limits from `decimals`, and sets the
  default fee schedule (200/150/100/50 basis points) and the cooldowns (300/1800/60 s).
  `set_trading_enabled` and `update_fees` change it, and only the stored authority may
  call them. `update_fees` also enforces a ceiling of 1000 basis points on the sum of
  the four rates.
- The **transfer engine** (`transfer`). It checks, in this order, the trading switch,
  the transaction limit and the sender's cooldown. It splits the amount with truncating
  basis-point arithmetic. It then makes two moves on the token ledger: the net amount
  to the recipient, then the marketing fee to the marketing account. Last, it updates
  the sender's holder record.

Layout, one module per file:

- `primitives.dfy` holds the integer widths (`U8`, `U16`, `U64`, `I64` as subset types)
  and the 32-byte `Pubkey` with its all-zero default.
- `errors.dfy` holds the program's error enum, the ledger's errors and a
  failure-compatible `Result`.
- `fees.dfy` holds the fee arithmetic as pure functions, with lemmas.
- `ledger.dfy` stands in for the external token ledger: a balance map, the pure
  `MoveValue` and a `TokenLedger` class whose `Move` updates the map in place.
- `holders.dfy` holds the `HolderState` record. A missing key reads as the zeroed
  record that `init_if_needed` would create. The `HolderRegistry` class owns the
  records.
- `config.dfy` holds the `TokenConfig` class, whose fields the instructions assign in
  place. `View()` gives its value. The pure functions `InitializeOutcome`,
  `SetTradingOutcome` and `UpdateFeesOutcome` state each instruction's result, and
  lemmas prove what the instructions promise.
- `transfer.dfy` holds the `Transfer` method over the three kinds of account. Its
  specification is the pure `TransferOutcome`, and lemmas state the check order, the
  fee bounds, the two ledger moves, the holder update and the cooldown after a transfer.

Modelling choices:

- Every instruction returns a `Result`. On failure no account changes, because the
  runtime discards a failed instruction's writes. `Transfer` writes the discard out: it
  restores the saved balances when a step after the first move fails.
- Checked arithmetic is assumed. A u64 operation that would overflow aborts the
  instruction, and the model reports it as `ArithmeticOverflow`. This covers:
  - the supply for more than 10 decimals;
  - the fee products;
  - `amount - total_fee`;
  - the holder counters.

  `FeeArithmeticNeverAborts` proves that under the configuration invariant only a
  holder counter at the top of its range can cause such an abort.
- The u16 sums of the four rates (lib.rs:102-103, lib.rs:193) are taken over unbounded
  integers, which assumes a build where u16 overflow panics rather than wraps. The i64
  addition in the cooldown check (lib.rs:97) is also taken over unbounded integers.
- The clock is the parameter `now`. The outcome of the mint creation (lib.rs:54-65) is
  the parameter `mintFailure` of `initialize`.
- The program does not compare the marketing token account of `transfer` with the
  stored `marketing_wallet` (lib.rs:236). So the model takes it as a separate
  `marketingAccount` parameter.
- Holder records are keyed by the sending token account (lib.rs:241).
- Two tests expect things the code does not do. `RoundingShortfallExample` shows that
  for an amount of 100 the component fees sum to 4 while the aggregate fee is 5, which
  contradicts the equality at tests.rs:884-885. `HundredthOfRangeOverLimit` shows that
  the amount `u64::MAX / 100` at tests.rs:830 always exceeds the transaction limit. So
  the success that tests.rs:871 expects cannot happen.

## Model

| member | source | states |
|---|---|---|
| `Fees.FeeAmount` | programs/bigballs_token/src/lib.rs:104-109 | the fee is the floor of `amount * bp / 10000` (fee·10000 ≤ amount·bp < (fee+1)·10000), and it is at most the amount when bp ≤ 10000 |
| `Fees.Split` | programs/bigballs_token/src/lib.rs:102-109 | the four component fees sum to at most the aggregate fee and fall short of it by at most 3; the aggregate is at most the amount when the rates total at most 10000 bp |
| `Fees.ProductsFit` | programs/bigballs_token/src/lib.rs:104-109 | with the rates within the 1000 bp ceiling and the amount within a limit whose thousandfold fits in u64, no fee product overflows u64 |
| `Ledger.MoveValueSucceedsIff` | programs/bigballs_token/src/lib.rs:112-137 | a ledger move succeeds exactly when the source holds enough and the destination has room (or is the source); otherwise it fails with the matching ledger error |
| `Ledger.MoveValueEffect` | programs/bigballs_token/src/lib.rs:112-137 | a successful move debits the source and credits the destination by the amount, conserves their combined balance and leaves every other account alone |
| `Ledger.TokenLedger.Move` | programs/bigballs_token/src/lib.rs:112-122 | the in-place move does what `MoveValue` says and leaves the balances unchanged on failure |
| `Holders.RecordedEffect` | programs/bigballs_token/src/lib.rs:140-142 | recording a transfer stamps `now`, adds one transfer and the gross amount, keeps `last_reflection_claim`, and aborts exactly when a u64 counter would overflow |
| `Holders.HolderRegistry.RecordTransfer` | programs/bigballs_token/src/lib.rs:139-142 | the sender's record is created if needed and replaced by the recorded one; nothing changes on overflow |
| `Config.SupplyFitsIff` | programs/bigballs_token/src/lib.rs:33 | the supply 10^9 · 10^decimals fits in u64 exactly when decimals ≤ 10 |
| `Config.ValidLimitFits` | programs/bigballs_token/src/lib.rs:39 | under the configuration invariant, a thousand times the transaction limit fits in u64 |
| `Config.HundredthOfRangeOverLimit` | programs/bigballs_token/src/lib.rs:39 | under the configuration invariant, `u64::MAX / 100` is above the transaction limit |
| `Config.InitializeRejectsDefaultWallet` | programs/bigballs_token/src/lib.rs:22-25 | `initialize` with the all-zero marketing wallet fails with `InvalidMarketingWallet` and produces no configuration |
| `Config.InitializeSucceedsIff` | programs/bigballs_token/src/lib.rs:22-65 | `initialize` succeeds exactly for a non-default wallet, at most 10 decimals and a successful mint creation, and otherwise fails with the error of the first failing step |
| `Config.InitializeDefaults` | programs/bigballs_token/src/lib.rs:30-51 | a new configuration has supply 10^9 · 10^decimals, limits supply/1000 and supply/100, trading off, fees 200/150/100/50 (sum 500), cooldowns 300/1800/60, and the caller as authority |
| `Config.InitializeEstablishesValid` | programs/bigballs_token/src/lib.rs:33-46 | a new configuration satisfies the invariant: fee sum ≤ 1000, derived supply and limits, non-default marketing wallet |
| `Config.SetTradingEffect` | programs/bigballs_token/src/lib.rs:167-171 | `set_trading_enabled` fails with `Unauthorized` exactly for a caller other than the authority; on success the switch takes the new value and no other field changes |
| `Config.SetTradingIdempotent` | programs/bigballs_token/src/lib.rs:171 | setting the switch twice to the same value equals setting it once |
| `Config.SetTradingPreservesValid` | programs/bigballs_token/src/lib.rs:167-171 | `set_trading_enabled` preserves the configuration invariant |
| `Config.UpdateFeesEffect` | programs/bigballs_token/src/lib.rs:187-200 | `update_fees` refuses a non-authority caller with `Unauthorized`, then a proposal summing over 1000 bp with `InvalidFeeConfiguration`, and otherwise replaces all four rates together and nothing else |
| `Config.UpdateFeesPreservesValid` | programs/bigballs_token/src/lib.rs:193-200 | the stored fee sum stays ≤ 1000, and the rest of the invariant holds, after every accepted update |
| `Config.UpdateFeesScenario` | programs/bigballs_token/src/tests.rs:458-531 | the authority's update to 300/100/50/50 is applied, and a later proposal of 500/300/200/100 is refused |
| `Config.TokenConfig.constructor` | programs/bigballs_token/src/lib.rs:30-51 | the field assignments give the record of a new configuration with the derived limits, default fees and cooldowns |
| `Config.TokenConfig.Initialize` | programs/bigballs_token/src/lib.rs:14-76 | the instruction returns a fresh configuration account whose value is `InitializeOutcome`, or that function's error |
| `Config.TokenConfig.SetTradingEnabled` | programs/bigballs_token/src/lib.rs:163-178 | the instruction leaves the account at `SetTradingOutcome`'s value, or unchanged with its error |
| `Config.TokenConfig.UpdateFees` | programs/bigballs_token/src/lib.rs:180-211 | the instruction leaves the account at `UpdateFeesOutcome`'s value, or unchanged with its error |
| `TransferEngine.Transfer` | programs/bigballs_token/src/lib.rs:78-161 | the instruction's receipt, holder records and balances are those of `TransferOutcome`; on any failure both the holder records and the balances are unchanged |
| `TransferEngine.TransferCheckOrder` | programs/bigballs_token/src/lib.rs:85-99 | the first violated check names the error, in the order `TradingNotEnabled`, `ExceedsMaxTransaction`, `CooldownNotElapsed`; success implies all three passed |
| `TransferEngine.FirstTransferPassesCooldown` | programs/bigballs_token/src/lib.rs:94-99 | a sender without a record passes the cooldown once the clock is past one cooldown period |
| `TransferEngine.FeeArithmeticNeverAborts` | programs/bigballs_token/src/lib.rs:102-121 | under the configuration invariant no fee product overflows and `amount - total_fee` never underflows; an arithmetic abort can only come from a holder counter |
| `TransferEngine.TransferReceiptBounds` | programs/bigballs_token/src/lib.rs:104-121 | the receipt's fees are the split of the amount, net + aggregate fee = amount, the components sum to at most the aggregate, and under the invariant the net is at least 90% of the gross |
| `TransferEngine.RoundingShortfallExample` | programs/bigballs_token/src/lib.rs:104-109 | for amount 100 at the default rates the aggregate fee is 5 and the components sum to 4 |
| `TransferEngine.DefaultSplitExample` | programs/bigballs_token/src/lib.rs:104-121 | for amount 1,000,000 at the default rates the fees are 50,000/20,000/15,000/10,000/5,000 and the net is 950,000 |
| `TransferEngine.TransferLedgerEffect` | programs/bigballs_token/src/lib.rs:111-137 | an accepted transfer moves exactly the net amount from the sender to the recipient and the marketing fee from the sender to the marketing account, whichever of the three accounts coincide; the sender keeps the other shares, net plus fee is at most the amount, and no other balance changes |
| `TransferEngine.TransferHolderEffect` | programs/bigballs_token/src/lib.rs:139-142 | an accepted transfer creates or updates only the sender's record: `last_transaction = now`, one more transfer, total plus the gross amount, reflection claim kept |
| `TransferEngine.ImmediateRetryFails` | programs/bigballs_token/src/lib.rs:94-99 | after an accepted transfer at `now`, a second one from the same sender at any `now2 < now + transaction_cooldown`, to any recipient, fails with `ExceedsMaxTransaction` when it is over the limit and with `CooldownNotElapsed` otherwise |
| `TransferEngine.EndToEndScenario` | programs/bigballs_token/src/tests.rs:721-793 | initialize with 9 decimals, enable trading and transfer 1,000,000 from a new holder: the recipient gains 950,000, the marketing account 15,000, the record counts 1 transfer of 1,000,000, and an immediate retry fails with `CooldownNotElapsed` (or `ExceedsMaxTransaction` when its amount is over the limit) |

## Left out

- Account plumbing (the `#[derive(Accounts)]` structs, PDA seeds, rent, payer) is host
  storage allocation and is not modelled.
- `Config.InitializeOutcome` puts no limit on the lengths of `name` and `symbol`. The
  program does: `space = 8 + TokenConfig::LEN` (lib.rs:216, lib.rs:300-301) reserves 32
  bytes for each string, and each is serialized with a 4-byte length prefix. So a name
  and symbol longer than 56 bytes together make `initialize` fail when the record is
  written. The model accepts them.
- The token ledger's own rules are reduced to `MoveValue`. These are the signer check
  on the `from` account, frozen accounts, and mint and owner matching. The ledger's
  code is not part of this model. Caller authorization for `transfer` is left to it,
  as in the program.
- Mint creation is reduced to its outcome. The mint account and its handle are not
  modelled.
- `emit!` events are not modelled. `Transfer` returns their payload as a `Receipt`
  (the net amount and the fees).
- `Clock::get()` becomes the `now` parameter. Its own failure is not modelled.
- `Config.UpdateFeesEffect`: the u16 sum at lib.rs:193 is taken over unbounded
  integers, as if u16 overflow panicked like the checked u64 arithmetic. On such a
  build a sum above 65535 aborts the transaction instead of returning
  `InvalidFeeConfiguration`, and the configuration is unchanged either way. On a build
  where u16 arithmetic wraps, a proposal such as (65535, 1, 0, 0) wraps to 0, is
  accepted and breaks the 1000 ceiling. The model does not cover that case.
- `TransferEngine.FeeArithmeticNeverAborts`: the u16 sum at lib.rs:102-103 is taken
  over unbounded integers too. Under the invariant it is at most 1000.
- `TransferEngine.TransferCheckOrder`: the i64 addition
  `last_transaction + transaction_cooldown` at lib.rs:97 is taken as non-overflowing.
- `max_wallet_amount`, `buy_cooldown` and `sell_cooldown` are stored but never
  checked, and `ExceedsMaxWallet`, `InvalidFeeCalculation` and `InvalidAmount` are
  never raised. The model stores and declares them and enforces nothing for them.
- The reflection, burn and dev fees are computed and reported but not moved. The
  model does the same.
- Concurrency and the serialization of holder records are left to the host. The
  program contains none.
- The test harnesses (tests.rs, bigballs_token.ts) are used only as hints, for the
  scenario lemmas.
