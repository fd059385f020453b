/**
 * The external token ledger the program delegates value movement to, reduced
 * to a map from token account to balance. An account that is not in the map
 * holds nothing.
 */
module Ledger {
  import opened Primitives
  import opened Errors

  type Balances = map<Pubkey, U64>

  function Balance(b: Balances, account: Pubkey): U64 {
    if account in b then b[account] else 0
  }

  /**
   * Moves `amount` from `source` to `dest`. Fails when the source holds too
   * little or the destination would overflow; a move to the same account
   * changes nothing.
   */
  function MoveValue(b: Balances, source: Pubkey, dest: Pubkey, amount: U64): (r: Result<Balances>)
  {
    if Balance(b, source) < amount then Err(Ledger(InsufficientFunds))
    else if source == dest then Ok(b)
    else if Balance(b, dest) + amount > U64_MAX then Err(Ledger(Overflow))
    else Ok(b[source := Balance(b, source) - amount][dest := Balance(b, dest) + amount])
  }

  /** A move succeeds exactly when the funds are there and the destination has room. */
  lemma MoveValueSucceedsIff(b: Balances, source: Pubkey, dest: Pubkey, amount: U64)
    ensures MoveValue(b, source, dest, amount).Ok?
        <==> Balance(b, source) >= amount && (source == dest || Balance(b, dest) + amount <= U64_MAX)
    ensures MoveValue(b, source, dest, amount).Err? ==>
        MoveValue(b, source, dest, amount).error
          == Ledger(if Balance(b, source) < amount then InsufficientFunds else Overflow)
  {
  }

  /**
   * A successful move debits the source and credits the destination by exactly
   * `amount`, so their combined balance is conserved, and no other account changes.
   */
  lemma MoveValueEffect(b: Balances, source: Pubkey, dest: Pubkey, amount: U64)
    requires MoveValue(b, source, dest, amount).Ok?
    ensures var b' := MoveValue(b, source, dest, amount).value;
      && (source != dest ==>
            Balance(b', source) == Balance(b, source) - amount && Balance(b', dest) == Balance(b, dest) + amount)
      && Balance(b', source) + Balance(b', dest) == Balance(b, source) + Balance(b, dest)
      && (forall k :: k != source && k != dest ==> Balance(b', k) == Balance(b, k))
  {
  }

  /** The ledger's state, updated in place by each move. */
  class TokenLedger {
    var balances: Balances

    constructor (initial: Balances)
      ensures balances == initial
    {
      balances := initial;
    }

    method Move(source: Pubkey, dest: Pubkey, amount: U64) returns (r: Result<()>)
      modifies this
      ensures MoveValue(old(balances), source, dest, amount).Ok? ==>
        r == Ok(()) && balances == MoveValue(old(balances), source, dest, amount).value
      ensures MoveValue(old(balances), source, dest, amount).Err? ==>
        r == Err(MoveValue(old(balances), source, dest, amount).error) && balances == old(balances)
    {
      var have := Balance(balances, source);
      if have < amount {
        return Err(Ledger(InsufficientFunds));
      }
      if source != dest {
        var room := Balance(balances, dest);
        if room + amount > U64_MAX {
          return Err(Ledger(Overflow));
        }
        balances := balances[source := have - amount];
        balances := balances[dest := room + amount];
      }
      r := Ok(());
    }
  }
}
