/** The external token contracts: one honest ledger of balances per asset and holder. */
module Tokens {
  import opened Prelude

  /** Balances are never negative and fit the token's i128. */
  type Units = x: int | 0 <= x <= I128_MAX
  type Ledger = map<(Address, Address), Units>

  function Balance(t: Ledger, asset: Address, holder: Address): Units {
    if (asset, holder) in t then t[(asset, holder)] else 0
  }

  predicate CanTransfer(t: Ledger, asset: Address, from: Address, to: Address, amount: int) {
    && 0 <= amount <= Balance(t, asset, from)
    && (from == to || Balance(t, asset, to) + amount <= I128_MAX)
  }

  function Transfer(t: Ledger, asset: Address, from: Address, to: Address, amount: int): (t': Ledger)
    requires CanTransfer(t, asset, from, to, amount)
    ensures forall a, h ::
      Balance(t', a, h) == Balance(t, a, h)
                           - (if a == asset && h == from then amount else 0)
                           + (if a == asset && h == to then amount else 0)
  {
    if from == to then t
    else t[(asset, from) := Balance(t, asset, from) - amount][(asset, to) := Balance(t, asset, to) + amount]
  }

  /** What the issuer of an asset may add to a holder. */
  predicate CanMint(t: Ledger, asset: Address, to: Address, amount: int) {
    0 <= amount && Balance(t, asset, to) + amount <= I128_MAX
  }

  function Mint(t: Ledger, asset: Address, to: Address, amount: int): (t': Ledger)
    requires CanMint(t, asset, to, amount)
    ensures forall a, h ::
      Balance(t', a, h) == Balance(t, a, h) + (if a == asset && h == to then amount else 0)
  {
    t[(asset, to) := Balance(t, asset, to) + amount]
  }
}
