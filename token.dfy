/**
 * The external token contract at the escrow's `currency` address, reduced
 * to what the escrow relies on: a balance per holder and a transfer that
 * moves an amount when the sender holds enough of it.
 */
module Token {
  import opened Types

  /** The balance of `who`; a holder the ledger has never credited holds 0. */
  function Bal(b: map<Address, nat>, who: Address): nat
  {
    if who in b then b[who] else 0
  }

  /** The balances after `amount` has moved from `from` to `to`. */
  function Moved(b: map<Address, nat>, from: Address, to: Address, amount: nat): (r: map<Address, nat>)
    requires amount <= Bal(b, from)
    ensures from != to ==> Bal(r, from) == Bal(b, from) - amount && Bal(r, to) == Bal(b, to) + amount
    ensures from == to ==> Bal(r, from) == Bal(b, from)
    ensures forall w :: w != from && w != to ==> Bal(r, w) == Bal(b, w)
  {
    var debited := b[from := Bal(b, from) - amount];
    debited[to := Bal(debited, to) + amount]
  }

  class Ledger {
    var balances: map<Address, nat>

    constructor (initial: map<Address, nat>)
      ensures balances == initial
    {
      balances := initial;
    }

    /** The ledger's `balance(id)` query. */
    function Balance(who: Address): (n: nat)
      reads this
      ensures who !in balances ==> n == 0
    {
      Bal(balances, who)
    }

    /**
     * The ledger's `xfer` (and `xfer_from`, allowances aside): succeeds
     * exactly when `from` holds at least `amount`, and then moves it.
     */
    method Transfer(from: Address, to: Address, amount: nat) returns (ok: bool)
      modifies this
      ensures ok <==> amount <= Bal(old(balances), from)
      ensures balances == if ok then Moved(old(balances), from, to, amount) else old(balances)
    {
      ok := amount <= Bal(balances, from);
      if ok {
        balances := Moved(balances, from, to, amount);
      }
    }
  }
}
