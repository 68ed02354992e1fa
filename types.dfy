/**
 * Values shared by the escrow contract and the token ledger it calls:
 * identities, the 32-bit amounts the contract stores, and the ways a call
 * can fail.
 */
module Types {

  const U32_MAX: int := 0xFFFF_FFFF

  /** The contract's `u32`: amounts and counters stored in contract storage. */
  newtype uint32 = x: int | 0 <= x <= U32_MAX

  /** An account on the ledger (a recipient, the admin or a depositor). */
  datatype AccountId = AccountId(key: nat)

  /** A deployed contract: the escrow itself or the token contract named by `currency`. */
  datatype ContractId = ContractId(hash: nat)

  /** Who invokes a call or holds a token balance. */
  datatype Address = Account(account: AccountId) | Contract(contract: ContractId)

  datatype Option<T> = None | Some(value: T)

  /**
   * Why a call was aborted. The first five are the contract's own error
   * enum; the rest are host-level panics the contract does not name.
   */
  datatype Error =
    | AlreadyInit
    | VaultUnderfunded
    | AmountAtLeast1
    | StateNotStarted
    | OnlyAdmin
    | EntryMissing    // `unwrap` of a storage entry that is absent
    | Overflow        // a `u32` addition that does not fit
    | TransferFailed  // the token contract refused a transfer

  /** Outcome of a call that returns nothing on success. */
  datatype Outcome = Ok | Fail(err: Error)

  /** Outcome of a call that returns a value on success. */
  datatype Result<T> = Success(value: T) | Failure(err: Error)

  /** The status code the host reports for a contract error; host panics carry none. */
  function Code(e: Error): (c: Option<uint32>)
    ensures c.Some? <==> !(e.EntryMissing? || e.Overflow? || e.TransferFailed?)
    ensures c.Some? ==> c.value <= 4
  {
    match e
    case AlreadyInit => Some(0)
    case VaultUnderfunded => Some(1)
    case AmountAtLeast1 => Some(2)
    case StateNotStarted => Some(3)
    case OnlyAdmin => Some(4)
    case _ => None
  }
}
