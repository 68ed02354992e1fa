/**
 * The mass-payout escrow contract: an admin registers recipients and the
 * amount owed to each, anyone deposits tokens into the contract, and the
 * admin triggers one payout that pays every recipient its amount in
 * registration order, provided the contract holds enough.
 */
module MassPayout {
  import opened Types
  import opened Token
  import opened Registry

  /** The contract's `State` record, stored under the `STATE` key. */
  datatype State = State(admin: Address, currency: ContractId, totalAcct: uint32, totalAmnt: uint32)

  /** What `set_acc` would produce in a `u32` that does not fit. */
  ghost predicate Overflows(st: State, m: map<AccountId, uint32>, account: AccountId, amount: uint32)
  {
    if account in m then st.totalAmnt as int - m[account] as int + amount as int > U32_MAX
    else st.totalAcct as int + 1 > U32_MAX || st.totalAmnt as int + amount as int > U32_MAX
  }

  class MassPayoutContract {
    /** The contract's own address on the ledger (`env.current_contract()`). */
    const id: ContractId
    /** The `STATE` entry; `None` until `initialize` has run. */
    var state: Option<State>
    /** The `PUB_KEYS` entry: recipients in the order they were first registered. */
    var recipients: seq<AccountId>
    /** One storage entry per recipient: the amount it is paid on each payout. */
    var amounts: map<AccountId, uint32>

    /**
     * The contract's invariant: nothing is stored before initialization;
     * the registry is consistent; `total_acct` counts the recipients and
     * `total_amnt` is the sum of their amounts.
     */
    ghost predicate Valid()
      reads this
    {
      && (state.None? ==> recipients == [] && amounts == map[])
      && Consistent(recipients, amounts)
      && (state.Some? ==>
            && state.value.totalAcct as int == |recipients|
            && state.value.totalAmnt as int == Total(recipients, amounts))
    }

    /** A freshly deployed contract, before `initialize`. */
    constructor (id: ContractId)
      ensures Valid()
      ensures this.id == id && state.None? && recipients == [] && amounts == map[]
    {
      this.id := id;
      state := None;
      recipients := [];
      amounts := map[];
    }

    /** One-shot set-up: fails with `AlreadyInit` on a second call and then changes nothing. */
    method Initialize(admin: Address, currency: ContractId) returns (r: Outcome)
      requires Valid()
      modifies this
      ensures Valid()
      ensures r == Ok <==> old(state).None?
      ensures r == Ok ==> state == Some(State(admin, currency, 0, 0)) && recipients == [] && amounts == map[]
      ensures r != Ok ==> r == Fail(AlreadyInit)
      ensures r != Ok ==> state == old(state) && recipients == old(recipients) && amounts == old(amounts)
    {
      if state.Some? {
        return Fail(AlreadyInit);
      }
      state := Some(State(admin, currency, 0, 0));
      recipients := [];
      r := Ok;
    }

    /** `init_done`: the guard every other operation runs first. */
    function InitDone(): (r: Outcome)
      reads this
      ensures r == Ok <==> state.Some?
      ensures r != Ok ==> r == Fail(StateNotStarted)
    {
      if state.None? then Fail(StateNotStarted) else Ok
    }

    /**
     * `is_admin`: only the stored admin passes; reading the state before
     * `initialize` is an `unwrap` panic.
     */
    function IsAdmin(invoker: Address): (r: Outcome)
      reads this
      ensures r == Ok <==> state.Some? && invoker == state.value.admin
      ensures state.None? ==> r == Fail(EntryMissing)
      ensures state.Some? && invoker != state.value.admin ==> r == Fail(OnlyAdmin)
    {
      if state.None? then Fail(EntryMissing)
      else if invoker != state.value.admin then Fail(OnlyAdmin)
      else Ok
    }

    /**
     * `get_state`: the stored record, whose counters agree with the
     * registry; before `initialize` the `unwrap` panics.
     */
    function GetState(): (r: Result<State>)
      requires Valid()
      reads this
      ensures r.Success? <==> state.Some?
      ensures r.Failure? ==> r.err == EntryMissing
      ensures r.Success? ==> r.value == state.value
      ensures r.Success? ==> r.value.totalAcct as int == |amounts| == |recipients|
      ensures r.Success? ==> r.value.totalAmnt as int == Total(recipients, amounts)
    {
      RegistrySize(recipients, amounts);
      if state.None? then Failure(EntryMissing) else Success(state.value)
    }

    /**
     * `get_acc`: succeeds exactly for recipients in the payout list, with
     * their (non-zero) amount; any other account is an `unwrap` panic.
     */
    function GetAcc(account: AccountId): (r: Result<uint32>)
      requires Valid()
      reads this
      ensures r.Success? <==> account in recipients
      ensures r.Failure? ==> r.err == EntryMissing
      ensures r.Success? ==> r.value == amounts[account] && r.value >= 1
    {
      if account in amounts then Success(amounts[account]) else Failure(EntryMissing)
    }

    /**
     * `get_recipients`: the `PUB_KEYS` list, which names every account
     * with a stored amount exactly once; absent before `initialize`.
     */
    function GetRecipients(): (r: Result<seq<AccountId>>)
      requires Valid()
      reads this
      ensures r.Success? <==> state.Some?
      ensures r.Failure? ==> r.err == EntryMissing
      ensures r.Success? ==> r.value == recipients
      ensures r.Success? ==> NoDuplicates(r.value) && forall a :: a in r.value <==> a in amounts
    {
      if state.None? then Failure(EntryMissing) else Success(recipients)
    }

    /** `add_recipient`: appends to the `PUB_KEYS` list. */
    method AddRecipient(account: AccountId)
      modifies this`recipients
      ensures recipients == old(recipients) + [account]
    {
      recipients := recipients + [account];
    }

    /**
     * `set_acc`: registers `account` with `amount`, or replaces its
     * amount, keeping both totals and the list in step with the map. The
     * guards run in the source's order and a failure writes nothing.
     */
    method SetAcc(invoker: Address, account: AccountId, amount: uint32) returns (r: Outcome)
      requires Valid()
      modifies this
      ensures Valid()
      ensures old(state).None? ==> r == Fail(StateNotStarted)
      ensures old(state).Some? && invoker != old(state).value.admin ==> r == Fail(OnlyAdmin)
      ensures old(state).Some? && invoker == old(state).value.admin && amount == 0 ==> r == Fail(AmountAtLeast1)
      ensures r == Fail(Overflow) <==>
                old(state).Some? && invoker == old(state).value.admin && amount >= 1
                && Overflows(old(state).value, old(amounts), account, amount)
      ensures r == Ok <==>
                old(state).Some? && invoker == old(state).value.admin && amount >= 1
                && !Overflows(old(state).value, old(amounts), account, amount)
      ensures r != Ok ==> state == old(state) && recipients == old(recipients) && amounts == old(amounts)
      // On success the account holds `amount` and every other entry is as it was.
      ensures r == Ok ==> amounts == old(amounts)[account := amount]
      ensures r == Ok ==> state.Some? && state.value.admin == old(state).value.admin
                          && state.value.currency == old(state).value.currency
      // Update of a registered account: amount total shifts, count and list stay.
      ensures r == Ok && account in old(amounts) ==>
                && recipients == old(recipients)
                && state.value.totalAcct == old(state).value.totalAcct
                && state.value.totalAmnt as int
                   == old(state).value.totalAmnt as int - old(amounts)[account] as int + amount as int
      // Insert of a new account: appended at the end, both totals grow.
      ensures r == Ok && account !in old(amounts) ==>
                && recipients == old(recipients) + [account]
                && state.value.totalAcct as int == old(state).value.totalAcct as int + 1
                && state.value.totalAmnt as int == old(state).value.totalAmnt as int + amount as int
    {
      r := InitDone();
      if r.Fail? {
        return;
      }
      r := IsAdmin(invoker);
      if r.Fail? {
        return;
      }
      if amount == 0 {
        return Fail(AmountAtLeast1);
      }
      var st := state.value;
      if account in amounts {
        var current := amounts[account];
        UpdateConsistent(recipients, amounts, account, amount);
        // `total_amnt - current_amount` cannot underflow: the amount is part of the sum.
        var rest: uint32 := st.totalAmnt - current;
        if rest as int + amount as int > U32_MAX {
          return Fail(Overflow);
        }
        st := st.(totalAmnt := rest + amount);
      } else {
        if st.totalAcct as int + 1 > U32_MAX || st.totalAmnt as int + amount as int > U32_MAX {
          return Fail(Overflow);
        }
        InsertConsistent(recipients, amounts, account, amount);
        AddRecipient(account);
        st := st.(totalAcct := st.totalAcct + 1, totalAmnt := st.totalAmnt + amount);
      }
      amounts := amounts[account := amount];
      state := Some(st);
      r := Ok;
    }

    /**
     * `deposit`: anyone moves `amount` tokens from their own balance into
     * the contract's; the contract's storage is untouched.
     */
    method Deposit(invoker: Address, amount: uint32, token: Ledger) returns (r: Outcome)
      requires Valid()
      modifies token
      ensures unchanged(this)
      ensures state.None? ==> r == Fail(StateNotStarted)
      ensures r == Ok <==> state.Some? && amount as nat <= Bal(old(token.balances), invoker)
      ensures state.Some? && amount as nat > Bal(old(token.balances), invoker) ==> r == Fail(TransferFailed)
      ensures r == Ok ==> token.balances == Moved(old(token.balances), invoker, Contract(id), amount as nat)
      ensures r != Ok ==> token.balances == old(token.balances)
    {
      r := InitDone();
      if r.Fail? {
        return;
      }
      // The stored `currency` names the token contract; `token` stands for it.
      var st := GetState();
      var ok := token.Transfer(invoker, Contract(id), amount as nat);
      r := if ok then Ok else Fail(TransferFailed);
    }

    /**
     * `payout`: checks that the contract holds at least `total_amnt` and
     * then pays every recipient its amount, in list order. With a token
     * that refuses a transfer only for lack of balance, no transfer of the
     * loop fails; the contract's storage is left as it was, so a second
     * payout is checked against the same total.
     */
    method Payout(invoker: Address, token: Ledger) returns (r: Outcome)
      requires Valid()
      modifies token
      ensures unchanged(this)
      ensures state.None? ==> r == Fail(StateNotStarted)
      ensures state.Some? && invoker != state.value.admin ==> r == Fail(OnlyAdmin)
      ensures (state.Some? && invoker == state.value.admin
               && Bal(old(token.balances), Contract(id)) < state.value.totalAmnt as nat) ==> r == Fail(VaultUnderfunded)
      ensures r == Ok <==>
                state.Some? && invoker == state.value.admin
                && state.value.totalAmnt as nat <= Bal(old(token.balances), Contract(id))
      ensures r != Ok ==> token.balances == old(token.balances)
      ensures r == Ok ==> token.balances == PayAll(old(token.balances), id, recipients, amounts)
      ensures r == Ok ==> Bal(token.balances, Contract(id))
                          == Bal(old(token.balances), Contract(id)) - state.value.totalAmnt as nat
    {
      r := InitDone();
      if r.Fail? {
        return;
      }
      r := IsAdmin(invoker);
      if r.Fail? {
        return;
      }
      var st := GetState();
      var amountToSend := st.value.totalAmnt;
      var amountInVault := token.Balance(Contract(id));
      if amountInVault < amountToSend as nat {
        return Fail(VaultUnderfunded);
      }
      var list := GetRecipients().value;
      ghost var initial := token.balances;
      var i := 0;
      while i < |list|
        invariant 0 <= i <= |list| && list == recipients
        invariant Listed(list[..i], amounts) && Total(list[..i], amounts) <= Bal(initial, Contract(id))
        invariant token.balances == PayAll(initial, id, list[..i], amounts)
      {
        var account := list[i];
        var amount := GetAcc(account).value;
        PayAllStep(initial, id, list, amounts, i);
        var ok := token.Transfer(Contract(id), Account(account), amount as nat);
        // The vault still holds what the rest of the list is owed.
        assert ok;
        i := i + 1;
      }
      assert list[..i] == list;
      r := Ok;
    }
  }
}
