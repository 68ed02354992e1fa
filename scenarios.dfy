/**
 * The repository's own test cases, replayed against the contracts of the
 * model, with a few added calls that check further behaviour of the
 * contract. Each scenario method drives a new contract (and a token ledger
 * where it calls `deposit` or `payout`) and returns what the test observes, plus
 * what the added calls observe. `Reassign`, `RegisterNew` and
 * `RegisterThree` are helpers for the registrations; `PaidThree` is a lemma
 * about the three-way payout.
 */
module Scenarios {
  import opened Types
  import opened Token
  import opened Registry
  import opened MassPayout

  /** `initialize` records admin and currency with zero totals; a second call is refused. */
  method InitializeScenario() returns (initial: State, second: Outcome, early: Outcome)
    ensures early == Fail(StateNotStarted) && Code(early.err) == Some(3)
    ensures initial == State(Account(AccountId(1)), ContractId(1), 0, 0)
    ensures second == Fail(AlreadyInit) && Code(second.err) == Some(0)
  {
    var escrow := new MassPayoutContract(ContractId(0));
    early := escrow.SetAcc(Account(AccountId(1)), AccountId(2), 100);
    var r := escrow.Initialize(Account(AccountId(1)), ContractId(1));
    initial := escrow.GetState().value;
    second := escrow.Initialize(Account(AccountId(9)), ContractId(9));
  }

  /** A zero amount is refused by `set_acc` with code 2. */
  method ZeroAmountScenario() returns (zero: Outcome)
    ensures zero == Fail(AmountAtLeast1) && Code(zero.err) == Some(2)
  {
    var escrow := new MassPayoutContract(ContractId(0));
    var r := escrow.Initialize(Account(AccountId(1)), ContractId(1));
    zero := escrow.SetAcc(Account(AccountId(1)), AccountId(2), 0);
  }

  /** The admin may call `set_acc`; anyone else is refused with code 4, for `set_acc` and `payout`. */
  method AdminOnlyScenario() returns (byAdmin: Outcome, stranger: Outcome, strangerPayout: Outcome)
    ensures byAdmin == Ok
    ensures stranger == Fail(OnlyAdmin) && Code(stranger.err) == Some(4)
    ensures strangerPayout == Fail(OnlyAdmin) && Code(strangerPayout.err) == Some(4)
  {
    var escrow := new MassPayoutContract(ContractId(0));
    var token := new Ledger(map[]);
    var r := escrow.Initialize(Account(AccountId(1)), ContractId(1));
    byAdmin := escrow.SetAcc(Account(AccountId(1)), AccountId(2), 100);
    stranger := escrow.SetAcc(Account(AccountId(7)), AccountId(3), 100);
    strangerPayout := escrow.Payout(Account(AccountId(7)), token);
  }

  /** A payout with nothing deposited is refused with code 1 and moves no tokens. */
  method UnderfundedScenario() returns (underfunded: Outcome, vault: nat)
    ensures underfunded == Fail(VaultUnderfunded) && Code(underfunded.err) == Some(1)
    ensures vault == 0
  {
    var escrow := new MassPayoutContract(ContractId(0));
    var token := new Ledger(map[]);
    var r := escrow.Initialize(Account(AccountId(1)), ContractId(1));
    RegisterNew(escrow, Account(AccountId(1)), AccountId(2), 100);
    underfunded := escrow.Payout(Account(AccountId(1)), token);
    vault := token.Balance(Contract(ContractId(0)));
  }

  /** A deposit moves the amount from the depositor to the contract and nothing else. */
  method DepositScenario() returns (r: Outcome, depositor: nat, vault: nat, totals: State)
    ensures r == Ok && depositor == 100000 && vault == 100000
    ensures totals.totalAcct == 0 && totals.totalAmnt == 0
  {
    var admin := Account(AccountId(1));
    var escrow := new MassPayoutContract(ContractId(0));
    var token := new Ledger(map[admin := 200000]);
    var init := escrow.Initialize(admin, ContractId(1));
    r := escrow.Deposit(admin, 100000, token);
    depositor := token.Balance(admin);
    vault := token.Balance(Contract(ContractId(0)));
    totals := escrow.GetState().value;
  }

  /**
   * The update case of `set_acc` as a caller sees it: the admin gives a
   * registered account a new amount that fits; the list stays as it is.
   */
  method Reassign(escrow: MassPayoutContract, admin: Address, account: AccountId, amount: uint32)
    requires escrow.Valid() && escrow.state.Some? && escrow.state.value.admin == admin
    requires account in escrow.amounts && amount >= 1
    requires escrow.state.value.totalAmnt as int - escrow.amounts[account] as int + amount as int <= U32_MAX
    modifies escrow
    ensures escrow.Valid()
    ensures escrow.recipients == old(escrow.recipients)
    ensures escrow.amounts == old(escrow.amounts)[account := amount]
    ensures escrow.state.Some? && escrow.state.value.totalAcct == old(escrow.state).value.totalAcct
    ensures escrow.state.value.admin == admin && escrow.state.value.currency == old(escrow.state).value.currency
    ensures escrow.state.value.totalAmnt as int
            == old(escrow.state).value.totalAmnt as int - old(escrow.amounts)[account] as int + amount as int
  {
    var r := escrow.SetAcc(admin, account, amount);
    assert r == Ok;
  }

  /**
   * Registering one account, raising its amount, then adding a second
   * account: the totals and the stored amounts after each step.
   */
  method SetAccountScenario() returns (start: State, first: State, firstAmount: uint32,
                                       updated: State, amount: uint32, added: State, addedAmount: uint32)
    ensures start.totalAcct == 0 && start.totalAmnt == 0
    ensures first.totalAcct == 1 && first.totalAmnt == 2500 && firstAmount == 2500
    ensures updated.totalAcct == 1 && updated.totalAmnt == 5000 && amount == 5000
    ensures added.totalAcct == 2 && added.totalAmnt == 7500 && addedAmount == 2500
  {
    var admin := Account(AccountId(1));
    var r1, r2 := AccountId(2), AccountId(3);
    var escrow := new MassPayoutContract(ContractId(0));
    var r := escrow.Initialize(admin, ContractId(1));
    start := escrow.GetState().value;
    RegisterNew(escrow, admin, r1, 2500);
    firstAmount := escrow.GetAcc(r1).value;
    first := escrow.GetState().value;
    Reassign(escrow, admin, r1, 5000);
    amount := escrow.GetAcc(r1).value;
    updated := escrow.GetState().value;
    RegisterNew(escrow, admin, r2, 2500);
    addedAmount := escrow.GetAcc(r2).value;
    added := escrow.GetState().value;
  }

  /**
   * The insert case of `set_acc` as a caller sees it: the admin adds an
   * unregistered account with an amount that fits, and it is appended.
   */
  method RegisterNew(escrow: MassPayoutContract, admin: Address, account: AccountId, amount: uint32)
    requires escrow.Valid() && escrow.state.Some? && escrow.state.value.admin == admin
    requires account !in escrow.amounts && amount >= 1
    requires escrow.state.value.totalAcct as int < U32_MAX
    requires escrow.state.value.totalAmnt as int + amount as int <= U32_MAX
    modifies escrow
    ensures escrow.Valid()
    ensures escrow.recipients == old(escrow.recipients) + [account]
    ensures escrow.amounts == old(escrow.amounts)[account := amount]
    ensures escrow.state == Some(old(escrow.state).value.(totalAcct := old(escrow.state).value.totalAcct + 1,
                                                          totalAmnt := old(escrow.state).value.totalAmnt + amount))
  {
    var r := escrow.SetAcc(admin, account, amount);
    assert r == Ok;
  }

  /** The three registrations of the payout test, on a new contract. */
  method RegisterThree(self: ContractId, admin: AccountId, r1: AccountId, r2: AccountId, r3: AccountId)
    returns (escrow: MassPayoutContract)
    requires r1 != r2 && r2 != r3 && r1 != r3
    ensures fresh(escrow) && escrow.Valid() && escrow.id == self
    ensures escrow.state == Some(State(Account(admin), ContractId(1), 3, 9250))
    ensures escrow.recipients == [r1, r2, r3]
    ensures escrow.amounts == map[r1 := 5000, r2 := 2450, r3 := 1800]
  {
    escrow := new MassPayoutContract(self);
    var r := escrow.Initialize(Account(admin), ContractId(1));
    RegisterNew(escrow, Account(admin), r1, 5000);
    RegisterNew(escrow, Account(admin), r2, 2450);
    RegisterNew(escrow, Account(admin), r3, 1800);
  }

  /** What paying the three registered amounts out of a vault of 10000 leaves everyone with. */
  lemma PaidThree(b: map<Address, nat>, self: ContractId, admin: AccountId, r1: AccountId, r2: AccountId, r3: AccountId)
    requires admin != r1 && admin != r2 && admin != r3 && r1 != r2 && r2 != r3 && r1 != r3
    requires Bal(b, Contract(self)) == 10000
    requires Bal(b, Account(r1)) == 0 && Bal(b, Account(r2)) == 0 && Bal(b, Account(r3)) == 0
    ensures Listed([r1, r2, r3], map[r1 := 5000, r2 := 2450, r3 := 1800])
    ensures Total([r1, r2, r3], map[r1 := 5000, r2 := 2450, r3 := 1800]) == 9250
    ensures var paid := PayAll(b, self, [r1, r2, r3], map[r1 := 5000, r2 := 2450, r3 := 1800]);
            && Bal(paid, Contract(self)) == 750
            && Bal(paid, Account(r1)) == 5000 && Bal(paid, Account(r2)) == 2450 && Bal(paid, Account(r3)) == 1800
            && Bal(paid, Account(admin)) == Bal(b, Account(admin))
  {
    var rs := [r1, r2, r3];
    var m := map[r1 := 5000, r2 := 2450, r3 := 1800];
    assert rs[..2] == [r1, r2] && rs[..2][..1] == [r1] && rs[..2][..1][..0] == [];
    assert Total([r1], m) == 5000;
    assert Total([r1, r2], m) == 7450;
    PayAllCredits(b, self, rs, m, Account(r1));
    PayAllCredits(b, self, rs, m, Account(r2));
    PayAllCredits(b, self, rs, m, Account(r3));
    PayAllCredits(b, self, rs, m, Account(admin));
  }

  /**
   * Three recipients owed 5000, 2450 and 1800; the admin deposits 10000
   * and pays out. A second payout is refused: the totals were not reset.
   */
  method PayoutScenario() returns (deposited: nat, emptied: nat, vault: nat, paid: seq<nat>, depositor: nat,
                                   again: Outcome)
    ensures deposited == 10000 && emptied == 0
    ensures vault == 750
    ensures paid == [5000, 2450, 1800]
    ensures depositor == 0
    ensures again == Fail(VaultUnderfunded)
  {
    var self := ContractId(0);
    var admin := AccountId(1);
    var r1, r2, r3 := AccountId(2), AccountId(3), AccountId(4);
    var escrow := RegisterThree(self, admin, r1, r2, r3);
    var token := new Ledger(map[Account(admin) := 10000]);
    var r := escrow.Deposit(Account(admin), 10000, token);
    deposited := token.Balance(Contract(self));
    emptied := token.Balance(Account(admin));
    PaidThree(token.balances, self, admin, r1, r2, r3);
    r := escrow.Payout(Account(admin), token);
    vault := token.Balance(Contract(self));
    paid := [token.Balance(Account(r1)), token.Balance(Account(r2)), token.Balance(Account(r3))];
    depositor := token.Balance(Account(admin));
    again := escrow.Payout(Account(admin), token);
  }
}
