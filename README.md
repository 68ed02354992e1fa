# Mass-payout escrow contract, modelled in Dafny

This project models the Soroban mass-payout contract in `src/lib.rs`. An
admin registers recipient accounts and the `u32` amount owed to each. Anyone
can deposit tokens of the configured currency into the contract. The admin
then triggers a payout, which checks that the contract holds at least the
total owed and pays every recipient its amount, in the order they were first
registered.

The files:

- `types.dfy` (module `Types`): identities (`AccountId`, `ContractId`, `Address`),
  the contract's `u32` as `uint32`, the `Error` enum with its status codes, and
  the `Outcome`/`Result` wrappers every call returns.
- `token.dfy` (module `Token`): the external token contract, reduced to a balance
  map and a `Transfer` that fails when the sender holds too little.
- `registry.dfy` (module `Registry`): the recipient registry as values. It holds
  the list (`PUB_KEYS`), the amount map, the sum `Total` that `total_amnt` must
  equal, and `PayAll`, the token balances after paying every listed recipient
  in order. The general lemmas about these are here.
- `mass_payout.dfy` (module `MassPayout`): class `MassPayoutContract`. Its fields
  are the contract's storage: the optional `State` record, the recipient list
  and the amount map. Its `Valid()` invariant says five things. Nothing is
  stored before `initialize`. The list holds each account with a stored amount
  exactly once. No stored amount is 0. `total_acct` is the list's length.
  `total_amnt` is the sum of the stored amounts. `SetAcc`, `Deposit` and
  `Payout`, the entry points that read `env.invoker()`, take the invoker as an
  explicit argument.
- `scenarios.dfy` (module `Scenarios`): the repository's tests in `src/test.rs`,
  replayed against the method contracts, with added checks of `src/lib.rs`
  that the tests do not make. They cover initialization, admin gating, the
  zero amount, deposit, the underfunded payout and the three-way payout from
  10000 down to 750.

Error handling follows the code. Every failing call returns `Fail(e)` or
`Failure(e)` and leaves the contract's storage as it was. Soroban rolls back a
panicking invocation, so a failed call has no visible effect. Some failures in
the source are bare `unwrap` panics rather than contract errors; these are
`EntryMissing`. A `u32` addition that would overflow is `Overflow`, and a
refused token transfer is `TransferFailed`.

Points where the code's behaviour needs a word of explanation:

- `get_state` and `get_acc` unwrap an absent storage entry (src/lib.rs:106,
  110). The model reports this as `EntryMissing`, which has no contract error
  code.
- Amounts and counters are stored as `u32`. The model keeps `uint32` and makes
  each overflowing addition in `set_acc` an `Overflow` failure. The
  subtraction in the update branch is proved not to underflow. The model
  assumes the crate is built with overflow checks on, so that an overflowing
  `u32` `add` or `sub` panics; a build without them would wrap instead.
- With the token reduced to a balance check, every transfer in the payout
  loop succeeds once the vault check has passed and the invariant holds
  (`assert ok` in `Payout`).
- `payout` neither resets the totals nor records who has been paid, so a second
  `Payout` checks the vault against the same `total_amnt` again.
  `PayoutScenario` shows that this second payout is then refused.
- In the insert branch, the code pushes onto `PUB_KEYS` before it does the `u32`
  additions. A panic in those additions discards the push along with the rest
  of the invocation. The model therefore checks for overflow first and writes
  nothing on failure.

## Model

| member | source | states |
|---|---|---|
| `Types.Code` | src/lib.rs:21-30 | the five contract errors have codes 0 to 4; host panics (unwrap, overflow, token failure) have none |
| `Token.Moved` | src/lib.rs:171-176 | a transfer takes the amount from the sender, credits it to the receiver, and leaves every other holder alone; a self-transfer changes nothing |
| `Token.Ledger.Balance` | src/lib.rs:160 | a holder the token has never credited has balance 0 |
| `Token.Ledger.Transfer` | src/lib.rs:171-176 | the token's transfer succeeds exactly when the sender holds the amount; it then moves it, and otherwise changes nothing |
| `Registry.TotalAppend` | src/lib.rs:128-130 | appending a recipient adds its amount to the sum of stored amounts |
| `Registry.TotalAtLeast` | src/lib.rs:123-126 | each listed amount is at most the sum, so `total_amnt - current_amount` cannot underflow |
| `Registry.TotalFresh` | src/lib.rs:127-133 | storing an amount for an account not yet listed does not change the sum over the listed ones |
| `Registry.TotalUpdate` | src/lib.rs:122-126 | replacing the amount of an account listed once changes the sum by new minus old |
| `Registry.TotalPrefix` | src/lib.rs:166-177 | the amounts of the first recipients in the list never add up to more than the total |
| `Registry.DistinctCount` | src/lib.rs:197-202 | a list without duplicates has as many distinct accounts as entries |
| `Registry.RegistrySize` | src/lib.rs:127-130 | in a consistent registry, the number of accounts with a stored amount equals the list length |
| `Registry.InsertConsistent` | src/lib.rs:127-133 | appending a new account with a non-zero amount keeps each account listed once, the list equal to the map's keys and the sum raised by the amount |
| `Registry.UpdateConsistent` | src/lib.rs:122-133 | a new non-zero amount for a registered account keeps the registry consistent and shifts the sum by new minus old |
| `Registry.PayAll` | src/lib.rs:166-177 | paying every listed recipient its amount, in list order, lowers the payer's balance by exactly the total |
| `Registry.PayAllStep` | src/lib.rs:168-177 | after paying the first i recipients, the payer still holds recipient i's amount, and paying it extends the paid prefix by one |
| `Registry.CreditLast` | src/lib.rs:168-177 | in a list without duplicates, a holder's credit comes either from the last recipient or from the earlier ones, never both |
| `Registry.PayAllCredits` | src/lib.rs:168-177 | after the payout, every listed recipient has gained exactly its stored amount, once, and every other holder except the payer is unchanged |
| `MassPayout.MassPayoutContract.Initialize` | src/lib.rs:78-97 | the first call stores the given admin and currency with both totals 0 and an empty list; any later call fails with `AlreadyInit` and changes nothing |
| `MassPayout.MassPayoutContract.InitDone` | src/lib.rs:99-103 | passes exactly when the contract has been initialized; otherwise fails with `StateNotStarted` |
| `MassPayout.MassPayoutContract.IsAdmin` | src/lib.rs:181-188 | passes exactly when the invoker is the stored admin; otherwise `OnlyAdmin`, or the unwrap panic before initialization |
| `MassPayout.MassPayoutContract.GetState` | src/lib.rs:105-107 | returns the stored record, whose `total_acct` is the number of accounts and whose `total_amnt` is the sum of their amounts; fails before initialization |
| `MassPayout.MassPayoutContract.GetAcc` | src/lib.rs:109-111 | succeeds exactly for accounts in the payout list and returns their non-zero amount; any other account is the unwrap panic |
| `MassPayout.MassPayoutContract.GetRecipients` | src/lib.rs:190-195 | the stored list names every account with a stored amount exactly once; it is absent before initialization |
| `MassPayout.MassPayoutContract.AddRecipient` | src/lib.rs:197-202 | the account is appended at the end of the list |
| `MassPayout.MassPayoutContract.SetAcc` | src/lib.rs:113-135 | the checks run in order: not initialized, not admin, zero amount, then overflow, and a failure writes nothing. On success the invariant still holds, the account's amount becomes `amount` and no other amount changes. An existing account keeps the list and `total_acct`, and `total_amnt` moves by new minus old. A new account is appended, `total_acct` rises by 1 and `total_amnt` by `amount` |
| `MassPayout.MassPayoutContract.Deposit` | src/lib.rs:137-150 | anyone may deposit once the contract is initialized. It moves exactly `amount` from the invoker to the contract, or fails with no effect when the invoker holds less. The contract's storage is untouched |
| `MassPayout.MassPayoutContract.Payout` | src/lib.rs:152-178 | the checks run in order: not initialized, not admin, then underfunded when the contract holds less than `total_amnt`, and a failure makes no transfer. Otherwise the balances become `PayAll` of the list, and the contract's balance drops by exactly `total_amnt`. Storage is unchanged |
| `Scenarios.InitializeScenario` | src/test.rs:62-83 | `initialize` yields the given admin and currency with zero totals; a second call fails. Added checks, not in the test: the second call fails with code 0, `AlreadyInit` (src/lib.rs:83-85); `set_acc` before `initialize` fails with code 3 (src/lib.rs:99-103, 114) |
| `Scenarios.SetAccountScenario` | src/test.rs:85-130 | the totals start at (0, 0); registering 2500 gives `get_acc` 2500 and totals (1, 2500); raising it to 5000 gives `get_acc` 5000 and totals (1, 5000); adding a second account with 2500 gives its `get_acc` 2500 and totals (2, 7500) |
| `Scenarios.AdminOnlyScenario` | src/test.rs:132-153 | the admin's `set_acc` succeeds; a stranger's `set_acc` fails with code 4. Added check, not in the test: a stranger's `payout` also fails with code 4 (src/lib.rs:154, 181-187) |
| `Scenarios.ZeroAmountScenario` | src/test.rs:155-168 | `set_acc` with amount 0 fails with code 2 |
| `Scenarios.DepositScenario` | src/test.rs:170-215 | depositing 100000 out of 200000 leaves 100000 with the depositor and 100000 in the contract. Added check, not in the test: both totals stay 0, since `deposit` writes no storage (src/lib.rs:137-150) |
| `Scenarios.UnderfundedScenario` | src/test.rs:217-229 | a payout owed 100 with nothing deposited fails with code 1. Added check, not in the test: the contract's balance stays 0, since the panic comes before any transfer (src/lib.rs:160-164) |
| `Scenarios.PaidThree` | src/test.rs:293-318 | paying 5000, 2450 and 1800 out of 10000 leaves 750 in the contract, credits each recipient its amount and leaves the depositor alone |
| `Scenarios.PayoutScenario` | src/test.rs:231-319 | after the deposit the contract holds 10000 and the depositor 0; after the payout the contract holds 750, the recipients hold 5000, 2450 and 1800. Added checks, not in the test: the depositor still holds 0 after the payout, since the loop credits only listed recipients (src/lib.rs:168-177); a second payout fails with `VaultUnderfunded`, since `payout` leaves `total_amnt` as it was (src/lib.rs:152-178) |

## Left out

- The token contract itself (`soroban_token_spec.wasm`, src/lib.rs:7-9) is not part of this model. It is a foreign contract, represented only by a balance map and a transfer that needs enough balance.
- Allowances, approvals, signatures and nonces (src/lib.rs:143-149, 172-173) are left out. `xfer_from` is modelled as a plain transfer from the depositor to the contract. So a deposit refused for a missing approval is not captured; only one refused for insufficient balance is.
- The model passes the token ledger to `Deposit` and `Payout` as an argument. It stands for the contract at the stored `currency` address; the host's lookup of that address is not modelled.
- Token holders identified by a bare Ed25519 key (the token's third kind of identifier) are left out. Holders are accounts or contracts.
- The host is not modelled. Storage get/set/has, `Symbol` keys, `BigInt` conversions and `env.current_contract()` become class fields and a constant `id`. `env.invoker()` is a plain argument; the host's authentication of it is not modelled.
- A token that refuses a transfer inside the payout loop for any reason other than the contract's balance is not modelled. The real `payout` would then panic partway and the host would roll back the whole invocation; `Payout` has no outcome for that case.
- The interface declaration `MassPayoutContractTrait` (src/lib.rs:32-72) only repeats the signatures of the operations above.
- The test set-up in src/test.rs is not modelled: account generation, token registration, minting and approval. The scenarios start from a ledger that already holds the minted balances.
