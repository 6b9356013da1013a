# Staking contract ledger, modelled in Dafny

This project models a small CosmWasm staking contract. The contract keeps two
storage entries:

- a singleton `State`, which holds an `i32` counter and the owner's address;
- a `STAKES` map from staker address to a `Uint128` balance.

Its handlers are `instantiate`, `increment`, `reset`, `stake` and `unstake`.
Each one is a small all-or-nothing transaction: it checks its inputs, rewrites
storage, and answers with a response (attributes plus bank messages). If it
fails, the host discards its writes. The queries `count` and `stake` read
storage.

Files:

- `types.dfy` (`StakingTypes`): integer widths (`Int32`, `Uint128`), coins,
  messages, responses, errors and the error texts.
- `balances.dfy` (`Balances`): the balance of an address (absent reads as 0),
  the "no zero entry" invariant, and the sum of all balances with its lemmas.
- `handlers.dfy` (`Handlers`): every handler and query as a transition over a
  storage snapshot `Store`. This is the reference the rest is proved against.
  It also defines `execute` dispatch, a run over a series of calls and the
  conservation lemma.
- `contract.dfy` (`Contract`): the class `StakingContract`. Its fields are the
  two storage entries. Its methods rewrite them in place the way the Rust
  handlers do. Each method is proved equal to its `Handlers` transition and to
  keep the no-zero-entry invariant.
- `properties.dfy` (`Properties`): properties that relate several calls or pin
  down the less obvious behaviours.
- `scenarios.dfy` (`Scenarios`): the contract's unit tests, replayed on the class
  and read back through the `query` dispatch, as the tests do.

Panics are modelled as an `Abort(reason)` outcome. The host turns a panic into
a failed transaction, so `Abort` leaves storage unchanged, like an error does.
Two panics matter here: the `Uint128` addition in `stake` and the `i32`
increment.

Three behaviours of the code are easy to miss:

- `instantiate` has no guard against a second call. It overwrites the state,
  and no "already initialised" error exists.
- `stake` and `unstake` fail with `StdError::generic_err` and a fixed message.
  They do not use dedicated error kinds such as "insufficient funds" or
  "invalid amount".
- `stake` does not load `State`, so it works before any `instantiate`.

## Model

| member | source | states |
|---|---|---|
| Handlers.Instantiate | contracts/staking_contract/src/contract.rs:15-32 | succeeds with no messages and the method/owner/count attributes; a following count query answers the given count; the owner is the sender; stakes untouched |
| Handlers.Increment | contracts/staking_contract/src/contract.rs:52-59 | fails with NotFound before any instantiate; panics at the i32 maximum; otherwise count becomes count + 1, owner and stakes unchanged, no messages, the single attribute action=increment; any failure leaves storage unchanged |
| Handlers.Reset | contracts/staking_contract/src/contract.rs:61-70 | succeeds exactly when state exists and the sender is the owner; a non-owner gets Unauthorized with storage unchanged; on success the count query answers the requested count, the owner is unchanged, no messages and the single attribute action=reset |
| Handlers.Stake | contracts/staking_contract/src/contract.rs:72-93 | missing or too small first coin gives the insufficient-funds error, checked before the zero-amount error; overflow panics; success exactly when funds cover, amount > 0 and no overflow; then the sender's balance rises by amount, other balances and state unchanged, no messages, attributes action=stake, staker, amount, sum of balances rises by exactly amount; no zero entry is created; failure leaves storage unchanged |
| Handlers.SetStake | contracts/staking_contract/src/contract.rs:107-113 | the new balance is the given one; the entry exists exactly when it is non-zero; other balances unchanged; the sum changes by new minus old balance |
| Handlers.Unstake | contracts/staking_contract/src/contract.rs:96-128 | succeeds exactly when amount <= balance (absent = 0), otherwise the too-much error with storage unchanged; on success the balance becomes balance - amount, the entry is kept only if non-zero, others unchanged, exactly one Send of amount "token" to the sender, attributes action=unstake, staker, amount, and the sum drops by exactly amount; no zero entry is created |
| Handlers.Execute | contracts/staking_contract/src/contract.rs:35-47 | failure leaves storage unchanged; sum + released == old sum + credited; no zero entry is created; the owner never changes; state changes only by a successful increment or a reset by the owner; stakes change only by a successful stake or unstake |
| Handlers.QueryCount | contracts/staking_contract/src/contract.rs:143-146 | answers the stored count exactly when state exists, NotFound otherwise |
| Handlers.QueryStake | contracts/staking_contract/src/contract.rs:148-152 | fails exactly when the host rejects the address; otherwise answers the balance, absent reading as 0; under the invariant, 0 exactly when the address has no entry |
| Handlers.Query | contracts/staking_contract/src/contract.rs:133-138 | a count query succeeds exactly when state exists and answers the stored count, otherwise NotFound; a stake query succeeds exactly when the address is valid and answers its balance (absent = 0), otherwise InvalidAddress; the answer kind matches the question |
| Handlers.Conservation | contracts/staking_contract/src/contract.rs:85-127 | over any series of execute calls, final sum of balances + everything sent back == initial sum + everything credited by successful stakes |
| Handlers.RunKeepsNoZeroEntries | contracts/staking_contract/src/contract.rs:107-113 | no series of execute calls ever stores a zero balance |
| Handlers.RunKeepsOwner | contracts/staking_contract/src/contract.rs:52-70 | no series of execute calls creates, removes or changes the owner |
| Contract.StakingContract.Instantiate | contracts/staking_contract/src/contract.rs:15-32 | the in-place handler equals Handlers.Instantiate on the old storage and keeps the invariant |
| Contract.StakingContract.Increment | contracts/staking_contract/src/contract.rs:52-59 | the in-place handler equals Handlers.Increment on the old storage and keeps the invariant |
| Contract.StakingContract.Reset | contracts/staking_contract/src/contract.rs:61-70 | the in-place handler equals Handlers.Reset on the old storage and keeps the invariant |
| Contract.StakingContract.Stake | contracts/staking_contract/src/contract.rs:72-93 | the in-place handler equals Handlers.Stake on the old storage and keeps the invariant |
| Contract.StakingContract.Unstake | contracts/staking_contract/src/contract.rs:96-128 | the in-place handler equals Handlers.Unstake on the old storage and keeps the invariant |
| Contract.StakingContract.Execute | contracts/staking_contract/src/contract.rs:35-47 | the in-place dispatch equals Handlers.Execute on the old storage and keeps the invariant |
| Properties.StakeThenUnstake | contracts/staking_contract/src/contract.rs:85-127 | unstaking what was just staked restores the storage exactly and sends that amount back |
| Properties.ZeroUnstake | contracts/staking_contract/src/contract.rs:99-127 | unstaking zero always succeeds, changes no balance and still emits a zero-amount Send |
| Properties.StakeReadsOnlyFirstCoinAmount | contracts/staking_contract/src/contract.rs:73 | stake's result depends on the funds only through whether the first coin's amount covers the stake: denomination, surplus and later coins are ignored |
| Properties.StakeChecksFundsFirst | contracts/staking_contract/src/contract.rs:73-83 | a zero stake with no funds reports insufficient funds, not the zero-amount error |
| Properties.InstantiateOverwrites | contracts/staking_contract/src/contract.rs:21-26 | a second instantiate succeeds and leaves exactly the state of the last call |
| Scenarios.ProperInitialization | contracts/staking_contract/src/contract.rs:161-176 | instantiate with 17 emits no messages and the count query answers 17 |
| Scenarios.IncrementByAnyone | contracts/staking_contract/src/contract.rs:178-195 | after instantiate 17, an increment by a non-owner gives count 18 |
| Scenarios.ResetOnlyByOwner | contracts/staking_contract/src/contract.rs:197-223 | reset by a non-owner is Unauthorized; reset by the creator sets the count to 5 |
| Scenarios.StakeTokens | contracts/staking_contract/src/contract.rs:225-240 | staking 500 with 500 attached makes the stake query answer 500 |
| Scenarios.UnstakeTokens | contracts/staking_contract/src/contract.rs:242-262 | stake 500 then unstake 300 sends 300 "token" back and leaves 200 |
| Scenarios.StakeWithoutFundsShouldFail | contracts/staking_contract/src/contract.rs:264-276 | staking with no funds fails with the insufficient-funds error |
| Scenarios.UnstakeMoreThanStakedShouldFail | contracts/staking_contract/src/contract.rs:278-294 | unstaking 1000 of 500 fails with the too-much error |
| Scenarios.UnstakeFullBalanceShouldLeaveZero | contracts/staking_contract/src/contract.rs:296-322 | unstaking the full 500 makes the query answer 0, and no entry is left stored |

## Left out

- Serialisation: `to_json_binary` and `from_json` are left out. Queries answer the response values directly.
- Entry-point macros, the `Env` argument and `set_contract_version` (cw2) are left out. None of them affects the ledger.
- Storage errors are not modelled. The storage backend's load and save failures (the `?` on `save` and `may_load`) cannot happen in the model. `STATE` and `STAKES` are plain fields.
- The source of the storage layout (`state.rs`) and of the error type (`error.rs`) is not part of this model. `STATE` as an item of `State` and `STAKES` as a map from `Addr` to `Uint128` are taken from how `contract.rs` uses them.
- Address validation (`addr_validate`) is a host check. It is a parameter `addrValid` of the stake query, and its failure is modelled as `InvalidAddress`; the host's error text is not modelled. The `NotFound` kind of a failed `STATE` load is shortened to `"State"`.
- Handlers.Increment: the model assumes overflow checks are on, so the `i32` increment at its maximum panics. The build profile is not shown. With overflow checks off, the count would wrap to the `i32` minimum instead.
- Attribute values are kept as text or as a number. The decimal rendering of `to_string()` is not modelled.
- Bank settlement is out of scope. The model records the `BankMsg::Send` instruction and nothing more. The `CosmosMsg` wrapper around it is dropped.
- The test harness (`mock_dependencies`, `mock_info`, `addr_make`) is not modelled. A fresh `StakingContract` stands for empty mock storage. Addresses made by `addr_make` are parameters that the address check accepts.
