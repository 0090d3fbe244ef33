# Balances contract of the pRuntime enclave, in Dafny

This project models the native **Balances** contract that runs inside Phala's
pRuntime enclave (`standalone/pruntime/enclave/src/contracts/balances.rs`). The
contract is a small sequential ledger. It keeps a `total_issuance` counter and a
map from account to free balance.

- **Commands.** `Transfer` moves funds between two accounts. `TransferToChain`
  burns funds from an account, lowers the issuance, and sends a `BalancesTransfer`
  message to the chain. `TransferToTee` mints funds to an account and raises the
  issuance; only a pallet origin may send it.
- **Queries.** `FreeBalance` answers only the owner of the account. `TotalIssuance`
  answers anybody.

Layout:

- `ledger_sum.dfy` (module `LedgerSum`): the sum of a balance map, `BalanceOf`
  (zero for an absent account), and the lemmas that relate a single-entry update
  to the sum.
- `balances.dfy` (module `BalancesContract`) has three parts:
  - the contract's types;
  - one pure step function per command over a `Ledger` value, with their
    contracts and the lemmas across commands (conservation, range, round trips);
  - the class `Balances`. Its `totalIssuance` and `accounts` fields are updated in
    place by one method per command, and each method is proved to move the object
    exactly as the step function moves the ledger. The class invariant `Valid()`
    is conservation: the balances add up to the total issuance.

`MessageOrigin` is reduced to three cases: a pallet, a signed account, and any
other sender. `origin.account()` gives the account only for the second case, and
`origin.is_pallet()` holds only for the first. The conversion of a failed
`origin.account()?` into a `TransactionError` is defined outside `balances.rs`
and is not part of this model. The model takes it to be `BadOrigin`, returned
before any state is read or changed.

## Model

| member | source | states |
|---|---|---|
| `BalancesContract.Genesis` | standalone/pruntime/enclave/src/contracts/balances.rs:53-58 | the new state has zero issuance and an empty account map; it is conserved |
| `BalancesContract.Balances.constructor` | standalone/pruntime/enclave/src/contracts/balances.rs:53-58 | `Balances::new` gives zero issuance and an empty map, and establishes the conservation invariant |
| `BalancesContract.Credit` | standalone/pruntime/enclave/src/contracts/balances.rs:147-154 | crediting adds exactly the amount to that account, creating it if absent, and leaves every other balance alone |
| `BalancesContract.TransferStep` | standalone/pruntime/enclave/src/contracts/balances.rs:77-109 | fails with BadOrigin iff the origin is not an account, NoBalance iff the source has no entry, InsufficientBalance iff the source holds less than the value; every failure changes nothing; on success the source loses and the destination gains the value (created if absent), a self-transfer changes nothing, no other account and not the issuance change, nothing is sent |
| `BalancesContract.TransferToChainStep` | standalone/pruntime/enclave/src/contracts/balances.rs:110-138 | same three failure conditions, each changing nothing and sending nothing; on success source balance and issuance both drop by exactly the value, no other account changes, and a BalancesTransfer of the value to the destination is sent |
| `BalancesContract.TransferToTeeStep` | standalone/pruntime/enclave/src/contracts/balances.rs:139-157 | succeeds iff the origin is a pallet, otherwise BadOrigin with no change; on success the account gains the amount (created if absent), the issuance rises by the amount, no other account changes |
| `BalancesContract.Step` | standalone/pruntime/enclave/src/contracts/balances.rs:70-159 | `handle_command` dispatch: a failed command changes nothing, and only a successful TransferToChain sends a message, carrying its destination and value |
| `BalancesContract.StepConserves` | standalone/pruntime/enclave/src/contracts/balances.rs:86-155 | every command keeps the sum of all balances equal to the total issuance |
| `BalancesContract.BalanceAtMostIssuance` | standalone/pruntime/enclave/src/contracts/balances.rs:119-123 | under conservation no balance exceeds the issuance, so `total_issuance -= value` cannot underflow after the source check |
| `BalancesContract.StepStaysInRange` | standalone/pruntime/enclave/src/contracts/balances.rs:91-155 | the unchecked 128-bit `+=` never overflows under conservation: if the issuance fits and a pallet's mint keeps it in range, every balance and the issuance fit after any command |
| `BalancesContract.Replay` | standalone/pruntime/enclave/src/contracts/balances.rs:70-159 | running a sequence of commands from a conserved state ends in a conserved state |
| `BalancesContract.ReplayFromGenesisBounded` | standalone/pruntime/enclave/src/contracts/balances.rs:53-58 | after any history of commands from a new contract, every balance is at most the total issuance |
| `BalancesContract.TeeThenChainRestores` | standalone/pruntime/enclave/src/contracts/balances.rs:110-157 | minting an amount to an account and then burning it from that account succeeds, sends the amount to the chain, and restores every balance and the issuance |
| `BalancesContract.TransferBackRestores` | standalone/pruntime/enclave/src/contracts/balances.rs:86-97 | a successful transfer followed by the transfer of the same value back succeeds and restores every balance and the issuance |
| `BalancesContract.Balances.HandleTransfer` | standalone/pruntime/enclave/src/contracts/balances.rs:77-109 | updates the account map in place exactly as TransferStep and keeps the conservation invariant |
| `BalancesContract.Balances.HandleTransferToChain` | standalone/pruntime/enclave/src/contracts/balances.rs:110-138 | updates the map and the issuance field in place exactly as TransferToChainStep, returns the sent message, keeps the invariant |
| `BalancesContract.Balances.HandleTransferToTee` | standalone/pruntime/enclave/src/contracts/balances.rs:139-157 | updates the map and the issuance field in place exactly as TransferToTeeStep and keeps the invariant |
| `BalancesContract.Balances.HandleCommand` | standalone/pruntime/enclave/src/contracts/balances.rs:70-159 | runs one command on the object exactly as Step, keeping the invariant |
| `BalancesContract.Balances.HandleQuery` | standalone/pruntime/enclave/src/contracts/balances.rs:161-183 | FreeBalance answers NotAuthorized iff the origin is absent or not the queried account, otherwise the stored balance or 0 for an unknown account; TotalIssuance answers the counter; a reported balance never exceeds the issuance; being a function it changes nothing |

## Left out

- Logging (`info!`, `error!`) is a side effect only and is not modelled.
- The message queue is not modelled. `context.mq().send` in TransferToChain becomes the returned `BalancesTransfer` value.
- SCALE encoding and decoding, the `Display` text of `Error`, and the conversion of a query error into the string inside `Response::Error` are not modelled. An error response carries the `Error` value itself.
- `origin.account()` and `origin.is_pallet()` are outside `balances.rs`. They are modelled on a three-case origin, as described above.
- `BalancesContract.Balances.HandleTransfer`: balances are unbounded naturals, not 128-bit integers. `StepStaysInRange` shows that the unchecked `+=` of Transfer cannot overflow when the issuance fits in 128 bits.
- `BalancesContract.Balances.HandleTransferToTee`: a mint that pushes the issuance past 2^128 - 1 would overflow in the source. The model lets it grow, and `StepStaysInRange` names that as the only way out of range.
- The contract id (`id()`) is a constant lookup into code outside this file and is not modelled.
- The key order of the contract's `BTreeMap` is not modelled: the model's map is unordered, and the contract never iterates its accounts.
