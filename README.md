# Chedder NEP-141 token ledger, modelled in Dafny

This project models the token ledger of the "Chedder" NEAR fungible-token
contract (NEP-141). The ledger is an account→balance table plus a
`total_supply` counter, both of them u128. The model covers the operations
that change it:

- the ledger primitives: balance lookup, `internal_update_account`,
  checked `internal_deposit` and `internal_withdraw`, and `internal_transfer`;
- the resolve step that runs after `ft_transfer_call` has notified the
  receiver (`int_ft_resolve_transfer`), with its refund and burn paths;
- the public entry points `new`, `mint`, `get_owner_id`, `ft_transfer`,
  the synchronous part of `ft_transfer_call`, `ft_total_supply`,
  `ft_balance_of` and `ft_resolve_transfer`.

Layout:

- `types.dfy` (`Types`): the `Balance` type (a `nat` of at most 2^128 − 1),
  account ids, the panic reasons (`Error`), `Result`/`Outcome`, the promise
  result handed to resolve, and wrapping u128 `+`/`-`.
- `sums.dfy` (`Sums`): the sum of all stored balances, and how it changes
  when one entry changes.
- `internal.dfy` (`Internal`): each primitive of `internal.rs` as a function
  from a `Ledger` value (table plus supply) to a `Result`.
- `conservation.dfy` (`Conservation`): the surplus, which is the supply minus
  the sum of balances. Every primitive keeps it. The lemmas here also cover
  resolve's refund and burn paths.
- `public.dfy` (`Public`): the ledger effect of `new` and `mint`.
- `contract.dfy` (`Token`): the `Contract` class. Its fields are updated in
  place. Each method's contract ties its result and its new state to the
  function above that specifies it. The public methods keep the invariant
  `Valid()`, which says the balances never add up to more than the supply.
- `quirks.dfy` (`Quirks`): lemmas for the places where the code breaks the
  storage-release rule or loses value.
- `scenarios.dfy` (`Scenarios`): the unit tests `test_new` and
  `test_transfer`, plus resolve examples (partial refund, burned refund,
  emptied receiver), written as runs of the class that the verifier checks.

A panic aborts the host call and the host throws away every write made
during it. So a failing operation returns `Err`/`Fail` and leaves the state
as it was. The class does this with an explicit `Rollback`.

Two properties one might expect of the ledger do not hold of the code, and
the model follows the code:

- No stored entry holds 0: the doc comment of `internal_update_account`
  (internal.rs:64-65) deletes an emptied account to release its storage. But
  `int_ft_resolve_transfer` writes the receiver's reduced balance with a raw
  `insert`, so it can store a 0 (`Quirks.ResolveCanStoreZero`).
- The supply equals the sum of balances. But `mint` adds `amount` to the
  supply twice: once itself and once inside `internal_deposit`. So the supply
  can only be shown to be at least the sum of balances. Every other operation keeps the gap unchanged; `mint` widens
  it by `amount` (`Public.MintWidensSurplus`).

Under that weaker invariant, the unchecked `+` and `-=` in resolve provably
never wrap (`Conservation.ResolveRefunds`, `Conservation.ResolveBurns`).

## Model

| member | source | states |
|---|---|---|
| `Internal.BalanceOf` | nep-141-model/src/internal.rs:23-28 | an account with an entry has its stored balance; an account without one has 0 |
| `Internal.UpdateAccount` | nep-141-model/src/internal.rs:64-72 | afterwards the account's balance is the given one; its entry exists exactly when that balance is nonzero; every other entry and the supply are unchanged |
| `Internal.Deposit` | nep-141-model/src/internal.rs:30-35 | succeeds exactly when neither the new balance nor the new supply exceeds u128::MAX, and otherwise aborts with the overflow error; on success the balance and the supply both grow by `amount`, other entries are unchanged, and the entry exists exactly when the new balance is nonzero (so depositing 0 to an absent account leaves it absent) |
| `Internal.Withdraw` | nep-141-model/src/internal.rs:37-42 | succeeds exactly when `amount` is at most both the balance and the supply; aborts with "not enough balance" when `amount` exceeds the balance; on success the balance and the supply both drop by `amount` and the entry is deleted when the balance reaches 0 |
| `Internal.Transfer` | nep-141-model/src/internal.rs:44-62 | aborts on sender == receiver, then on amount 0, then on the withdraw and deposit checks, in that order; succeeds exactly when none of them fires; on success the sender loses and the receiver gains `amount`, the sender keeps its entry exactly when it still holds something, the receiver has an entry, the supply is unchanged and no other entry changes |
| `Internal.UnusedAmount` | nep-141-model/src/internal.rs:85-96 | a parsed claim gives at most the claim, and equals either the claim or `amount`; an unparsable reply or a failed call gives `amount`; the result never exceeds `amount`; a not-ready result aborts |
| `Internal.Resolve` | nep-141-model/src/internal.rs:75-124 | aborts only on a not-ready promise; `used` and `burned` never exceed `amount`; something is burned only when all of `amount` counts as used; the refund never exceeds the receiver's balance (`used + burned ≥ amount − receiver balance`) |
| `Internal.ResolveNoRefund` | nep-141-model/src/internal.rs:98-123 | when nothing is unused, or the receiver holds nothing, the result is `(amount, 0)` and the ledger is unchanged |
| `Internal.DepositKeepsNoZeroEntries` | nep-141-model/src/internal.rs:30-35 | a deposit keeps "no stored entry holds 0" |
| `Internal.WithdrawKeepsNoZeroEntries` | nep-141-model/src/internal.rs:37-42 | a withdrawal keeps "no stored entry holds 0" |
| `Internal.TransferKeepsNoZeroEntries` | nep-141-model/src/internal.rs:44-62 | a transfer keeps "no stored entry holds 0" |
| `Conservation.UpdateAccountSum` | nep-141-model/src/internal.rs:66-72 | writing a balance replaces the account's old balance with the new one in the sum of balances |
| `Conservation.DepositKeepsSurplus` | nep-141-model/src/internal.rs:30-35 | a deposit leaves the supply minus the sum of balances unchanged |
| `Conservation.WithdrawKeepsSurplus` | nep-141-model/src/internal.rs:37-42 | a withdrawal leaves the supply minus the sum of balances unchanged |
| `Conservation.WithdrawFailsOnlyOnBalance` | nep-141-model/src/internal.rs:39-41 | under the invariant the supply-underflow check never fires, so a withdrawal succeeds exactly when the balance covers `amount` |
| `Conservation.TransferKeepsSurplus` | nep-141-model/src/internal.rs:44-62 | a transfer leaves the supply minus the sum of balances unchanged |
| `Conservation.TransferFailsOnlyFor` | nep-141-model/src/internal.rs:51-57 | under the invariant a transfer succeeds exactly when sender ≠ receiver, 0 < amount ≤ the sender's balance, and the receiver's balance does not overflow |
| `Conservation.ResolveRefunds` | nep-141-model/src/internal.rs:98-114 | under the invariant, when the sender's entry exists, refund = min(receiver balance, unused) moves from receiver to sender; the credit does not wrap; the result is `(amount − refund, 0)`; the supply, the set of entries and every other entry are unchanged |
| `Conservation.ResolveBurns` | nep-141-model/src/internal.rs:98-120 | under the invariant, when the sender's entry is gone, the receiver's entry is set to its balance minus the refund, which may be 0; the supply drops by the refund without wrapping; the result is `(amount, refund)` |
| `Conservation.ResolveKeepsSurplus` | nep-141-model/src/internal.rs:98-123 | under the invariant, resolve leaves the supply minus the sum of balances unchanged on every path |
| `Public.Initial` | nep-141-model/src/lib.rs:59-67 | after `new` the supply is `owner_supply`, the owner's balance is `owner_supply`, the owner has an entry exactly when `owner_supply > 0`, and no other account has one |
| `Public.InitialHasNoSurplus` | nep-141-model/src/lib.rs:59-67 | after `new` the balances add up to exactly the supply |
| `Public.Mint` | nep-141-model/src/lib.rs:72-76 | aborts unless the caller is the owner, then on either supply addition or the balance addition overflowing; on success the owner's balance grows by `amount`, the supply grows by 2·`amount`, the owner has an entry exactly when its new balance is nonzero, and other entries are unchanged |
| `Public.MintWidensSurplus` | nep-141-model/src/lib.rs:72-76 | minting grows the supply minus the sum of balances by `amount` |
| `Token.Contract.constructor` | nep-141-model/src/lib.rs:47-69 | the new contract's ledger is `Initial(owner_id, owner_supply)`; it satisfies the invariant and records the owner and the measured storage usage |
| `Token.Contract.AssertOwnerCalling` | nep-141-model/src/internal.rs:19-21 | passes exactly when the caller is the owner, and otherwise fails with the owner-only error |
| `Token.Contract.InternalUnwrapBalanceOf` | nep-141-model/src/internal.rs:23-28 | reads the stored balance, or 0 when there is no entry, without writing anything |
| `Token.Contract.InternalUpdateAccount` | nep-141-model/src/internal.rs:66-72 | the new state is `UpdateAccount` of the old one |
| `Token.Contract.InternalDeposit` | nep-141-model/src/internal.rs:30-35 | returns whether `Deposit` succeeds; the new state is its result, or the old state on an abort |
| `Token.Contract.InternalWithdraw` | nep-141-model/src/internal.rs:37-42 | returns whether `Withdraw` succeeds; the new state is its result, or the old state on an abort |
| `Token.Contract.InternalTransfer` | nep-141-model/src/internal.rs:44-62 | returns whether `Transfer` succeeds; the new state is its result, or the old state on an abort, so the transfer is never half applied |
| `Token.Contract.IntFtResolveTransfer` | nep-141-model/src/internal.rs:75-124 | returns `(used, burned)` of `Resolve`, and the new state is its ledger |
| `Token.Contract.Mint` | nep-141-model/src/lib.rs:71-76 | the result and the new state are those of `Public.Mint` for the stored owner, and the invariant is kept |
| `Token.Contract.GetOwnerId` | nep-141-model/src/lib.rs:79-81 | returns the stored owner |
| `Token.Contract.FtTransfer` | nep-141-model/src/lib.rs:109-115 | the caller's transfer: its outcome and new state are those of `Transfer` from the caller, and the invariant is kept |
| `Token.Contract.FtTransferCall` | nep-141-model/src/lib.rs:117-148 | applies the same transfer as `FtTransfer`, with the same abort conditions, and on success hands back the pending resolve for (caller, receiver, amount) |
| `Token.Contract.FtTotalSupply` | nep-141-model/src/lib.rs:150-152 | returns the supply field |
| `Token.Contract.FtBalanceOf` | nep-141-model/src/lib.rs:154-156 | returns the stored balance, or 0 when there is no entry |
| `Token.Contract.FtResolveTransfer` | nep-141-model/src/lib.rs:164-178 | returns only the `used` part of resolve, which never exceeds `amount`; the new state is resolve's ledger, and the invariant is kept |
| `Scenarios.NewScenario` | nep-141-model/src/lib.rs:228-236 | `test_new`: after `new`, the supply and the owner's balance are both `OWNER_SUPPLY` |
| `Scenarios.TransferScenario` | nep-141-model/src/lib.rs:246-278 | `test_transfer`: after the owner transfers a third of `OWNER_SUPPLY`, the sender holds `OWNER_SUPPLY − amount` and the receiver holds `amount` |
| `Quirks.ResolveCanStoreZero` | nep-141-model/src/internal.rs:101-103 | if the receiver hands back all it holds, resolve keeps an entry holding 0 for it, so "no stored entry holds 0" fails |
| `Quirks.WholeBalanceRefundIsBurned` | nep-141-model/src/internal.rs:115-119 | a sender who sends its whole balance through `ft_transfer_call` loses its entry; if the receiver's call then fails, the whole amount is burned, the sender ends with 0, and the supply shrinks by the amount |
| `Quirks.PartialBalanceRefundIsReturned` | nep-141-model/src/internal.rs:105-114 | a sender who keeps part of its balance gets the whole amount back when the receiver's call fails, and nothing is burned |

## Left out

- Token metadata is not modelled. That covers `FungibleTokenMetadata`, the `LazyOption` holding it, its validation, the icon, `set_metadata_icon`, `set_metadata_reference` and `ft_metadata`. All of this is storage of opaque strings, checked by a library that is not part of this model.
- `measure_account_storage` does not appear as an operation. It measures the host's storage counter, so the constructor takes its result as the parameter `accountStorageUsage`, which is then immutable (a `const`). Its temporary insert and removal of a 64-character key leave the account table as it was.
- The receiver's `ft_on_transfer`, the `.then` promise chain, gas and the gas constants are host plumbing. `ft_transfer_call` returns a `PendingResolve` value describing the callback. Resolve takes the promise result as an input.
- Token.Contract.FtTransferCall: does not model the abort at lib.rs:137, where `env::prepaid_gas() - GAS_FOR_FT_TRANSFER_CALL` underflows when less than 30 Tgas is attached and the host rolls the transfer back. Its "same abort conditions" means the same as `ft_transfer`'s, apart from this gas abort.
- The JSON parsing of the receiver's reply (serde_json into `U128`) is not modelled. That reply arrives as `Successful(Some(n))` if it parsed and `Successful(None)` if it did not.
- `assert_one_yocto`, `env::predecessor_account_id`, the `#[private]` restriction on `ft_resolve_transfer` and every `log!` call are host checks or host output. The caller is a parameter. The attached-deposit check, the private-call check and the logs (including the memo, which is only logged) are dropped.
- Account ids are not checked for validity (`ValidAccountId` does that check while deserialising arguments); any string is an account id.
- Resolve's plain `+` and `-=` are modelled as wrapping u128 arithmetic. That is their behaviour in a build without overflow checks; the build profile is not part of this model. Under the invariant they never wrap, so a build with overflow checks behaves the same.
- `test_default` (the `PanicOnDefault` guard), the Borsh/serde derives and `VMContextBuilder` are not modelled. `storage_deposit` and `storage_balance_bounds` are called by `test_transfer` but are not part of this model, so `Scenarios.TransferScenario` runs without registering the receiver.
- A panic's partial writes are never seen, because the host rolls them back. So the model does not reproduce the order in which a failing call wrote before it aborted.
