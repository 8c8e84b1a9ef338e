# Toy blockchain runtime pallets, modelled in Dafny

This project models the three state modules ("pallets") of a small Rust
blockchain runtime. Each pallet owns one ordered map and changes it through a
few checked operations. Each pallet is a Dafny `class Pallet` with the source's
fields and one method or function per operation:

- **System** (`system.dfy`): the global block number and a map from account to
  nonce. `IncBlockNumber` adds one to the block number. `IncNonce` reads an
  account's nonce (zero when absent) and stores one more. `BlockNumber` and
  `GetNonce` are reads. A ghost field `nonceCalls` records every account passed
  to `IncNonce`. The class invariant `Valid` states that an account's nonce is
  the number of times it was passed to `IncNonce`; the constructor establishes
  it and `IncNonce` keeps it.
- **Balances** (`balances.dfy`): a map from account to balance.
  `SetBalance` is an unconditional overwrite and `Balance` a read that defaults
  to zero. `Trasnfer` keeps the source's spelling. It reads both balances, then
  checks the subtraction, then checks the addition, then writes the caller's new
  balance and then the recipient's. A failure writes nothing. The ghost function
  `TotalIssuance` sums all balances. The method contracts state how each
  operation moves that total.
- **Proof of existence** (`proof_of_existence.dfy`): a map from content to the
  account that claimed it. `CreateClaim` refuses content that is already
  claimed. `RevokeClaim` refuses unclaimed content and then a caller who is
  not the owner. Otherwise each operation inserts or removes exactly one entry.
- `support.dfy` holds `DispatchResult` (success, or a static error message)
  and `Option`. `runtime.dfy` replays the hand-written run of `src/main.rs`
  against the System and Balances pallets.

The integer types are modelled as `nat` with explicit bounds. The runtime
instantiates `Balance` as `u128` and `BlockNumber` and `Nonce` as `u32`. So
`MaxBalance` is 2^128 - 1, and `MaxBlockNumber` and `MaxNonce` are 2^32 - 1.
`checked_sub` and `checked_add` are modelled as `CheckedSub` and `CheckedAdd`.
The source's unchecked `+=` and `+` in the System pallet panic on overflow
when overflow checks are on (as in debug builds) and wrap to 0 otherwise. The
model rules out both outcomes with preconditions.

A self-transfer (`caller == to`) is not a no-op in the code, and the model
follows the code. Both reads see the same balance `b`. The
first write stores `b - amount` and the second write overwrites it with
`b + amount`. So a successful self-transfer leaves the account `amount` higher
and raises the total issuance by `amount`. `Trasnfer`'s contract states this,
and `Balances.SelfTransfer` shows it on concrete numbers.

The error values are the source's literal messages, including its spelling
`"Claim does noe exist"`.

## Model

| member | source | states |
|---|---|---|
| System.Pallet.constructor | src/system.rs:18-23 | a fresh pallet is at block 0, has no nonce entries, and every account reads nonce 0 |
| System.Pallet.BlockNumber | src/system.rs:25-27 | returns the current block number; being a function it changes nothing, and under the invariant it is within `u32` |
| System.Pallet.IncBlockNumber | src/system.rs:29-32 | the block number goes up by exactly one; nonces and the call history stay the same; overflow is a precondition |
| System.Pallet.IncNonce | src/system.rs:34-37 | `who`'s nonce becomes its old value plus one, even without a prior entry; every other account's nonce and the block number stay the same; the invariant (nonce = number of calls for that account) is kept |
| System.Pallet.GetNonce | src/system.rs:39-41 | the stored nonce for an account with an entry, zero for one without |
| System.Pallet.NeverIncrementedIsZero | src/system.rs:34-41 | an account never passed to `inc_nonce` reads nonce 0 |
| System.OccurrencesAppend | src/system.rs:34-37 | one more `inc_nonce(x)` call adds exactly one to `x`'s recorded call count and nothing to any other account's, which is the step of the nonce-counts-calls invariant |
| System.OccurrencesOfAbsent | src/system.rs:34-37 | an account that is not in the call history has zero recorded calls, which is the base of the nonce-counts-calls invariant |
| System.SystemPalletTest | src/system.rs:48-59 | the unit test: block 0 when new, block 1 after one increment, alice's nonce 1 after one `inc_nonce` |
| Balances.CheckedSub | src/balances.rs:40-42 | the subtraction fails exactly when `amount` exceeds the balance; otherwise the result plus `amount` gives back the balance |
| Balances.CheckedAdd | src/balances.rs:44-46 | the addition fails exactly when the sum exceeds `u128::MAX`; otherwise it is the exact sum |
| Balances.TotalIssuanceRemove | src/balances.rs:6 | the sum of all balances splits into any one account's balance plus the sum of the others |
| Balances.TotalIssuanceUpdate | src/balances.rs:21-23 | overwriting one account's balance changes the sum of all balances by exactly the new balance minus the old one |
| Balances.Pallet.constructor | src/balances.rs:14-18 | a fresh pallet gives balance 0 to every account |
| Balances.Pallet.SetBalance | src/balances.rs:21-23 | `who` reads `amount`, every other account is unchanged, and the total issuance moves by the difference |
| Balances.Pallet.Balance | src/balances.rs:26-28 | the stored balance, or zero for an account without an entry; within `u128` under the invariant |
| Balances.Pallet.Trasnfer | src/balances.rs:31-52 | succeeds exactly when the caller can pay and the recipient cannot overflow. Insufficient balance is reported first, then overflow, and a failure leaves the map unchanged. On success with distinct accounts the caller loses `amount`, the recipient gains it, and both their sum and the total issuance are conserved. On a self-transfer the account ends `amount` higher. All other accounts are unchanged |
| Balances.SelfTransfer | src/balances.rs:37-49 | alice with 10 sending 4 to herself succeeds and ends with 14 |
| ProofOfExistence.Pallet.constructor | src/proof_of_existence.rs:52-54 | a fresh pallet has no claim on any content |
| ProofOfExistence.Pallet.GetClaim | src/proof_of_existence.rs:57-59 | `Some(owner)` exactly for claimed content, carrying its one owner |
| ProofOfExistence.Pallet.CreateClaim | src/proof_of_existence.rs:25-33 | succeeds exactly on unclaimed content and then records `caller` as owner; content already claimed by anyone keeps its owner and yields "Claim already exists"; other content is unchanged |
| ProofOfExistence.Pallet.RevokeClaim | src/proof_of_existence.rs:38-47 | succeeds exactly when `caller` owns the claim, and then removes only that entry; unclaimed content is reported before a non-owner; a failure changes nothing |
| ProofOfExistence.CreateThenRevoke | src/proof_of_existence.rs:25-47 | revoking a claim just created by the same caller succeeds and restores the previous claims |
| ProofOfExistence.BasicProofOfExistence | src/proof_of_existence.rs:77-92 | the unit test: alice claims; bob's revoke fails as not owner; bob's create fails as already claimed; alice's revoke succeeds and the content is unclaimed |
| Runtime.MainScenario | src/main.rs:26-46 | alice given 100 pays bob 30 and charlie 20 at block 1: both transfers succeed, balances 50/30/20, alice's nonce 2, block 1 |

## Left out

- Printing: `#[derive(Debug)]` and the `println!` calls of `src/main.rs` are not modelled.
- The `Runtime` struct of `src/main.rs` is not modelled as a class. It only holds the two pallets, and `MainScenario` uses them directly.
- The `#[macros::call]` attribute and the call enum and dispatch code it generates are not modelled. The macro's source is not part of this model.
- Of the `crate::support` module only `DispatchResult` is modelled, in `support.dfy`, as success or an error message (with an `Option` beside it); the rest of that module is not part of this model.
- The `crate::system::Config` trait used by the proof-of-existence pallet is not part of this model. The pallet takes `AccountId` and `Content` as type parameters.
- No block-execution loop, block-number mismatch check or per-extrinsic error reporting exists in these files, so none is modelled.
- The `num` traits (`Zero`, `One`, `CheckedAdd`, `CheckedSub`) are generic in the source. The model fixes the widths `src/main.rs` chooses (`u128`, `u32`).
- System.Pallet.IncBlockNumber: overflow of `u32` is a precondition; neither the panic (overflow checks on) nor the wrap-around to 0 (overflow checks off) is modelled.
- System.Pallet.IncNonce: overflow of the unchecked `+` is a precondition; neither the panic (overflow checks on) nor the wrap-around (overflow checks off) is modelled.
- Balances.Pallet.SetBalance: requires `amount` to fit in `u128`, which the source's type guarantees.
- A no-op self-transfer is not modelled: the code ends the account `amount` higher, and `Balances.Pallet.Trasnfer` states exactly that.
