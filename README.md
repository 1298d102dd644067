# Freelancer escrow: agreement book and transaction shaping

This project models the two cores of a freelancer-payment escrow system and proves properties
of them in Dafny.

- **The Soroban agreement book** (`contracts/freelancer_escrow.rs`). A contract whose instance
  storage maps agreement ids to `EscrowDetails` records (client, freelancer, amount and the four
  flags `client_approved`, `freelancer_approved`, `is_completed`, `is_refunded`) and keeps the
  `ESC_CNT` counter. The entry points are `create_escrow`, `approve_completion`, `refund_escrow`
  and `view_escrow`. Module `FreelancerEscrow` gives each entry point as a step function over a
  `Store` value. A step either returns a value with the committed storage, or reverts with the
  reason it panicked; a reverted invocation leaves the storage unchanged. The class
  `FreelancerEscrowContract` holds the storage as fields, and its methods update the agreement map
  in place the way the Rust code does; each method is proved to agree with its step function.
  `require_auth` becomes an explicit parameter: the set of addresses that authorised the
  invocation. Module `EscrowTraces` proves properties over any sequence of invocations.
- **Transaction shaping in the Stellar backend** (`backend/src/stellar/*.js`). Module `Ledger`
  defines abstract operations (`Payment`, `SetThresholds`, `SetSigner`), time bounds (where
  `maxTime = 0` means no upper bound), and a transaction value `Tx`. It also has the SDK's `Transaction`
  object as a class whose properties the backend reassigns. Modules `EscrowContract`, `TransactionBuilder` and
  `AccountManager` follow the three JavaScript classes. The loaded account, the base fee, the
  current time, the fresh keypair, the signature verifier and the gateway's outcomes are all
  parameters.

The model follows the code, not its comments:
- A refunded agreement can still be approved and completed (`RefundedAgreementStillCompletes`).
- The counter counts create calls, not distinct agreements.
- The signature check counts signatures without looking at whether they verify or whose keys they carry.
- No amount is validated anywhere.
- Neither `addTimeLock` nor `createTimeLockTransaction` checks that the unlock time is in the future.

## Model

| member | source | states |
|---|---|---|
| FreelancerEscrow.Create | contracts/freelancer_escrow.rs:33-67 | Reverts exactly when the client has not authorised the call (reason: missing authorisation) or the counter is at the u32 maximum (reason: counter overflow). Otherwise returns true and stores, under the id, a record with the given client, freelancer and amount and all four flags false, overwriting any earlier record. Every other agreement is unchanged, and the counter is one more than before (an absent counter counts as 0). |
| FreelancerEscrow.Approve | contracts/freelancer_escrow.rs:70-102 | Reverts exactly when the approver has not authorised the call, the id is unknown ("Escrow not found"), or the approver is neither the client nor the freelancer ("Unauthorized approver"). Otherwise the client branch wins: only `client_approved` is set when the approver is the client, and only `freelancer_approved` otherwise. `is_completed` becomes true once both approvals are set, and the return value is the stored `is_completed`. Parties, amount, `is_refunded`, other agreements and the counter are unchanged. |
| FreelancerEscrow.Refund | contracts/freelancer_escrow.rs:105-134 | Reverts exactly when the caller has not authorised the call, the id is unknown, the caller is not the stored client, or the agreement is completed; each case gives its own reason (missing authorisation, "Escrow not found", "Only the client can initiate refund", "Cannot refund completed escrow"). Otherwise it sets only `is_refunded` and returns true. |
| FreelancerEscrow.View | contracts/freelancer_escrow.rs:137-144 | Returns the stored record for a known id and "Escrow not found" for an unknown one. |
| FreelancerEscrow.FreelancerEscrowContract.CreateEscrow | contracts/freelancer_escrow.rs:33-67 | The in-place entry point returns what `Create` returns and leaves the storage `Create` commits, or the old storage on a revert. |
| FreelancerEscrow.FreelancerEscrowContract.ApproveCompletion | contracts/freelancer_escrow.rs:70-102 | The in-place update of the stored record (`let mut escrow`, field updates, `set`) agrees with `Approve`, including the revert cases. |
| FreelancerEscrow.FreelancerEscrowContract.RefundEscrow | contracts/freelancer_escrow.rs:105-134 | The in-place update agrees with `Refund`, including the three panics and the missing authorisation. |
| FreelancerEscrow.FreelancerEscrowContract.ViewEscrow | contracts/freelancer_escrow.rs:137-144 | Read-only. Returns the stored record exactly when the id is known, and "Escrow not found" otherwise. |
| FreelancerEscrow.FreelancerEscrowContract.constructor | contracts/freelancer_escrow.rs:58 | A freshly deployed contract has no agreements and no counter entry. |
| EscrowTraces.RunPreservesInvariant | contracts/freelancer_escrow.rs:84-99 | Any sequence of invocations keeps every record's invariant: completed exactly when both parties approved, and no freelancer approval when client and freelancer are the same address. |
| EscrowTraces.CompletedIffBothApproved | contracts/freelancer_escrow.rs:93-96 | From a fresh contract, after any invocations, an agreement is completed if and only if both approval flags are set. |
| EscrowTraces.SelfDealtNeverCompletes | contracts/freelancer_escrow.rs:84-87 | From a fresh contract, an agreement whose client is also its freelancer never gets the freelancer's approval and never completes. |
| EscrowTraces.RunKeepsFlags | contracts/freelancer_escrow.rs:84-99 | While no create call reuses an agreement id, that agreement keeps its parties and amount, and none of its four flags goes back to false. |
| EscrowTraces.RunCountsCreates | contracts/freelancer_escrow.rs:57-60 | As long as it cannot overflow, the counter rises by exactly the number of authorised create calls, whatever their ids. |
| EscrowTraces.RecreateResetsApprovals | contracts/freelancer_escrow.rs:44-60 | Creating the same id twice leaves one agreement with its approval reset, and a count of two. |
| EscrowTraces.RefundedAgreementStillCompletes | contracts/freelancer_escrow.rs:84-129 | Create, refund, then both approvals gives an agreement that is both refunded and completed. |
| EscrowTraces.ApproveIdempotent | contracts/freelancer_escrow.rs:84-99 | Repeating a successful approval returns the same value and leaves the same storage. |
| EscrowTraces.RefundIdempotent | contracts/freelancer_escrow.rs:119-130 | Repeating a successful refund returns true again and changes nothing more, because `is_refunded` is not checked first. |
| EscrowContract.CreateEscrowAccount | backend/src/stellar/escrowContract.js:15-42 | The result carries the fresh keypair's keys, master weight 0, all three thresholds 2, and exactly two signers: the client, then the freelancer, each with weight 1. |
| EscrowContract.EscrowNeedsBothParties | backend/src/stellar/escrowContract.js:20-34 | For distinct parties, a set of keys reaches each threshold exactly when it holds both the client's and the freelancer's key. The escrow's own key adds nothing, so either party alone (weight 1) reaches none of the thresholds. |
| EscrowContract.CreateTimeLockTransaction | backend/src/stellar/escrowContract.js:51-68 | Sourced from the loaded escrow account, with exactly one native payment of the given amount to the destination. Its bounds are `(lockTime, 0)`, so it is valid at a time exactly when that time is at or after `lockTime`. |
| EscrowContract.CreateRefundTransaction | backend/src/stellar/escrowContract.js:76-92 | Sourced from the loaded escrow account, with exactly one native payment of the given amount to the client, and no time bounds, so it is valid at any time. |
| EscrowContract.SubmitTransaction | backend/src/stellar/escrowContract.js:98-112 | Total: it never throws. It reports success exactly when the gateway accepted, with that hash and ledger. On failure the error is the result codes when present, and the error message otherwise. |
| EscrowContract.VerifyTransactionSignatures | backend/src/stellar/escrowContract.js:119-126 | True if and only if the transaction has at least as many signatures as there are required signers. |
| EscrowContract.VerifyIgnoresValidity | backend/src/stellar/escrowContract.js:120-125 | The answer is the same whichever signatures verify. |
| EscrowContract.VerifyMonotone | backend/src/stellar/escrowContract.js:125 | Appending a signature never turns true into false. |
| EscrowContract.OneSignatureShortOfEscrow | backend/src/stellar/escrowContract.js:125 | Against the client and the freelancer as required signers, a single signature is rejected, and adding any second one makes the check pass. |
| EscrowContract.InvalidSignaturesAccepted | backend/src/stellar/escrowContract.js:120-125 | Two signatures that both fail verification pass the check as written against two required signers, while the corrected check rejects them. |
| EscrowContract.DuplicateSignatureAccepted | backend/src/stellar/escrowContract.js:117-125 | One party's valid signature given twice passes the check as written against the client and the freelancer, because the required keys are never compared; the corrected check rejects it. |
| EscrowContract.VerifyRequiredSignatures | backend/src/stellar/escrowContract.js:117-125 | The corrected check: true exactly when every required signer has a signature whose hint names that signer and which verifies. |
| EscrowContract.OneKeyNeverSatisfiesTwo | backend/src/stellar/escrowContract.js:117-125 | Under the corrected check, signatures that all come from one key never satisfy two distinct required signers, however many there are. |
| EscrowContract.BothPartiesSatisfyRequired | backend/src/stellar/escrowContract.js:117-125 | Under the corrected check, valid signatures of the client and of the freelancer satisfy the two required signers. |
| EscrowContract.VerifyRequiredMonotone | backend/src/stellar/escrowContract.js:120-125 | Adding a signature never withdraws an acceptance of the corrected check. |
| TransactionBuilder.BuildDepositTransaction | backend/src/stellar/transactionBuilder.js:15-30 | Sourced from the loaded source account, with exactly one native payment of `amount` to the escrow account. The bounds are `(0, now + 30)`, so it is valid at a time exactly when that time is at most 30 seconds after `now`. |
| TransactionBuilder.BuildReleaseTransaction | backend/src/stellar/transactionBuilder.js:38-53 | Sourced from the loaded escrow account, with exactly one native payment of `amount` to the freelancer, and the same 30-second window. |
| TransactionBuilder.BuildDisputeResolutionTransaction | backend/src/stellar/transactionBuilder.js:63-89 | Sourced from the loaded escrow account, with exactly two payments in order: the client's amount to the client, then the freelancer's amount to the freelancer. It has the 30-second window, and neither amount is checked. |
| TransactionBuilder.DisputeSplitTotal | backend/src/stellar/transactionBuilder.js:77-86 | The split pays out exactly `clientAmount + freelancerAmount`, with no comparison against any balance. |
| TransactionBuilder.PaymentRoundTrip | backend/src/stellar/transactionBuilder.js:23-27 | Reading the single payment back from a deposit or release gives exactly the destination and amount passed in. |
| TransactionBuilder.WithTimeLock | backend/src/stellar/transactionBuilder.js:96-101 | The bounds become `(unlockTime, 0)` whatever they were, and every other field is kept. The result is valid at a time exactly when that time is at or after `unlockTime`, even when `unlockTime` is already past. |
| TransactionBuilder.TimeLockLastWins | backend/src/stellar/transactionBuilder.js:97-100 | A later time lock overrides an earlier one, and applying the same lock twice is idempotent. |
| TransactionBuilder.TimeLockRemovesTimeout | backend/src/stellar/transactionBuilder.js:96-101 | A time lock on a deposit replaces its 30-second expiry with no expiry at all. |
| TransactionBuilder.WithSigners | backend/src/stellar/transactionBuilder.js:109-113 | The signers field is set to the given list, and every other field is kept. |
| TransactionBuilder.AddTimeLock | backend/src/stellar/transactionBuilder.js:96-102 | Updates the transaction object in place as `WithTimeLock` says, and returns that same object. |
| TransactionBuilder.AddSignatureRequirements | backend/src/stellar/transactionBuilder.js:109-113 | Updates the transaction object in place as `WithSigners` says, and returns that same object. |
| AccountManager.AddMultiSigRequirements | backend/src/stellar/accountManager.js:23-51 | Sourced from the loaded account, with `1 + signers.length` operations. The first is one `setOptions` with exactly the four threshold values; then comes one `setOptions` per signer, in input order, with that signer's key and weight. |
| AccountManager.GetAccountBalance | backend/src/stellar/accountManager.js:72-79 | Returns the loaded account's balances when the load succeeds, and null on any failure. It never throws. |
| AccountManager.AccountExists | backend/src/stellar/accountManager.js:86-93 | True exactly when `loadAccount` succeeds, false on any failure. It never throws. |
| AccountManager.BalanceIffExists | backend/src/stellar/accountManager.js:72-93 | There is a balance exactly when the account exists. |

## Left out

- Network and gateway calls are not made. `loadAccount`, `fetchBaseFee` and `submitTransaction` appear only as their results, passed in. A failure of `loadAccount` or `fetchBaseFee` inside a builder rejects the builder's promise; the builders here take the loaded account and fee directly.
- `monitorAccount` and `getTransactionHistory` are left out: they only forward a stream or a query to the gateway.
- `createAccount` is left out, and `Keypair.random()` is a parameter of `CreateEscrowAccount`: randomness is outside the model.
- Signature verification and transaction hashing are a parameter `verify`; the lookup from a signature's hint to its key, used only by the corrected check, is a parameter `signerOf`. Whether `Keypair.fromPublicKey` accepts a signature's 4-byte hint is SDK behaviour this model does not capture.
- Stellar SDK internals are opaque:
  - XDR encoding;
  - the sequence-number bump in `build()`;
  - the fee multiplied by the operation count (`baseFee` is stored as given);
  - the network passphrase (`TESTNET`);
  - `Asset.native()`;
  - whether `build()` accepts a transaction without time bounds, as `createRefundTransaction` and `addMultiSigRequirements` build them;
  - whether `addTimeBounds` exists on the SDK's builder (the model takes it to set the bounds its arguments name);
  - the SDK's own checks on payment amount strings.
- Amounts are integers (stroops) passed through unchanged. The `toString()` formatting of JavaScript numbers is not modelled.
- `setTimeout(30)` is modelled as bounds `(0, now + 30)` with `now` in whole seconds, as the SDK computes it.
- `amount` is an `i128` argument, so the model only constrains it to that range.
- Soroban host services are not modelled: `log!`, `extend_ttl(100, 100)` (storage lifetime), and the signature checking behind `require_auth` (replaced by the set of authorising addresses).
- FreelancerEscrow.Create: `count += 1` on the `u32` counter is taken to panic at the maximum, assuming overflow checks are on as in Soroban's usual release profile. With them off, the counter would wrap to 0 instead. The crate's build profile is not part of this model.
- TransactionBuilder.AddTimeLock: the model assumes that assigning `transaction.timeBounds` takes effect on the object. In the SDK that property may be read-only (its setter may throw), and the signed envelope is not rebuilt from it; neither is modelled. The same assumption holds for `TransactionBuilder.TimeLockRemovesTimeout`, which speaks of the modelled object only.
- EscrowContract.EscrowNeedsBothParties: stated only for distinct client and freelancer keys. With equal keys, how the ledger merges the two signer entries is ledger behaviour outside this model.

## Findings

| source | as written | input that shows it | evidently intended | confidence | as-written member | corrected member |
|---|---|---|---|---|---|---|
| backend/src/stellar/escrowContract.js:120-125 | each signature is verified, but the results are discarded and only the number of signatures is compared with the number of required signers | a transaction carrying two signatures that both fail verification, checked against two required signers, is accepted | only signatures that verify should count towards the required signers | high; not executed | EscrowContract.InvalidSignaturesAccepted | EscrowContract.VerifyRequiredSignatures |
| backend/src/stellar/escrowContract.js:117-125 | the keys listed in `requiredSigners` are never compared with the keys that signed | the client's valid signature given twice, checked against the client and the freelancer, is accepted | every required signer should have a valid signature of its own | high; not executed | EscrowContract.DuplicateSignatureAccepted | EscrowContract.VerifyRequiredSignatures |
