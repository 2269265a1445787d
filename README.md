# SampleOnSolana escrow, modelled in Dafny

The program is a two-party token escrow on Solana. A sender deposits
`amount` tokens of one mint into a custody holding (`escrow_wallet_state`).
No private key controls that holding. Its owner is the escrow record
(`application_state`), an address derived from the seeds `"state"`,
sender, receiver, mint and index. Later the receiver can complete the
escrow (`complete_grant`) or the sender can take the funds back
(`pull_back`). Both go through one routine, `transfer_escrow_out`. It
signs as the record's derived address, pays out of the holding, and closes
the holding once it is empty.

The model has these modules:

- `Primitives`: `uint8`, `uint64` and 32-byte `Pubkey`s.
- `Wrappers`: `Result` and `Outcome`, the model of Rust's `Result` and of `?`.
- `Errors`: the program's `ErrorCode`.
- `Stages`: the `Stage` enum and its one-byte code (`to_code`, `from`).
- `Derivation`: derived identities. An address is either an ordinary key
  or `Pda(seeds)`, the seed tuple it is derived from (label, sender,
  receiver, mint, index, bump). The module also gives the byte layout the
  address hash is taken over (`to_le_bytes` of the index included). It
  proves that this layout determines the tuple. So treating a derived
  address as its seed tuple assumes only that the hash has no collisions.
- `TokenLedger`: the token program, as far as the escrow uses it. A ledger
  has balances, owners, lamports and a set of open accounts.
  `SplTransfer` and `SplCloseAccount` are its two instructions, with their
  checks in the token program's order. The class `Ledger` carries the same
  state as fields, and its methods are proved equal to those functions.
  A failed call changes nothing.
- `EscrowSpec`: the record (`State`) and the three instruction handlers
  plus `transfer_escrow_out`, as functions from (record, ledger) to a new
  (record, ledger) or an error. The account constraints that the framework
  enforces before a handler runs are the `*Checks` predicates. `Consistent`
  is the escrow invariant.
- `EscrowProgram`: the `State` account as a class, and the four handlers as
  methods that assign its fields and call the `Ledger` step by step, as the
  source does. Each method is proved to produce exactly what the matching
  `EscrowSpec` function says. On an error it leaves the record and the
  ledger as they were, which is the transaction's atomicity.
- `EscrowProperties`: the lemmas about those functions.

Modelling choices and behaviour of the code worth knowing:

- The account constraints are preconditions: `seeds`/`bump`, `has_one`,
  the owner constraints, `init` of the record, holding and receiver
  wallet, and the `Signer` accounts. The sender signs initialisation and
  pull-back, and the receiver signs completion. Each `*Checks` predicate
  takes the set of keys that signed the transaction, so the model states
  who may invoke which instruction (`OnlyReceiverCompletes`,
  `OnlySenderPullsBack`). There is one exception. Loading `escrow_wallet_state` after the
  holding has been closed is modelled as an explicit error,
  `AccountNotInitialized`, checked before the stage guard. A closed
  account leaves the open set and keeps a balance of 0.
- Pull-back's guard admits `PullBackComplete` (lib.rs:118). Completion's
  guard does not (lib.rs:93). Even so, a second pull-back does not act as
  a no-op. The first one always drains and closes the holding, so the
  second fails when the holding is loaded (`RepeatedPullBackFails`).
- Completion pays the recorded `amount_tokens` (lib.rs:108), not the
  holding's live balance. If anyone adds tokens to the holding after the
  deposit, completion leaves the surplus in an open holding at stage 2.
  Neither guard admits stage 2, so those tokens can never be moved
  (`SurplusLockedAfterComplete`). Pull-back, by contrast, refunds the live
  balance (lib.rs:124).
- In `initialize_new_grant` the program never compares the `state_bump`
  argument with the record's bump. It only adds a derived signer that the
  deposit does not need. The runtime derives that signer from the "state"
  seeds and `state_bump` before the token program runs, and it refuses
  seeds whose hash is not a valid derived address. So the instruction
  fails with `InvalidSeeds` for such a bump. Among the valid bumps, the
  outcome does not depend on which one is passed (`InitializeDeposits`, `InitializeIgnoresStateBump`).
  Which hashes are valid is a parameter of the model, `offCurve`.
- The `_wallet_bump` arguments are used only
  by the account constraints of completion and pull-back.
- The error codes `WalletToWithdrawFromInvalid`, `InvalidStateIdx` and
  `DelegateNotSetCorrectly` are declared but never raised. The program
  raises only `StageInvalid`. A wrong owner of the sender's or the refund
  wallet (the `constraint`s at lib.rs:336 and lib.rs:422) and a missing
  signature of the sender or the receiver (the `Signer` accounts at
  lib.rs:328, lib.rs:379 and lib.rs:409) are refused by the framework
  before the handler runs. In the model they are unmet preconditions, not
  errors. Under those constraints the token program's own `OwnerMismatch`
  and `MissingRequiredSignature` cannot be reached through any of the
  three instructions. They appear only in the lemmas about the token
  program itself.

## Model

| member | source | states |
|---|---|---|
| `Stages.ToCode` | programs/SampleOnSolana/src/lib.rs:254-260 | every stage is stored as a code in 1..3, so never as 0, the default byte |
| `Stages.FromCode` | programs/SampleOnSolana/src/lib.rs:262-272 | decoding succeeds exactly for the bytes 1, 2 and 3, and the decoded stage re-encodes to that byte; every other byte gives `StageInvalid` |
| `Stages.FromCodeToCode` | programs/SampleOnSolana/src/lib.rs:254-272 | `from(to_code(s)) == Ok(s)` for all three stages |
| `Stages.ToCodeInjective` | programs/SampleOnSolana/src/lib.rs:254-260 | the three codes are distinct |
| `Stages.DefaultCodeRejected` | programs/SampleOnSolana/src/lib.rs:262-277 | the stage byte of a default `State` (0) decodes to `StageInvalid` |
| `Derivation.SeedList` | programs/SampleOnSolana/src/lib.rs:37-44 | the signer seed list has six entries; their order (label, sender, receiver, mint, index, bump) is stated by `PreimageLayout` |
| `Derivation.LeBytesRoundTrip` | programs/SampleOnSolana/src/lib.rs:36 | reading back the `n` little-endian bytes of any `x < 256^n` gives `x` |
| `Derivation.IdxBytesInjective` | programs/SampleOnSolana/src/lib.rs:36-42 | distinct indices have distinct `to_le_bytes` seeds |
| `Derivation.PreimageLayout` | programs/SampleOnSolana/src/lib.rs:37-45 | the hashed bytes are label, three 32-byte keys, 8 index bytes and the bump, in that order |
| `Derivation.PreimageInjective` | programs/SampleOnSolana/src/lib.rs:37-45 | equal hash inputs only from equal seed tuples: changing the label, a participant, the index or the bump changes the derived address |
| `Derivation.StateAndWalletSeparated` | programs/SampleOnSolana/src/lib.rs:309-318 | the record's and the holding's seeds differ only in the label, and their hash inputs always differ |
| `TokenLedger.SplTransfer` | programs/SampleOnSolana/src/lib.rs:48-58 | a transfer succeeds iff both accounts are open, the source covers the amount, the authority owns the source and signed, and the destination cannot overflow; it then moves exactly the amount and nothing else |
| `TokenLedger.SplCloseAccount` | programs/SampleOnSolana/src/lib.rs:69-81 | a close succeeds iff the account is open, empty, owned by the signing authority and is not its own destination; it then removes the account and pays its lamports to the destination |
| `TokenLedger.TransferConserves` | programs/SampleOnSolana/src/lib.rs:58 | a transfer creates no tokens: the two accounts together hold what they held before |
| `TokenLedger.NoDebitWithoutOwner` | programs/SampleOnSolana/src/lib.rs:48-58 | no transfer lowers an account's balance unless its owner signed |
| `TokenLedger.Ledger.Transfer` | programs/SampleOnSolana/src/lib.rs:58 | the ledger object after `transfer` is the `SplTransfer` result, or unchanged on error |
| `TokenLedger.Ledger.CloseAccount` | programs/SampleOnSolana/src/lib.rs:80 | the ledger object after `close_account` is the `SplCloseAccount` result, or unchanged on error |
| `EscrowSpec.TransferEscrowOut` | programs/SampleOnSolana/src/lib.rs:20-84 | a successful payout leaves a well-formed ledger |
| `EscrowSpec.InitializeNewGrant` | programs/SampleOnSolana/src/lib.rs:143-188 | a successful initialisation leaves a well-formed ledger and stage 1, and needs the "state" seeds with `state_bump` to name a derived address; it fails only for those seeds or in the token program (the program raises none of its own codes); `InitializeDeposits` gives the exact outcome |
| `EscrowSpec.CompleteGrant` | programs/SampleOnSolana/src/lib.rs:92-114 | a successful completion changes only the record's stage, to 2, and leaves a well-formed ledger; it fails only on a closed holding, with `StageInvalid`, or in the token program; `CompleteGuard` and `CompleteSettles` give the exact outcome |
| `EscrowSpec.PullBack` | programs/SampleOnSolana/src/lib.rs:116-141 | a successful pull-back changes only the record's stage, to 3, and leaves a well-formed ledger; it fails only on a closed holding, with `StageInvalid`, or in the token program; `PullBackGuard` and `PullBackDrains` give the exact outcome |
| `EscrowSpec.InitializeNewGrantChecks` | programs/SampleOnSolana/src/lib.rs:302-345 | the account constraints of initialisation: the sender signed, zeroed record, record and holding at the "state" and "wallet" addresses of these participants and index, an empty holding owned by the record, a source wallet owned by the sender |
| `EscrowSpec.CompleteGrantChecks` | programs/SampleOnSolana/src/lib.rs:347-387 | the account constraints of completion: record and holding at the addresses derived with the given bumps, `has_one` for sender, receiver and mint, the receiver signed, and a new empty wallet owned by the receiver |
| `EscrowSpec.PullBackChecks` | programs/SampleOnSolana/src/lib.rs:389-426 | the account constraints of pull-back: as for completion, but the sender signed, with a refund wallet owned by the sender |
| `EscrowSpec.Consistent` | programs/SampleOnSolana/src/lib.rs:302-345 | the escrow invariant: record and holding addresses derived from the record's own sender, receiver, mint and index, the holding named as the record's wallet and owned by the record while open, covering `amount_tokens` at stage 1, closed at stage 3, never open and empty outside stage 1 |
| `EscrowProgram.State.constructor` | programs/SampleOnSolana/src/lib.rs:276-300 | a new `State` holds the default record: all fields zero, stage 0 |
| `EscrowProgram.State.Restore` | programs/SampleOnSolana/src/lib.rs:181-183 | the record's writes are undone when the deposit fails |
| `EscrowProgram.TransferEscrowOut` | programs/SampleOnSolana/src/lib.rs:20-84 | signs with the "state" seeds, transfers, re-reads the holding and closes it when it is empty; the result and new ledger equal `EscrowSpec.TransferEscrowOut`, and on error the ledger is unchanged |
| `EscrowProgram.InitializeNewGrant` | programs/SampleOnSolana/src/lib.rs:143-188 | fills in the record, deposits `amount`, and only then sets stage 1; the outcome equals `EscrowSpec.InitializeNewGrant`, and on error neither the record nor the ledger changes |
| `EscrowProgram.CompleteGrant` | programs/SampleOnSolana/src/lib.rs:92-114 | guard, payout of `amount_tokens` to the receiver, stage 2; the outcome equals `EscrowSpec.CompleteGrant`, and on error nothing changes |
| `EscrowProgram.PullBack` | programs/SampleOnSolana/src/lib.rs:116-141 | guard, payout of the live balance to the refund wallet, stage 3; the outcome equals `EscrowSpec.PullBack`, and on error nothing changes |
| `EscrowProperties.PayoutConserves` | programs/SampleOnSolana/src/lib.rs:48-58 | a payout lowers the holding by exactly `amount`, raises the destination by exactly `amount`, and changes no other balance |
| `EscrowProperties.PayoutSignedByRecord` | programs/SampleOnSolana/src/lib.rs:33-58 | a payout succeeds only if the holding's owner is the record's address and that address is the one derived from the "state" seeds it signs with |
| `EscrowProperties.PayoutFailsWhenShort` | programs/SampleOnSolana/src/lib.rs:58 | a payout larger than the holding fails with `InsufficientFunds` |
| `EscrowProperties.PayoutClosesIffDrained` | programs/SampleOnSolana/src/lib.rs:63-81 | after a payout the holding is closed, with its rent paid to `user_sending`, iff its balance is now 0; a nonzero remainder leaves it open |
| `EscrowProperties.OnlyOwnRecordSigns` | programs/SampleOnSolana/src/lib.rs:37-58 | a payout from a holding owned by a derived address succeeds only when signed with exactly that address's seeds |
| `EscrowProperties.InitializeDeposits` | programs/SampleOnSolana/src/lib.rs:143-188 | initialisation succeeds iff the "state" seeds with `state_bump` name a derived address and the sender's wallet covers `amount`, failing with `InvalidSeeds` or `InsufficientFunds` otherwise; it stores idx, parties, mint, holding and amount, moves exactly `amount` into the holding, and sets stage 1 |
| `EscrowProperties.InitializeIgnoresStateBump` | programs/SampleOnSolana/src/lib.rs:143-183 | the program never compares `state_bump` with the record's bump: two bumps whose "state" seeds are both valid (or both invalid) derived addresses give the same outcome |
| `EscrowProperties.InitializeEstablishes` | programs/SampleOnSolana/src/lib.rs:143-188 | a successful initialisation establishes the escrow invariant |
| `EscrowProperties.OnlyReceiverCompletes` | programs/SampleOnSolana/src/lib.rs:347-381 | completion's constraints (`has_one = user_receiving` and `user_receiving: Signer`) need the record's receiver among the transaction's signers |
| `EscrowProperties.OnlySenderPullsBack` | programs/SampleOnSolana/src/lib.rs:389-410 | pull-back's constraints (`has_one = user_sending` and `user_sending: Signer`) need the record's sender among the transaction's signers |
| `EscrowProperties.InitializeSignedBySender` | programs/SampleOnSolana/src/lib.rs:326-329 | the sender an initialised record names signed its initialisation |
| `EscrowProperties.OneRecordPerHolding` | programs/SampleOnSolana/src/lib.rs:302-326 | two records consistent with the same holding name the same sender, receiver, mint, index and wallet, and the open holding's owner is their common address |
| `EscrowProperties.CompleteSignsAsRecord` | programs/SampleOnSolana/src/lib.rs:347-369 | under completion's constraints and the invariant, the index argument is the record's, the holding is the record's wallet, and the payout signer built from the record's fields and `state_bump` is the record's address, which owns the open holding |
| `EscrowProperties.PullBackSignsAsRecord` | programs/SampleOnSolana/src/lib.rs:389-411 | the same for pull-back |
| `EscrowProperties.CompleteGuard` | programs/SampleOnSolana/src/lib.rs:92-96 | completion succeeds only from stage 1; with the holding loaded, any other byte gives `StageInvalid` |
| `EscrowProperties.CompleteSettles` | programs/SampleOnSolana/src/lib.rs:92-114 | from stage 1 completion succeeds: the receiver gets exactly `amount_tokens`, the holding loses exactly that and is closed iff nothing is left, and the stage becomes 2 with every other field unchanged |
| `EscrowProperties.CompletePreserves` | programs/SampleOnSolana/src/lib.rs:92-114 | completion preserves the escrow invariant |
| `EscrowProperties.PullBackGuard` | programs/SampleOnSolana/src/lib.rs:116-122 | pull-back succeeds only from stage 1 or 3; with the holding loaded, stage 2 and every undecodable byte give `StageInvalid` |
| `EscrowProperties.PullBackDrains` | programs/SampleOnSolana/src/lib.rs:116-141 | pull-back refunds the holding's whole live balance, leaves the holding empty and closed with its rent paid to the sender, and sets stage 3; `amount_tokens` is unchanged |
| `EscrowProperties.PullBackSucceeds` | programs/SampleOnSolana/src/lib.rs:116-141 | from stage 1 pull-back succeeds unless the refund wallet would overflow |
| `EscrowProperties.PullBackPreserves` | programs/SampleOnSolana/src/lib.rs:116-141 | pull-back preserves the escrow invariant |
| `EscrowProperties.NoReleaseAfterComplete` | programs/SampleOnSolana/src/lib.rs:92-122 | at stage 2 both completion and pull-back fail; with the holding still open, they fail with `StageInvalid` |
| `EscrowProperties.CompleteTwiceFails` | programs/SampleOnSolana/src/lib.rs:92-114 | the first completion succeeds and a second one on its result fails |
| `EscrowProperties.RepeatedPullBackFails` | programs/SampleOnSolana/src/lib.rs:116-138 | after a pull-back, the holding is closed, so a second pull-back or a completion fails when the holding is loaded |
| `EscrowProperties.NoReleaseBeforeInit` | programs/SampleOnSolana/src/lib.rs:93-121 | a record whose stage byte decodes to no stage (such as the default 0) releases nothing: both instructions give `StageInvalid` |
| `EscrowProperties.SurplusLockedAfterComplete` | programs/SampleOnSolana/src/lib.rs:98-121 | tokens in the holding beyond `amount_tokens` stay there after completion, and then both instructions fail with `StageInvalid` |
| `EscrowProperties.ForeignTransferPreserves` | programs/SampleOnSolana/src/lib.rs:315-324 | a transfer signed only by ordinary keys cannot lower the open holding's balance, and keeps the escrow invariant |
| `EscrowProperties.ForeignCloseRejected` | programs/SampleOnSolana/src/lib.rs:315-324 | a close signed only by ordinary keys cannot close the open holding |
| `EscrowProperties.DepositThenComplete` | tests/SampleOnSolana.ts:193-258 | deposit then completion: the sender's wallet loses `amount` (when it is not the receiver's new wallet), the receiver's new wallet gets `amount`, the holding is closed, the stage is 2, and a later pull-back fails |
| `EscrowProperties.DepositThenPullBack` | tests/SampleOnSolana.ts:260-323 | deposit then pull-back into the same wallet: the wallet is back at its starting balance, the holding is closed, the stage is 3 and `amount_tokens` is unchanged |

## Left out

- Address derivation itself is not modelled: the SHA-256 hash, the program id, the bump search of `find_program_address`, and the off-curve test itself (where it matters, in the signer seeds of initialisation, it is the parameter `offCurve`). A derived address is its seed tuple. `Key` and `Pda` addresses never coincide, which stands for the off-curve check.
- The framework's account handling is not modelled. The seed, `has_one`, owner and `init` constraints are preconditions instead. The `space = 10240` allocation, discriminators and account ownership by programs are left out.
- The receiver's associated token wallet is not created by the model. The precondition of completion says that `init` created it and that it is empty. Because the source uses `init` and not `init_if_needed`, completion also fails in reality when that wallet already exists; the model does not capture this.
- Mints are not modelled: the mint checks of the token program and the mint constraints of the accounts. The model has a single mint.
- The token program is modelled only as far as the escrow uses it. Delegates, close authorities, frozen and native accounts are left out.
- Lamports are modelled only for what a close moves. Rent exemption, the SOL paid to create accounts and fees are left out.
- `reload()` is a plain read of the holding's balance. Its own failure path is not modelled: it cannot fail after the successful transfer.
- `msg!` logging and `declare_id!` are left out, because they do not change state.
- The unused `Initialize` accounts struct and the commented-out counter code are not modelled, because nothing uses them.
- Which seed hashes lie on the curve is not computed. It is the parameter `offCurve` of initialisation. For completion and pull-back the account constraints derive the record's address from the same seeds and bump that the payout signs with, so those seeds are valid and `EscrowSpec.TransferEscrowOut` does not check them again.
- EscrowProperties.PayoutFailsWhenShort: the runtime's privilege check on cross-program calls is folded into the token program's signer check. So an authority that neither signed the transaction nor comes from the signer seeds is refused after the balance comparison, not before it. Under the account constraints the authority is always the derived signer, so this only matters on inputs the instructions cannot produce.
- EscrowProperties.PullBackSucceeds: assumes the refund wallet cannot overflow. The real token program guarantees this through the mint's bounded supply, which the model does not track.
