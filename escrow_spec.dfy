/** The escrow program's behaviour as functions of the record and the
    ledger: one function per instruction handler and one for the shared
    payout routine. A handler returns the new record and ledger, or an
    error and nothing else, as a failed transaction commits nothing. */
module EscrowSpec {
  import opened Wrappers
  import opened Primitives
  import opened Errors
  import opened Stages
  import opened Derivation
  import opened TokenLedger

  /** Why an instruction fails: the program's own code, an error of the
      token ledger, the framework's refusal to load a closed holding, or
      the runtime's refusal of signer seeds that name no derived address. */
  datatype Error = Program(code: ErrorCode) | Token(token: TokenError) | AccountNotInitialized | InvalidSeeds

  /** The `State` account. `stage` is the raw stored byte. */
  datatype Record = Record(
    idx: uint64,
    userSending: Pubkey,
    userReceiving: Pubkey,
    mintOfTokenBeingSent: Pubkey,
    escrowWallet: Address,
    amountTokens: uint64,
    stage: uint8)

  /** `State::default()`: every field zero. */
  const DEFAULT_RECORD: Record := Record(0, ZERO_KEY, ZERO_KEY, ZERO_KEY, Key(ZERO_KEY), 0, 0)

  /** What one instruction reads and writes: the record and the ledger. */
  datatype World = World(record: Record, ledger: LedgerState)

  /** Accounts of `InitializeNewGrant`. */
  datatype InitializeNewGrantAccounts = InitializeNewGrantAccounts(
    applicationState: Address,
    escrowWalletState: Address,
    userSending: Pubkey,
    userReceiving: Pubkey,
    mintOfTokenBeingSent: Pubkey,
    walletToWithdrawFrom: Address)

  /** Accounts of `CompleteGrant`. */
  datatype CompleteGrantAccounts = CompleteGrantAccounts(
    applicationState: Address,
    escrowWalletState: Address,
    userSending: Pubkey,
    userReceiving: Pubkey,
    mintOfTokenBeingSent: Pubkey,
    walletToDepositTo: Address)

  /** Accounts of `PullBackInstruction`. */
  datatype PullBackAccounts = PullBackAccounts(
    applicationState: Address,
    escrowWalletState: Address,
    userSending: Pubkey,
    userReceiving: Pubkey,
    mintOfTokenBeingSent: Pubkey,
    refundWallet: Address)

  /** What the framework establishes before `initialize_new_grant` runs:
      a fresh zeroed record at the "state" address (found with the canonical
      bump; the handler's `state_bump` argument is never compared with that
      bump), a fresh empty holding at the
      "wallet" address whose owner is the record's address, and a source
      wallet owned by the sender, who signed the transaction (`Signer`).
      `txSigners` are the keys that signed the transaction. */
  predicate InitializeNewGrantChecks(w: World, acc: InitializeNewGrantAccounts, applicationIdx: uint64, txSigners: set<Pubkey>) {
    && w.ledger.Valid()
    && acc.userSending in txSigners
    && w.record == DEFAULT_RECORD
    && DerivedFrom(acc.applicationState, StateLabel, acc.userSending, acc.userReceiving, acc.mintOfTokenBeingSent, applicationIdx)
    && DerivedFrom(acc.escrowWalletState, WalletLabel, acc.userSending, acc.userReceiving, acc.mintOfTokenBeingSent, applicationIdx)
    && acc.escrowWalletState in w.ledger.open
    && w.ledger.authority[acc.escrowWalletState] == acc.applicationState
    && w.ledger.Balance(acc.escrowWalletState) == 0
    && acc.walletToWithdrawFrom in w.ledger.open
    && w.ledger.authority[acc.walletToWithdrawFrom] == Key(acc.userSending)
  }

  /** What the framework establishes before `complete_grant` runs: the
      record and holding sit at the addresses derived with the given bumps,
      the record names these participants (`has_one`), the receiver signed
      the transaction (`Signer`), and the receiver's associated token wallet
      has just been created. The framework derives
      the two addresses from the seeds with the given bumps, so those seeds
      name valid derived addresses, and the payout, which signs with the
      same "state" seeds, cannot be refused for its seeds. The holding
      itself is loaded by the handler's model (see `CompleteGrant`). */
  predicate CompleteGrantChecks(
    w: World, acc: CompleteGrantAccounts, applicationIdx: uint64, stateBump: uint8, walletBump: uint8, txSigners: set<Pubkey>)
  {
    && w.ledger.Valid()
    && acc.userReceiving in txSigners
    && acc.applicationState == Pda(StateSeeds(acc.userSending, acc.userReceiving, acc.mintOfTokenBeingSent, applicationIdx, stateBump))
    && acc.escrowWalletState == Pda(WalletSeeds(acc.userSending, acc.userReceiving, acc.mintOfTokenBeingSent, applicationIdx, walletBump))
    && w.record.userSending == acc.userSending
    && w.record.userReceiving == acc.userReceiving
    && w.record.mintOfTokenBeingSent == acc.mintOfTokenBeingSent
    && acc.walletToDepositTo in w.ledger.open
    && w.ledger.authority[acc.walletToDepositTo] == Key(acc.userReceiving)
    && w.ledger.Balance(acc.walletToDepositTo) == 0
  }

  /** What the framework establishes before `pull_back` runs: as for
      completion, but the sender signed the transaction, and the refund
      wallet is owned by the sender. */
  predicate PullBackChecks(
    w: World, acc: PullBackAccounts, applicationIdx: uint64, stateBump: uint8, walletBump: uint8, txSigners: set<Pubkey>)
  {
    && w.ledger.Valid()
    && acc.userSending in txSigners
    && acc.applicationState == Pda(StateSeeds(acc.userSending, acc.userReceiving, acc.mintOfTokenBeingSent, applicationIdx, stateBump))
    && acc.escrowWalletState == Pda(WalletSeeds(acc.userSending, acc.userReceiving, acc.mintOfTokenBeingSent, applicationIdx, walletBump))
    && w.record.userSending == acc.userSending
    && w.record.userReceiving == acc.userReceiving
    && w.record.mintOfTokenBeingSent == acc.mintOfTokenBeingSent
    && acc.refundWallet in w.ledger.open
    && w.ledger.authority[acc.refundWallet] == Key(acc.userSending)
  }

  /** `transfer_escrow_out`: pay `amount` out of the holding, signed as the
      address derived from the "state" seeds, then close the holding, rent
      to the sender, if it is now empty. */
  function TransferEscrowOut(
    l: LedgerState, userSending: Pubkey, userReceiving: Pubkey, mint: Pubkey, escrowWallet: Address,
    applicationIdx: uint64, state: Address, stateBump: uint8, destinationWallet: Address, amount: uint64): (r: Result<LedgerState, TokenError>)
    requires l.Valid()
    ensures r.Ok? ==> r.value.Valid()
  {
    var signer := Pda(StateSeeds(userSending, userReceiving, mint, applicationIdx, stateBump));
    var moved :- SplTransfer(l, escrowWallet, destinationWallet, state, {signer}, amount);
    if moved.Balance(escrowWallet) == 0 then
      SplCloseAccount(moved, escrowWallet, Key(userSending), state, {signer})
    else
      Ok(moved)
  }

  /** `initialize_new_grant`: fill in the record, deposit `amount` from the
      sender's wallet into the holding, and only then set the stage.

      The deposit is sent with the "state" seeds and `state_bump` as signer
      seeds. The runtime derives an address from every signer seed list
      before the token program runs, and refuses seeds whose hash is not a
      valid derived address (it lies on the curve). Which hashes those are
      is not modelled: `offCurve` says it. */
  function InitializeNewGrant(
    w: World, acc: InitializeNewGrantAccounts, applicationIdx: uint64, stateBump: uint8, amount: uint64,
    offCurve: Seeds -> bool): (r: Result<World, Error>)
    requires w.ledger.Valid()
    ensures r.Ok? ==> r.value.ledger.Valid() && r.value.record.stage == ToCode(FundsDeposited)
    ensures r.Ok? ==> offCurve(StateSeeds(acc.userSending, acc.userReceiving, acc.mintOfTokenBeingSent, applicationIdx, stateBump))
    ensures r.Err? ==> r.error == InvalidSeeds || r.error.Token?
  {
    var filled := w.record.(
      idx := applicationIdx,
      userSending := acc.userSending,
      userReceiving := acc.userReceiving,
      mintOfTokenBeingSent := acc.mintOfTokenBeingSent,
      escrowWallet := acc.escrowWalletState,
      amountTokens := amount);
    var seeds := StateSeeds(acc.userSending, acc.userReceiving, acc.mintOfTokenBeingSent, applicationIdx, stateBump);
    if !offCurve(seeds) then Err(InvalidSeeds)
    else match SplTransfer(w.ledger, acc.walletToWithdrawFrom, acc.escrowWalletState, Key(acc.userSending), {Key(acc.userSending), Pda(seeds)}, amount)
    case Err(e) => Err(Token(e))
    case Ok(l) => Ok(World(filled.(stage := ToCode(FundsDeposited)), l))
  }

  /** `complete_grant`: allowed only from `FundsDeposited`; pays the
      recorded `amount_tokens` to the receiver and sets `EscrowComplete`. */
  function CompleteGrant(w: World, acc: CompleteGrantAccounts, applicationIdx: uint64, stateBump: uint8): (r: Result<World, Error>)
    requires w.ledger.Valid()
    ensures r.Ok? ==> r.value.ledger.Valid() && r.value.record == w.record.(stage := ToCode(EscrowComplete))
    ensures r.Err? ==> r.error == AccountNotInitialized || r.error == Program(StageInvalid) || r.error.Token?
  {
    if acc.escrowWalletState !in w.ledger.open then Err(AccountNotInitialized)
    else match FromCode(w.record.stage)
      case Err(e) => Err(Program(e))
      case Ok(stage) =>
        if stage != FundsDeposited then Err(Program(StageInvalid))
        else match TransferEscrowOut(
            w.ledger, acc.userSending, acc.userReceiving, acc.mintOfTokenBeingSent, acc.escrowWalletState,
            applicationIdx, acc.applicationState, stateBump, acc.walletToDepositTo, w.record.amountTokens)
          case Err(e) => Err(Token(e))
          case Ok(l) => Ok(World(w.record.(stage := ToCode(EscrowComplete)), l))
  }

  /** `pull_back`: allowed from `FundsDeposited` or `PullBackComplete`;
      refunds the holding's whole live balance to the sender and sets
      `PullBackComplete`. */
  function PullBack(w: World, acc: PullBackAccounts, applicationIdx: uint64, stateBump: uint8): (r: Result<World, Error>)
    requires w.ledger.Valid()
    ensures r.Ok? ==> r.value.ledger.Valid() && r.value.record == w.record.(stage := ToCode(PullBackComplete))
    ensures r.Err? ==> r.error == AccountNotInitialized || r.error == Program(StageInvalid) || r.error.Token?
  {
    if acc.escrowWalletState !in w.ledger.open then Err(AccountNotInitialized)
    else match FromCode(w.record.stage)
      case Err(e) => Err(Program(e))
      case Ok(stage) =>
        if stage != FundsDeposited && stage != PullBackComplete then Err(Program(StageInvalid))
        else match TransferEscrowOut(
            w.ledger, acc.userSending, acc.userReceiving, acc.mintOfTokenBeingSent, acc.escrowWalletState,
            applicationIdx, acc.applicationState, stateBump, acc.refundWallet, w.ledger.Balance(acc.escrowWalletState))
          case Err(e) => Err(Token(e))
          case Ok(l) => Ok(World(w.record.(stage := ToCode(PullBackComplete)), l))
  }

  /** The escrow invariant, for the record at `state` and its holding:
      both addresses are derived from the record's own sender, receiver,
      mint and index, and the record names the holding as its wallet; the
      holding, while open, is owned by the record's address; in
      `FundsDeposited` it is open and covers `amount_tokens`; after a
      pull-back it is closed; outside `FundsDeposited` it is never left
      open and empty. */
  ghost predicate Consistent(w: World, state: Address, holding: Address) {
    && w.ledger.Valid()
    && DerivedFrom(state, StateLabel, w.record.userSending, w.record.userReceiving, w.record.mintOfTokenBeingSent, w.record.idx)
    && DerivedFrom(holding, WalletLabel, w.record.userSending, w.record.userReceiving, w.record.mintOfTokenBeingSent, w.record.idx)
    && w.record.escrowWallet == holding
    && (holding in w.ledger.open ==> w.ledger.authority[holding] == state)
    && (w.record.stage == ToCode(FundsDeposited) ==>
          holding in w.ledger.open && w.ledger.Balance(holding) >= w.record.amountTokens)
    && (w.record.stage == ToCode(PullBackComplete) ==> holding !in w.ledger.open)
    && (holding in w.ledger.open && w.record.stage != ToCode(FundsDeposited) ==> w.ledger.Balance(holding) > 0)
  }
}
