/** What the escrow promises, proved about the handler functions of
    `EscrowSpec` (and therefore, through their contracts, about the
    imperative handlers of `EscrowProgram`). */
module EscrowProperties {
  import opened Wrappers
  import opened Primitives
  import opened Errors
  import opened Stages
  import opened Derivation
  import opened TokenLedger
  import opened EscrowSpec

  // ---------------------------------------------------------------------
  // The shared payout routine

  /** A payout moves exactly `amount` from the holding to the destination
      and changes no other balance. */
  lemma PayoutConserves(
    l: LedgerState, sender: Pubkey, receiver: Pubkey, mint: Pubkey, holding: Address,
    idx: uint64, state: Address, bump: uint8, dest: Address, amount: uint64)
    requires l.Valid() && holding != dest
    requires TransferEscrowOut(l, sender, receiver, mint, holding, idx, state, bump, dest, amount).Ok?
    ensures var m := TransferEscrowOut(l, sender, receiver, mint, holding, idx, state, bump, dest, amount).value;
      && amount <= l.Balance(holding)
      && m.Balance(holding) == l.Balance(holding) - amount
      && m.Balance(dest) == l.Balance(dest) + amount
      && (forall a :: a != holding && a != dest ==> m.Balance(a) == l.Balance(a))
  {
  }

  /** A payout succeeds only when the holding's owner is the record's
      address and that address is the one derived from the "state" seeds
      the routine signs with. */
  lemma PayoutSignedByRecord(
    l: LedgerState, sender: Pubkey, receiver: Pubkey, mint: Pubkey, holding: Address,
    idx: uint64, state: Address, bump: uint8, dest: Address, amount: uint64)
    requires l.Valid()
    requires TransferEscrowOut(l, sender, receiver, mint, holding, idx, state, bump, dest, amount).Ok?
    ensures holding in l.open && l.authority[holding] == state
    ensures state == Pda(StateSeeds(sender, receiver, mint, idx, bump))
  {
  }

  /** A payout larger than the holding fails, with insufficient funds. */
  lemma PayoutFailsWhenShort(
    l: LedgerState, sender: Pubkey, receiver: Pubkey, mint: Pubkey, holding: Address,
    idx: uint64, state: Address, bump: uint8, dest: Address, amount: uint64)
    requires l.Valid() && holding in l.open && dest in l.open && l.Balance(holding) < amount
    ensures TransferEscrowOut(l, sender, receiver, mint, holding, idx, state, bump, dest, amount) == Err(InsufficientFunds)
  {
  }

  /** After a payout the holding is closed, its rent paid to the sender,
      exactly when the payout left it empty; otherwise it stays open. */
  lemma PayoutClosesIffDrained(
    l: LedgerState, sender: Pubkey, receiver: Pubkey, mint: Pubkey, holding: Address,
    idx: uint64, state: Address, bump: uint8, dest: Address, amount: uint64)
    requires l.Valid() && holding.Pda?
    requires TransferEscrowOut(l, sender, receiver, mint, holding, idx, state, bump, dest, amount).Ok?
    ensures var m := TransferEscrowOut(l, sender, receiver, mint, holding, idx, state, bump, dest, amount).value;
      && (holding !in m.open <==> m.Balance(holding) == 0)
      && (holding !in m.open ==>
            m.Lamports(Key(sender)) == l.Lamports(Key(sender)) + l.Lamports(holding) && m.Lamports(holding) == 0)
      && (holding in m.open ==> m.lamports == l.lamports)
      && m.open - {holding} == l.open - {holding}
  {
  }

  /** Only the record whose seeds derived the holding's owner can pay out
      of it: a payout that succeeds was signed with exactly those seeds. */
  lemma OnlyOwnRecordSigns(
    l: LedgerState, sender: Pubkey, receiver: Pubkey, mint: Pubkey, holding: Address,
    idx: uint64, state: Address, bump: uint8, dest: Address, amount: uint64, owner: Seeds)
    requires l.Valid() && holding in l.open && l.authority[holding] == Pda(owner)
    requires TransferEscrowOut(l, sender, receiver, mint, holding, idx, state, bump, dest, amount).Ok?
    ensures owner == StateSeeds(sender, receiver, mint, idx, bump)
  {
    PayoutSignedByRecord(l, sender, receiver, mint, holding, idx, state, bump, dest, amount);
  }

  // ---------------------------------------------------------------------
  // initialize_new_grant

  /** Initialisation succeeds exactly when the "state" seeds with
      `state_bump` name a derived address and the sender's wallet holds
      `amount`; it then records the index, participants, holding and
      amount, moves `amount` into the (empty) holding, and sets stage 1. */
  lemma InitializeDeposits(w: World, acc: InitializeNewGrantAccounts, idx: uint64, stateBump: uint8, amount: uint64, offCurve: Seeds -> bool, txSigners: set<Pubkey>)
    requires InitializeNewGrantChecks(w, acc, idx, txSigners)
    ensures var r := InitializeNewGrant(w, acc, idx, stateBump, amount, offCurve);
      var valid := offCurve(StateSeeds(acc.userSending, acc.userReceiving, acc.mintOfTokenBeingSent, idx, stateBump));
      && (r.Ok? <==> valid && amount <= w.ledger.Balance(acc.walletToWithdrawFrom))
      && (r.Err? ==> r.error == if valid then Token(InsufficientFunds) else InvalidSeeds)
      && (r.Ok? ==>
            && r.value.record == Record(idx, acc.userSending, acc.userReceiving, acc.mintOfTokenBeingSent,
                                        acc.escrowWalletState, amount, ToCode(FundsDeposited))
            && r.value.ledger.Balance(acc.escrowWalletState) == amount
            && r.value.ledger.Balance(acc.walletToWithdrawFrom) == w.ledger.Balance(acc.walletToWithdrawFrom) - amount
            && r.value.ledger.open == w.ledger.open)
  {
    assert acc.walletToWithdrawFrom != acc.escrowWalletState by {
      assert w.ledger.authority[acc.walletToWithdrawFrom] != w.ledger.authority[acc.escrowWalletState];
    }
  }

  /** The program never compares `state_bump` with the record's bump: the
      outcome of initialisation depends on it only through whether the
      "state" seeds with it name a derived address at all. */
  lemma InitializeIgnoresStateBump(
    w: World, acc: InitializeNewGrantAccounts, idx: uint64, bump1: uint8, bump2: uint8, amount: uint64, offCurve: Seeds -> bool, txSigners: set<Pubkey>)
    requires InitializeNewGrantChecks(w, acc, idx, txSigners)
    requires offCurve(StateSeeds(acc.userSending, acc.userReceiving, acc.mintOfTokenBeingSent, idx, bump1))
          == offCurve(StateSeeds(acc.userSending, acc.userReceiving, acc.mintOfTokenBeingSent, idx, bump2))
    ensures InitializeNewGrant(w, acc, idx, bump1, amount, offCurve) == InitializeNewGrant(w, acc, idx, bump2, amount, offCurve)
  {
  }

  /** A successful initialisation establishes the escrow invariant. */
  lemma InitializeEstablishes(w: World, acc: InitializeNewGrantAccounts, idx: uint64, stateBump: uint8, amount: uint64, offCurve: Seeds -> bool, txSigners: set<Pubkey>)
    requires InitializeNewGrantChecks(w, acc, idx, txSigners)
    requires InitializeNewGrant(w, acc, idx, stateBump, amount, offCurve).Ok?
    ensures Consistent(InitializeNewGrant(w, acc, idx, stateBump, amount, offCurve).value, acc.applicationState, acc.escrowWalletState)
  {
    InitializeDeposits(w, acc, idx, stateBump, amount, offCurve, txSigners);
  }

  // ---------------------------------------------------------------------
  // Who may act, and the record and its holding

  /** Only the record's receiver can complete it: completion's account
      constraints need the record's receiver among the transaction's
      signers. */
  lemma OnlyReceiverCompletes(w: World, acc: CompleteGrantAccounts, idx: uint64, stateBump: uint8, walletBump: uint8, txSigners: set<Pubkey>)
    requires CompleteGrantChecks(w, acc, idx, stateBump, walletBump, txSigners)
    ensures w.record.userReceiving in txSigners
  {
  }

  /** Only the record's sender can pull it back. */
  lemma OnlySenderPullsBack(w: World, acc: PullBackAccounts, idx: uint64, stateBump: uint8, walletBump: uint8, txSigners: set<Pubkey>)
    requires PullBackChecks(w, acc, idx, stateBump, walletBump, txSigners)
    ensures w.record.userSending in txSigners
  {
  }

  /** The sender an initialised record names is the one who signed its
      initialisation. */
  lemma InitializeSignedBySender(
    w: World, acc: InitializeNewGrantAccounts, idx: uint64, stateBump: uint8, amount: uint64, offCurve: Seeds -> bool, txSigners: set<Pubkey>)
    requires InitializeNewGrantChecks(w, acc, idx, txSigners)
    requires InitializeNewGrant(w, acc, idx, stateBump, amount, offCurve).Ok?
    ensures InitializeNewGrant(w, acc, idx, stateBump, amount, offCurve).value.record.userSending in txSigners
  {
    InitializeDeposits(w, acc, idx, stateBump, amount, offCurve, txSigners);
  }

  /** A holding belongs to one record only: two records that are
      consistent with the same holding name the same sender, receiver,
      mint and index, and the same wallet. */
  lemma OneRecordPerHolding(w1: World, state1: Address, w2: World, state2: Address, holding: Address)
    requires Consistent(w1, state1, holding) && Consistent(w2, state2, holding)
    ensures w1.record.userSending == w2.record.userSending
    ensures w1.record.userReceiving == w2.record.userReceiving
    ensures w1.record.mintOfTokenBeingSent == w2.record.mintOfTokenBeingSent
    ensures w1.record.idx == w2.record.idx
    ensures w1.record.escrowWallet == w2.record.escrowWallet
    ensures holding in w1.ledger.open && w1.ledger == w2.ledger ==> state1 == state2
  {
  }

  /** The accounts completion is given are the record's own: its index is
      the record's, its holding is the record's wallet, and the payout's
      signer, the "state" seeds of the record's fields with `state_bump`,
      is the record's address, which owns the open holding. */
  lemma CompleteSignsAsRecord(w: World, acc: CompleteGrantAccounts, idx: uint64, stateBump: uint8, walletBump: uint8, txSigners: set<Pubkey>)
    requires CompleteGrantChecks(w, acc, idx, stateBump, walletBump, txSigners)
    requires Consistent(w, acc.applicationState, acc.escrowWalletState)
    ensures idx == w.record.idx
    ensures acc.escrowWalletState == w.record.escrowWallet
    ensures acc.applicationState
         == Pda(StateSeeds(w.record.userSending, w.record.userReceiving, w.record.mintOfTokenBeingSent, w.record.idx, stateBump))
    ensures acc.escrowWalletState in w.ledger.open ==> w.ledger.authority[acc.escrowWalletState] == acc.applicationState
  {
  }

  /** As `CompleteSignsAsRecord`, for pull-back. */
  lemma PullBackSignsAsRecord(w: World, acc: PullBackAccounts, idx: uint64, stateBump: uint8, walletBump: uint8, txSigners: set<Pubkey>)
    requires PullBackChecks(w, acc, idx, stateBump, walletBump, txSigners)
    requires Consistent(w, acc.applicationState, acc.escrowWalletState)
    ensures idx == w.record.idx
    ensures acc.escrowWalletState == w.record.escrowWallet
    ensures acc.applicationState
         == Pda(StateSeeds(w.record.userSending, w.record.userReceiving, w.record.mintOfTokenBeingSent, w.record.idx, stateBump))
    ensures acc.escrowWalletState in w.ledger.open ==> w.ledger.authority[acc.escrowWalletState] == acc.applicationState
  {
  }

  // ---------------------------------------------------------------------
  // complete_grant

  /** Completion gets past its guard only from `FundsDeposited`: with the
      holding loaded, any other stored byte is rejected with
      `StageInvalid`, and a failure commits nothing (the function returns
      no new state). */
  lemma CompleteGuard(w: World, acc: CompleteGrantAccounts, idx: uint64, stateBump: uint8)
    requires w.ledger.Valid()
    ensures CompleteGrant(w, acc, idx, stateBump).Ok? ==> w.record.stage == ToCode(FundsDeposited)
    ensures acc.escrowWalletState in w.ledger.open && w.record.stage != ToCode(FundsDeposited) ==>
              CompleteGrant(w, acc, idx, stateBump) == Err(Program(StageInvalid))
    ensures acc.escrowWalletState !in w.ledger.open ==> CompleteGrant(w, acc, idx, stateBump) == Err(AccountNotInitialized)
  {
  }

  /** From `FundsDeposited`, completion succeeds: the receiver's new wallet
      gets exactly `amount_tokens`, the holding loses exactly that and is
      closed exactly when nothing is left, the stage becomes 2 and no other
      field of the record changes. */
  lemma CompleteSettles(w: World, acc: CompleteGrantAccounts, idx: uint64, stateBump: uint8, walletBump: uint8, txSigners: set<Pubkey>)
    requires CompleteGrantChecks(w, acc, idx, stateBump, walletBump, txSigners)
    requires Consistent(w, acc.applicationState, acc.escrowWalletState)
    requires w.record.stage == ToCode(FundsDeposited)
    ensures var r := CompleteGrant(w, acc, idx, stateBump);
      && r.Ok?
      && r.value.record == w.record.(stage := ToCode(EscrowComplete))
      && r.value.ledger.Balance(acc.walletToDepositTo) == w.record.amountTokens
      && r.value.ledger.Balance(acc.escrowWalletState) == w.ledger.Balance(acc.escrowWalletState) - w.record.amountTokens
      && (acc.escrowWalletState !in r.value.ledger.open <==> w.ledger.Balance(acc.escrowWalletState) == w.record.amountTokens)
  {
    var h, d := acc.escrowWalletState, acc.walletToDepositTo;
    assert h != d by {
      assert w.ledger.authority[h] != w.ledger.authority[d];
    }
    var signer := Pda(StateSeeds(acc.userSending, acc.userReceiving, acc.mintOfTokenBeingSent, idx, stateBump));
    var moved := SplTransfer(w.ledger, h, d, acc.applicationState, {signer}, w.record.amountTokens);
    assert moved.Ok?;
    PayoutClosesIffDrained(w.ledger, acc.userSending, acc.userReceiving, acc.mintOfTokenBeingSent, h,
                           idx, acc.applicationState, stateBump, d, w.record.amountTokens);
  }

  /** Completion preserves the escrow invariant. */
  lemma CompletePreserves(w: World, acc: CompleteGrantAccounts, idx: uint64, stateBump: uint8, walletBump: uint8, txSigners: set<Pubkey>)
    requires CompleteGrantChecks(w, acc, idx, stateBump, walletBump, txSigners)
    requires Consistent(w, acc.applicationState, acc.escrowWalletState)
    requires CompleteGrant(w, acc, idx, stateBump).Ok?
    ensures Consistent(CompleteGrant(w, acc, idx, stateBump).value, acc.applicationState, acc.escrowWalletState)
  {
    CompleteSettles(w, acc, idx, stateBump, walletBump, txSigners);
  }

  // ---------------------------------------------------------------------
  // pull_back

  /** Pull-back gets past its guard only from `FundsDeposited` or
      `PullBackComplete`; with the holding loaded, `EscrowComplete` and
      every undecodable byte are rejected with `StageInvalid`. */
  lemma PullBackGuard(w: World, acc: PullBackAccounts, idx: uint64, stateBump: uint8)
    requires w.ledger.Valid()
    ensures PullBack(w, acc, idx, stateBump).Ok? ==>
              w.record.stage == ToCode(FundsDeposited) || w.record.stage == ToCode(PullBackComplete)
    ensures acc.escrowWalletState in w.ledger.open
              && w.record.stage != ToCode(FundsDeposited) && w.record.stage != ToCode(PullBackComplete) ==>
              PullBack(w, acc, idx, stateBump) == Err(Program(StageInvalid))
    ensures acc.escrowWalletState !in w.ledger.open ==> PullBack(w, acc, idx, stateBump) == Err(AccountNotInitialized)
  {
  }

  /** A pull-back refunds the holding's whole live balance (not
      `amount_tokens`) to the sender's wallet, leaves the holding empty and
      closed with its rent paid to the sender, sets stage 3 and changes no
      other field of the record. */
  lemma PullBackDrains(w: World, acc: PullBackAccounts, idx: uint64, stateBump: uint8, walletBump: uint8, txSigners: set<Pubkey>)
    requires PullBackChecks(w, acc, idx, stateBump, walletBump, txSigners)
    requires Consistent(w, acc.applicationState, acc.escrowWalletState)
    requires PullBack(w, acc, idx, stateBump).Ok?
    ensures var w' := PullBack(w, acc, idx, stateBump).value;
      && w'.record == w.record.(stage := ToCode(PullBackComplete))
      && w'.ledger.Balance(acc.refundWallet) == w.ledger.Balance(acc.refundWallet) + w.ledger.Balance(acc.escrowWalletState)
      && w'.ledger.Balance(acc.escrowWalletState) == 0
      && acc.escrowWalletState !in w'.ledger.open
      && w'.ledger.Lamports(Key(acc.userSending))
           == w.ledger.Lamports(Key(acc.userSending)) + w.ledger.Lamports(acc.escrowWalletState)
  {
    var h, d := acc.escrowWalletState, acc.refundWallet;
    assert h != d by {
      assert w.ledger.authority[h] != w.ledger.authority[d];
    }
    PayoutConserves(w.ledger, acc.userSending, acc.userReceiving, acc.mintOfTokenBeingSent, h,
                    idx, acc.applicationState, stateBump, d, w.ledger.Balance(h));
    PayoutClosesIffDrained(w.ledger, acc.userSending, acc.userReceiving, acc.mintOfTokenBeingSent, h,
                           idx, acc.applicationState, stateBump, d, w.ledger.Balance(h));
  }

  /** From `FundsDeposited`, pull-back succeeds unless the refund wallet
      would overflow. */
  lemma PullBackSucceeds(w: World, acc: PullBackAccounts, idx: uint64, stateBump: uint8, walletBump: uint8, txSigners: set<Pubkey>)
    requires PullBackChecks(w, acc, idx, stateBump, walletBump, txSigners)
    requires Consistent(w, acc.applicationState, acc.escrowWalletState)
    requires w.record.stage == ToCode(FundsDeposited)
    requires w.ledger.Balance(acc.refundWallet) + w.ledger.Balance(acc.escrowWalletState) <= MAX_UINT64
    ensures PullBack(w, acc, idx, stateBump).Ok?
  {
    var h, d := acc.escrowWalletState, acc.refundWallet;
    assert h != d by {
      assert w.ledger.authority[h] != w.ledger.authority[d];
    }
  }

  /** Pull-back preserves the escrow invariant. */
  lemma PullBackPreserves(w: World, acc: PullBackAccounts, idx: uint64, stateBump: uint8, walletBump: uint8, txSigners: set<Pubkey>)
    requires PullBackChecks(w, acc, idx, stateBump, walletBump, txSigners)
    requires Consistent(w, acc.applicationState, acc.escrowWalletState)
    requires PullBack(w, acc, idx, stateBump).Ok?
    ensures Consistent(PullBack(w, acc, idx, stateBump).value, acc.applicationState, acc.escrowWalletState)
  {
    PullBackDrains(w, acc, idx, stateBump, walletBump, txSigners);
  }

  // ---------------------------------------------------------------------
  // Sequences of instructions

  /** Once completed, an escrow releases nothing more: completion and
      pull-back both fail, with `StageInvalid` while the holding is still
      open, and because the holding cannot be loaded once it is closed. */
  lemma NoReleaseAfterComplete(w: World, cacc: CompleteGrantAccounts, pacc: PullBackAccounts, idx: uint64, stateBump: uint8)
    requires Consistent(w, cacc.applicationState, cacc.escrowWalletState)
    requires pacc.escrowWalletState == cacc.escrowWalletState
    requires w.record.stage == ToCode(EscrowComplete)
    ensures CompleteGrant(w, cacc, idx, stateBump).Err? && PullBack(w, pacc, idx, stateBump).Err?
    ensures cacc.escrowWalletState in w.ledger.open ==>
              CompleteGrant(w, cacc, idx, stateBump) == Err(Program(StageInvalid))
              && PullBack(w, pacc, idx, stateBump) == Err(Program(StageInvalid))
  {
  }

  /** Completion is not repeatable: from `FundsDeposited` the first
      completion succeeds and a second one on its result fails. */
  lemma CompleteTwiceFails(w: World, acc: CompleteGrantAccounts, idx: uint64, stateBump: uint8, walletBump: uint8, txSigners: set<Pubkey>)
    requires CompleteGrantChecks(w, acc, idx, stateBump, walletBump, txSigners)
    requires Consistent(w, acc.applicationState, acc.escrowWalletState)
    requires w.record.stage == ToCode(FundsDeposited)
    ensures CompleteGrant(w, acc, idx, stateBump).Ok?
    ensures CompleteGrant(CompleteGrant(w, acc, idx, stateBump).value, acc, idx, stateBump).Err?
  {
    CompleteSettles(w, acc, idx, stateBump, walletBump, txSigners);
    CompletePreserves(w, acc, idx, stateBump, walletBump, txSigners);
    var w' := CompleteGrant(w, acc, idx, stateBump).value;
    var pacc := PullBackAccounts(acc.applicationState, acc.escrowWalletState, acc.userSending,
                                 acc.userReceiving, acc.mintOfTokenBeingSent, acc.walletToDepositTo);
    NoReleaseAfterComplete(w', acc, pacc, idx, stateBump);
  }

  /** The guard re-admits `PullBackComplete`, but a pulled-back escrow's
      holding is closed, so a second pull-back (and a completion) fails
      when the holding is loaded, and commits nothing. */
  lemma RepeatedPullBackFails(w: World, cacc: CompleteGrantAccounts, pacc: PullBackAccounts, idx: uint64, stateBump: uint8)
    requires Consistent(w, pacc.applicationState, pacc.escrowWalletState)
    requires cacc.escrowWalletState == pacc.escrowWalletState
    requires w.record.stage == ToCode(PullBackComplete)
    ensures PullBack(w, pacc, idx, stateBump) == Err(AccountNotInitialized)
    ensures CompleteGrant(w, cacc, idx, stateBump) == Err(AccountNotInitialized)
  {
  }

  /** A record that was never initialised (stage 0, or any byte that is not
      a stage) releases nothing while its holding is loaded. */
  lemma NoReleaseBeforeInit(w: World, cacc: CompleteGrantAccounts, pacc: PullBackAccounts, idx: uint64, stateBump: uint8)
    requires w.ledger.Valid() && FromCode(w.record.stage).Err?
    requires cacc.escrowWalletState in w.ledger.open && pacc.escrowWalletState in w.ledger.open
    ensures CompleteGrant(w, cacc, idx, stateBump) == Err(Program(StageInvalid))
    ensures PullBack(w, pacc, idx, stateBump) == Err(Program(StageInvalid))
  {
  }

  /** Completion pays `amount_tokens`, not the live balance. Tokens that
      anyone added to the holding beyond it stay there after completion,
      and no instruction can move them: both guards reject stage 2. */
  lemma SurplusLockedAfterComplete(
    w: World, acc: CompleteGrantAccounts, pacc: PullBackAccounts, cacc: CompleteGrantAccounts,
    idx: uint64, stateBump: uint8, walletBump: uint8, idx2: uint64, stateBump2: uint8, txSigners: set<Pubkey>)
    requires CompleteGrantChecks(w, acc, idx, stateBump, walletBump, txSigners)
    requires Consistent(w, acc.applicationState, acc.escrowWalletState)
    requires w.record.stage == ToCode(FundsDeposited)
    requires w.ledger.Balance(acc.escrowWalletState) > w.record.amountTokens
    requires pacc.escrowWalletState == acc.escrowWalletState && cacc.escrowWalletState == acc.escrowWalletState
    ensures CompleteGrant(w, acc, idx, stateBump).Ok?
    ensures var w' := CompleteGrant(w, acc, idx, stateBump).value;
      && acc.escrowWalletState in w'.ledger.open
      && w'.ledger.Balance(acc.escrowWalletState) == w.ledger.Balance(acc.escrowWalletState) - w.record.amountTokens > 0
      && PullBack(w', pacc, idx2, stateBump2) == Err(Program(StageInvalid))
      && CompleteGrant(w', cacc, idx2, stateBump2) == Err(Program(StageInvalid))
  {
    CompleteSettles(w, acc, idx, stateBump, walletBump, txSigners);
  }

  /** The escrow's holding can be debited or closed only by the program:
      a transfer signed only by ordinary keys cannot lower the open
      holding's balance, and keeps the invariant. */
  lemma ForeignTransferPreserves(
    w: World, state: Address, holding: Address,
    from: Address, to: Address, authority: Address, signers: set<Address>, amount: uint64)
    requires Consistent(w, state, holding)
    requires forall a :: a in signers ==> a.Key?
    requires SplTransfer(w.ledger, from, to, authority, signers, amount).Ok?
    ensures holding in w.ledger.open ==>
              SplTransfer(w.ledger, from, to, authority, signers, amount).value.Balance(holding) >= w.ledger.Balance(holding)
    ensures Consistent(World(w.record, SplTransfer(w.ledger, from, to, authority, signers, amount).value), state, holding)
  {
    if holding in w.ledger.open {
      NoDebitWithoutOwner(w.ledger, from, to, authority, signers, amount, holding);
    }
  }

  lemma ForeignCloseRejected(
    w: World, state: Address, holding: Address,
    destination: Address, authority: Address, signers: set<Address>)
    requires Consistent(w, state, holding)
    requires forall a :: a in signers ==> a.Key?
    requires holding in w.ledger.open
    ensures SplCloseAccount(w.ledger, holding, destination, authority, signers).Err?
  {
  }

  /** Deposit then completion (the scenario of the integration tests): the
      sender's wallet loses `amount` (when it is not also the receiver's
      new wallet), the receiver's new wallet gets it,
      the holding is closed, the stage is 2, and a later pull-back fails. */
  lemma DepositThenComplete(
    w: World, iacc: InitializeNewGrantAccounts, cacc: CompleteGrantAccounts, pacc: PullBackAccounts,
    idx: uint64, stateBump: uint8, walletBump: uint8, amount: uint64, offCurve: Seeds -> bool,
    senderSigners: set<Pubkey>, receiverSigners: set<Pubkey>)
    requires InitializeNewGrantChecks(w, iacc, idx, senderSigners)
    requires offCurve(StateSeeds(iacc.userSending, iacc.userReceiving, iacc.mintOfTokenBeingSent, idx, stateBump))
    requires amount <= w.ledger.Balance(iacc.walletToWithdrawFrom)
    requires cacc.applicationState == iacc.applicationState && cacc.escrowWalletState == iacc.escrowWalletState
    requires pacc.escrowWalletState == iacc.escrowWalletState
    requires CompleteGrantChecks(InitializeNewGrant(w, iacc, idx, stateBump, amount, offCurve).value, cacc, idx, stateBump, walletBump, receiverSigners)
    ensures var w1 := InitializeNewGrant(w, iacc, idx, stateBump, amount, offCurve).value;
      var r := CompleteGrant(w1, cacc, idx, stateBump);
      && r.Ok?
      && r.value.ledger.Balance(cacc.walletToDepositTo) == amount
      && (cacc.walletToDepositTo != iacc.walletToWithdrawFrom ==>
            r.value.ledger.Balance(iacc.walletToWithdrawFrom) == w.ledger.Balance(iacc.walletToWithdrawFrom) - amount)
      && iacc.escrowWalletState !in r.value.ledger.open
      && r.value.record.stage == ToCode(EscrowComplete)
      && r.value.record.amountTokens == amount
      && PullBack(r.value, pacc, idx, stateBump).Err?
  {
    InitializeDeposits(w, iacc, idx, stateBump, amount, offCurve, senderSigners);
    var w1 := InitializeNewGrant(w, iacc, idx, stateBump, amount, offCurve).value;
    InitializeEstablishes(w, iacc, idx, stateBump, amount, offCurve, senderSigners);
    CompleteSettles(w1, cacc, idx, stateBump, walletBump, receiverSigners);
    CompletePreserves(w1, cacc, idx, stateBump, walletBump, receiverSigners);
    var h, d := iacc.escrowWalletState, cacc.walletToDepositTo;
    assert h != d by {
      assert w1.ledger.authority[h] != w1.ledger.authority[d];
    }
    assert iacc.walletToWithdrawFrom != h by {
      assert w.ledger.authority[iacc.walletToWithdrawFrom] != w.ledger.authority[h];
    }
    PayoutConserves(w1.ledger, cacc.userSending, cacc.userReceiving, cacc.mintOfTokenBeingSent, h,
                    idx, cacc.applicationState, stateBump, d, w1.record.amountTokens);
  }

  /** Deposit then pull-back into the same wallet (the scenario of the
      integration tests): the sender's wallet is back where it started, the
      holding is closed, the stage is 3 and `amount_tokens` is unchanged. */
  lemma DepositThenPullBack(
    w: World, iacc: InitializeNewGrantAccounts, pacc: PullBackAccounts,
    idx: uint64, stateBump: uint8, walletBump: uint8, amount: uint64, offCurve: Seeds -> bool, txSigners: set<Pubkey>)
    requires InitializeNewGrantChecks(w, iacc, idx, txSigners)
    requires offCurve(StateSeeds(iacc.userSending, iacc.userReceiving, iacc.mintOfTokenBeingSent, idx, stateBump))
    requires amount <= w.ledger.Balance(iacc.walletToWithdrawFrom)
    requires pacc.applicationState == iacc.applicationState && pacc.escrowWalletState == iacc.escrowWalletState
    requires pacc.refundWallet == iacc.walletToWithdrawFrom
    requires PullBackChecks(InitializeNewGrant(w, iacc, idx, stateBump, amount, offCurve).value, pacc, idx, stateBump, walletBump, txSigners)
    ensures var w1 := InitializeNewGrant(w, iacc, idx, stateBump, amount, offCurve).value;
      var r := PullBack(w1, pacc, idx, stateBump);
      && r.Ok?
      && r.value.ledger.Balance(iacc.walletToWithdrawFrom) == w.ledger.Balance(iacc.walletToWithdrawFrom)
      && iacc.escrowWalletState !in r.value.ledger.open
      && r.value.record.stage == ToCode(PullBackComplete)
      && r.value.record.amountTokens == amount
  {
    InitializeDeposits(w, iacc, idx, stateBump, amount, offCurve, txSigners);
    var w1 := InitializeNewGrant(w, iacc, idx, stateBump, amount, offCurve).value;
    InitializeEstablishes(w, iacc, idx, stateBump, amount, offCurve, txSigners);
    PullBackSucceeds(w1, pacc, idx, stateBump, walletBump, txSigners);
    PullBackDrains(w1, pacc, idx, stateBump, walletBump, txSigners);
  }
}
