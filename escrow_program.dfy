/** The program's instruction handlers as the source writes them: they
    assign the fields of the mutable `State` account and call the token
    ledger step by step. Each is proved to do exactly what the matching
    function of `EscrowSpec` says, and to commit nothing when it fails. */
module EscrowProgram {
  import opened Wrappers
  import opened Primitives
  import opened Errors
  import opened Stages
  import opened Derivation
  import opened TokenLedger
  import Spec = EscrowSpec

  /** The `State` account, one per (sender, receiver, mint, index). */
  class State {
    var idx: uint64
    var userSending: Pubkey
    var userReceiving: Pubkey
    var mintOfTokenBeingSent: Pubkey
    var escrowWallet: Address
    var amountTokens: uint64
    var stage: uint8

    function View(): Spec.Record
      reads this
    {
      Spec.Record(idx, userSending, userReceiving, mintOfTokenBeingSent, escrowWallet, amountTokens, stage)
    }

    /** A freshly allocated account: `State::default()`. */
    constructor ()
      ensures View() == Spec.DEFAULT_RECORD
    {
      idx, amountTokens, stage := 0, 0, 0;
      userSending, userReceiving, mintOfTokenBeingSent := ZERO_KEY, ZERO_KEY, ZERO_KEY;
      escrowWallet := Key(ZERO_KEY);
    }

    /** Puts back a saved record: the runtime discards the account writes
        of an instruction that fails. */
    method Restore(saved: Spec.Record)
      modifies this
      ensures View() == saved
    {
      idx, userSending, userReceiving := saved.idx, saved.userSending, saved.userReceiving;
      mintOfTokenBeingSent, escrowWallet := saved.mintOfTokenBeingSent, saved.escrowWallet;
      amountTokens, stage := saved.amountTokens, saved.stage;
    }
  }

  /** `transfer_escrow_out`. */
  method TransferEscrowOut(
    ledger: Ledger, userSending: Pubkey, userReceiving: Pubkey, mint: Pubkey, escrowWallet: Address,
    applicationIdx: uint64, state: Address, stateBump: uint8, destinationWallet: Address, amount: uint64)
    returns (r: Outcome<TokenError>)
    requires ledger.View().Valid()
    requires escrowWallet.Pda?
    modifies ledger
    ensures ledger.View().Valid()
    ensures r == Spec.TransferEscrowOut(old(ledger.View()), userSending, userReceiving, mint, escrowWallet,
                                        applicationIdx, state, stateBump, destinationWallet, amount).ToOutcome()
    ensures ledger.View() == Spec.TransferEscrowOut(old(ledger.View()), userSending, userReceiving, mint, escrowWallet,
                                                    applicationIdx, state, stateBump, destinationWallet, amount).GetOr(old(ledger.View()))
  {
    // Sign on behalf of the record's derived address.
    var signer := Pda(StateSeeds(userSending, userReceiving, mint, applicationIdx, stateBump));
    r := ledger.Transfer(escrowWallet, destinationWallet, state, {signer}, amount);
    if r.Fail? {
      return;
    }
    // Re-read the holding; close it once it is empty.
    var shouldClose := ledger.View().Balance(escrowWallet) == 0;
    if shouldClose {
      r := ledger.CloseAccount(escrowWallet, Key(userSending), state, {signer});
      if r.Fail? {
        // The transfer just succeeded with this authority and signer, the
        // holding is open and empty, and it is a derived address while the
        // rent goes to an ordinary key: closing cannot fail.
        assert false;
      }
    }
  }

  /** `initialize_new_grant`. `offCurve` tells which seed lists name a
      derived address (see `EscrowSpec.InitializeNewGrant`). */
  method InitializeNewGrant(
    state: State, ledger: Ledger, acc: Spec.InitializeNewGrantAccounts,
    applicationIdx: uint64, stateBump: uint8, walletBump: uint8, amount: uint64, offCurve: Seeds -> bool,
    txSigners: set<Pubkey>)
    returns (r: Outcome<Spec.Error>)
    requires Spec.InitializeNewGrantChecks(Spec.World(state.View(), ledger.View()), acc, applicationIdx, txSigners)
    modifies state, ledger
    ensures ledger.View().Valid()
    ensures r == Spec.InitializeNewGrant(old(Spec.World(state.View(), ledger.View())), acc, applicationIdx, stateBump, amount, offCurve).ToOutcome()
    ensures Spec.World(state.View(), ledger.View())
         == Spec.InitializeNewGrant(old(Spec.World(state.View(), ledger.View())), acc, applicationIdx, stateBump, amount, offCurve)
              .GetOr(old(Spec.World(state.View(), ledger.View())))
  {
    var saved := state.View();
    state.idx := applicationIdx;
    state.userSending := acc.userSending;
    state.userReceiving := acc.userReceiving;
    state.mintOfTokenBeingSent := acc.mintOfTokenBeingSent;
    state.escrowWallet := acc.escrowWalletState;
    state.amountTokens := amount;

    var seeds := StateSeeds(acc.userSending, acc.userReceiving, acc.mintOfTokenBeingSent, applicationIdx, stateBump);
    // The runtime derives the signer from its seeds before the token
    // program runs, and refuses seeds that name no derived address.
    if !offCurve(seeds) {
      state.Restore(saved);
      return Fail(Spec.InvalidSeeds);
    }
    var t := ledger.Transfer(acc.walletToWithdrawFrom, acc.escrowWalletState, Key(acc.userSending),
                             {Key(acc.userSending), Pda(seeds)}, state.amountTokens);
    if t.Fail? {
      state.Restore(saved);
      return Fail(Spec.Token(t.error));
    }
    // Mark stage as deposited.
    state.stage := ToCode(FundsDeposited);
    r := Pass;
  }

  /** `complete_grant`. */
  method CompleteGrant(
    state: State, ledger: Ledger, acc: Spec.CompleteGrantAccounts,
    applicationIdx: uint64, stateBump: uint8, walletBump: uint8, txSigners: set<Pubkey>)
    returns (r: Outcome<Spec.Error>)
    requires Spec.CompleteGrantChecks(Spec.World(state.View(), ledger.View()), acc, applicationIdx, stateBump, walletBump, txSigners)
    modifies state, ledger
    ensures ledger.View().Valid()
    ensures r == Spec.CompleteGrant(old(Spec.World(state.View(), ledger.View())), acc, applicationIdx, stateBump).ToOutcome()
    ensures Spec.World(state.View(), ledger.View())
         == Spec.CompleteGrant(old(Spec.World(state.View(), ledger.View())), acc, applicationIdx, stateBump)
              .GetOr(old(Spec.World(state.View(), ledger.View())))
  {
    // Loading `escrow_wallet_state` fails once the holding is closed.
    if acc.escrowWalletState !in ledger.open {
      return Fail(Spec.AccountNotInitialized);
    }
    var current := FromCode(state.stage);
    if current.Err? {
      return Fail(Spec.Program(current.error));
    }
    if current.value != FundsDeposited {
      return Fail(Spec.Program(StageInvalid));
    }
    var t := TransferEscrowOut(
      ledger, acc.userSending, acc.userReceiving, acc.mintOfTokenBeingSent, acc.escrowWalletState,
      applicationIdx, acc.applicationState, stateBump, acc.walletToDepositTo, state.amountTokens);
    if t.Fail? {
      return Fail(Spec.Token(t.error));
    }
    state.stage := ToCode(EscrowComplete);
    r := Pass;
  }

  /** `pull_back`. */
  method PullBack(
    state: State, ledger: Ledger, acc: Spec.PullBackAccounts,
    applicationIdx: uint64, stateBump: uint8, walletBump: uint8, txSigners: set<Pubkey>)
    returns (r: Outcome<Spec.Error>)
    requires Spec.PullBackChecks(Spec.World(state.View(), ledger.View()), acc, applicationIdx, stateBump, walletBump, txSigners)
    modifies state, ledger
    ensures ledger.View().Valid()
    ensures r == Spec.PullBack(old(Spec.World(state.View(), ledger.View())), acc, applicationIdx, stateBump).ToOutcome()
    ensures Spec.World(state.View(), ledger.View())
         == Spec.PullBack(old(Spec.World(state.View(), ledger.View())), acc, applicationIdx, stateBump)
              .GetOr(old(Spec.World(state.View(), ledger.View())))
  {
    // Loading `escrow_wallet_state` fails once the holding is closed.
    if acc.escrowWalletState !in ledger.open {
      return Fail(Spec.AccountNotInitialized);
    }
    var current := FromCode(state.stage);
    if current.Err? {
      return Fail(Spec.Program(current.error));
    }
    var isValidStage := current.value == FundsDeposited || current.value == PullBackComplete;
    if !isValidStage {
      return Fail(Spec.Program(StageInvalid));
    }
    var walletAmount := ledger.View().Balance(acc.escrowWalletState);
    var t := TransferEscrowOut(
      ledger, acc.userSending, acc.userReceiving, acc.mintOfTokenBeingSent, acc.escrowWalletState,
      applicationIdx, acc.applicationState, stateBump, acc.refundWallet, walletAmount);
    if t.Fail? {
      return Fail(Spec.Token(t.error));
    }
    state.stage := ToCode(PullBackComplete);
    r := Pass;
  }
}
