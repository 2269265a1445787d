/** The token ledger the escrow program calls into: token-account balances,
    each account's owning authority, lamports, and which accounts are open.
    Only the two instructions the program uses are modelled, `transfer` and
    `close_account`, with the checks they make in the order they make them. */
module TokenLedger {
  import opened Wrappers
  import opened Primitives
  import opened Derivation

  datatype TokenError =
    | UninitializedState        // an account is not an open token account (the
                                // token program reports `UninitializedAccount`)
    | InsufficientFunds         // the source holds less than the amount
    | OwnerMismatch             // the authority is not the account's owner
    | MissingRequiredSignature  // the authority did not sign
    | Overflow                  // the destination would exceed 2^64 - 1
    | NonNativeHasBalance       // closing an account that still holds tokens
    | InvalidAccountData        // closing an account into itself

  /** A snapshot of the ledger. A closed account keeps no tokens. */
  datatype LedgerState = LedgerState(
    balance: map<Address, uint64>,
    authority: map<Address, Address>,
    lamports: map<Address, nat>,
    open: set<Address>)
  {
    /** Every open account has an owner. */
    predicate Valid() {
      open <= authority.Keys
    }

    function Balance(a: Address): uint64 {
      if a in balance then balance[a] else 0
    }

    function Lamports(a: Address): nat {
      if a in lamports then lamports[a] else 0
    }
  }

  /** `transfer(from, to, authority, amount)` signed by `signers`. It
      succeeds exactly when both accounts are open, the source holds
      `amount`, `authority` owns the source and signed, and the destination
      does not overflow; then `amount` moves and nothing else changes. */
  function SplTransfer(l: LedgerState, from: Address, to: Address, authority: Address, signers: set<Address>, amount: uint64): (r: Result<LedgerState, TokenError>)
    requires l.Valid()
    ensures r.Ok? <==>
      && from in l.open && to in l.open
      && amount <= l.Balance(from)
      && l.authority[from] == authority && authority in signers
      && (from == to || l.Balance(to) + amount <= MAX_UINT64)
    ensures from !in l.open || to !in l.open ==> r == Err(UninitializedState)
    ensures from in l.open && to in l.open && amount > l.Balance(from) ==> r == Err(InsufficientFunds)
    ensures r.Ok? ==>
      && r.value.Valid()
      && r.value.open == l.open && r.value.authority == l.authority && r.value.lamports == l.lamports
      && (from == to ==> r.value == l)
      && (from != to ==> r.value.Balance(from) == l.Balance(from) - amount && r.value.Balance(to) == l.Balance(to) + amount)
      && (forall a :: a != from && a != to ==> r.value.Balance(a) == l.Balance(a))
  {
    if from !in l.open || to !in l.open then Err(UninitializedState)
    else if l.Balance(from) < amount then Err(InsufficientFunds)
    else if l.authority[from] != authority then Err(OwnerMismatch)
    else if authority !in signers then Err(MissingRequiredSignature)
    else if from == to then Ok(l)
    else if l.Balance(to) + amount > MAX_UINT64 then Err(Overflow)
    else Ok(l.(balance := l.balance[from := l.Balance(from) - amount][to := l.Balance(to) + amount]))
  }

  /** `close_account(account, destination, authority)` signed by `signers`.
      It succeeds exactly when the account is open, empty, owned by
      `authority` which signed, and is not its own destination; then the
      account is no longer open and its lamports go to `destination`. */
  function SplCloseAccount(l: LedgerState, account: Address, destination: Address, authority: Address, signers: set<Address>): (r: Result<LedgerState, TokenError>)
    requires l.Valid()
    ensures r.Ok? <==>
      && account != destination && account in l.open && l.Balance(account) == 0
      && l.authority[account] == authority && authority in signers
    ensures r.Ok? ==>
      && r.value.Valid()
      && r.value.open == l.open - {account}
      && r.value.balance == l.balance && r.value.authority == l.authority
      && r.value.Lamports(destination) == l.Lamports(destination) + l.Lamports(account)
      && r.value.Lamports(account) == 0
      && (forall a :: a != account && a != destination ==> r.value.Lamports(a) == l.Lamports(a))
  {
    if account == destination then Err(InvalidAccountData)
    else if account !in l.open then Err(UninitializedState)
    else if l.Balance(account) != 0 then Err(NonNativeHasBalance)
    else if l.authority[account] != authority then Err(OwnerMismatch)
    else if authority !in signers then Err(MissingRequiredSignature)
    else
      var paid := l.lamports[destination := l.Lamports(destination) + l.Lamports(account)];
      Ok(l.(open := l.open - {account}, lamports := paid[account := 0]))
  }

  /** A transfer moves tokens and creates none: the two accounts together
      hold what they held before. */
  lemma TransferConserves(l: LedgerState, from: Address, to: Address, authority: Address, signers: set<Address>, amount: uint64)
    requires l.Valid() && SplTransfer(l, from, to, authority, signers, amount).Ok?
    ensures var m := SplTransfer(l, from, to, authority, signers, amount).value;
      from != to ==> m.Balance(from) + m.Balance(to) == l.Balance(from) + l.Balance(to)
  {
  }

  /** Only the owner, by signing, can lower an account's balance: a transfer
      whose signers do not include an account's owner leaves that account
      with at least what it had. */
  lemma NoDebitWithoutOwner(l: LedgerState, from: Address, to: Address, authority: Address, signers: set<Address>, amount: uint64, h: Address)
    requires l.Valid() && h in l.open && l.authority[h] !in signers
    requires SplTransfer(l, from, to, authority, signers, amount).Ok?
    ensures SplTransfer(l, from, to, authority, signers, amount).value.Balance(h) >= l.Balance(h)
  {
  }

  /** The token-ledger account object the program's calls act on. */
  class Ledger {
    var balance: map<Address, uint64>
    var authority: map<Address, Address>
    var lamports: map<Address, nat>
    var open: set<Address>

    function View(): LedgerState
      reads this
    {
      LedgerState(balance, authority, lamports, open)
    }

    constructor (l: LedgerState)
      ensures View() == l
    {
      balance, authority, lamports, open := l.balance, l.authority, l.lamports, l.open;
    }

    /** The `transfer` instruction; a failed one changes nothing. */
    method Transfer(from: Address, to: Address, auth: Address, signers: set<Address>, amount: uint64) returns (r: Outcome<TokenError>)
      requires View().Valid()
      modifies this
      ensures r == SplTransfer(old(View()), from, to, auth, signers, amount).ToOutcome()
      ensures View() == SplTransfer(old(View()), from, to, auth, signers, amount).GetOr(old(View()))
    {
      if from !in open || to !in open {
        return Fail(UninitializedState);
      }
      var source := View().Balance(from);
      if source < amount {
        return Fail(InsufficientFunds);
      }
      if authority[from] != auth {
        return Fail(OwnerMismatch);
      }
      if auth !in signers {
        return Fail(MissingRequiredSignature);
      }
      if from == to {
        return Pass;
      }
      var destination := View().Balance(to);
      if destination + amount > MAX_UINT64 {
        return Fail(Overflow);
      }
      balance := balance[from := source - amount];
      balance := balance[to := destination + amount];
      r := Pass;
    }

    /** The `close_account` instruction; a failed one changes nothing. */
    method CloseAccount(account: Address, destination: Address, auth: Address, signers: set<Address>) returns (r: Outcome<TokenError>)
      requires View().Valid()
      modifies this
      ensures r == SplCloseAccount(old(View()), account, destination, auth, signers).ToOutcome()
      ensures View() == SplCloseAccount(old(View()), account, destination, auth, signers).GetOr(old(View()))
    {
      if account == destination {
        return Fail(InvalidAccountData);
      }
      if account !in open {
        return Fail(UninitializedState);
      }
      if View().Balance(account) != 0 {
        return Fail(NonNativeHasBalance);
      }
      if authority[account] != auth {
        return Fail(OwnerMismatch);
      }
      if auth !in signers {
        return Fail(MissingRequiredSignature);
      }
      var rent := View().Lamports(account);
      lamports := lamports[destination := View().Lamports(destination) + rent];
      lamports := lamports[account := 0];
      open := open - {account};
      r := Pass;
    }
  }
}
