/** The transaction engine: the transition each instruction makes on the
    account map and the transaction table, first as functions on values
    (the specification), then as the `Ledger` object that owns the table and
    updates it in place. */
module Ledgers {
  import opened Accounts
  import opened Transactions

  /** Why the ledger rejected a well-formed instruction. */
  datatype LedgerError =
    | DuplicateTransaction(tx: TxId)
    | AccountNotFound(tx: TxId, client: AccountId)
    | AccountLocked(tx: TxId, client: AccountId)
    | InsufficientFunds(tx: TxId, client: AccountId, amount: Amount)
    | InsufficientFundsToHold(tx: TxId, client: AccountId, amount: Amount)
    | TransactionNotFound(tx: TxId)
    | TransactionNotDisputable(tx: TxId)
    | TransactionNotDisputed(tx: TxId)

  /** Result of one ledger call as the caller sees it. */
  datatype Outcome = Pass | Fail(error: LedgerError)

  /** The whole state one instruction reads and writes. */
  datatype Books = Books(accounts: map<AccountId, Account>, transactions: map<TxId, TxRecord>)

  datatype Result = Ok(books: Books) | Err(error: LedgerError)

  /** Every record of `before` is still in `after` with the same owner, kind
      and amount; only its dispute status may differ. */
  ghost predicate RecordsKept(before: map<TxId, TxRecord>, after: map<TxId, TxRecord>)
  {
    forall t :: t in before ==>
      t in after && after[t].client == before[t].client && after[t].kind == before[t].kind &&
      after[t].amount == before[t].amount
  }

  /** Every account of `before` other than client `c`'s is in `after` unchanged. */
  ghost predicate OthersUntouched(before: map<AccountId, Account>, after: map<AccountId, Account>, c: AccountId)
  {
    forall d :: d in before && d != c ==> d in after && after[d] == before[d]
  }

  function ApplyDeposit(b: Books, c: AccountId, t: TxId, amount: PositiveAmount): Result
  {
    if t in b.transactions then Err(DuplicateTransaction(t))
    else if c in b.accounts && b.accounts[c].locked then Err(AccountLocked(t, c))
    else
      var acc := if c in b.accounts then b.accounts[c] else NewAccount;
      Ok(Books(b.accounts[c := acc.(available := acc.available + amount)],
               b.transactions[t := TxRecord(c, DepositTx, amount, Clean)]))
  }

  function ApplyWithdrawal(b: Books, c: AccountId, t: TxId, amount: PositiveAmount): Result
  {
    if t in b.transactions then Err(DuplicateTransaction(t))
    else if c !in b.accounts then Err(AccountNotFound(t, c))
    else if b.accounts[c].locked then Err(AccountLocked(t, c))
    else if amount > b.accounts[c].available then Err(InsufficientFunds(t, c, amount))
    else
      var acc := b.accounts[c];
      Ok(Books(b.accounts[c := acc.(available := acc.available - amount)],
               b.transactions[t := TxRecord(c, WithdrawalTx, amount, Clean)]))
  }

  /** The checks the dispute family shares: the referenced transaction exists
      and belongs to the client, and the client's account exists and is not
      locked. */
  function CheckTarget(b: Books, c: AccountId, t: TxId): (o: Outcome)
    ensures o.Pass? <==>
      t in b.transactions && b.transactions[t].client == c && c in b.accounts && !b.accounts[c].locked
    ensures o.Fail? ==> o.error.tx == t
    ensures t !in b.transactions || b.transactions[t].client != c ==> o == Fail(TransactionNotFound(t))
  {
    if t !in b.transactions || b.transactions[t].client != c then Fail(TransactionNotFound(t))
    else if c !in b.accounts then Fail(AccountNotFound(t, c))
    else if b.accounts[c].locked then Fail(AccountLocked(t, c))
    else Pass
  }

  function ApplyDispute(b: Books, c: AccountId, t: TxId): Result
  {
    match CheckTarget(b, c, t)
    case Fail(e) => Err(e)
    case Pass =>
      var rec, acc := b.transactions[t], b.accounts[c];
      if rec.kind != DepositTx || rec.status != Clean then Err(TransactionNotDisputable(t))
      else if rec.amount > acc.available then Err(InsufficientFundsToHold(t, c, rec.amount))
      else
        Ok(Books(b.accounts[c := acc.(available := acc.available - rec.amount, held := acc.held + rec.amount)],
                 b.transactions[t := rec.(status := Disputed)]))
  }

  function ApplyResolve(b: Books, c: AccountId, t: TxId): Result
  {
    match CheckTarget(b, c, t)
    case Fail(e) => Err(e)
    case Pass =>
      var rec, acc := b.transactions[t], b.accounts[c];
      if rec.status != Disputed then Err(TransactionNotDisputed(t))
      else
        Ok(Books(b.accounts[c := acc.(available := acc.available + rec.amount, held := acc.held - rec.amount)],
                 b.transactions[t := rec.(status := Resolved)]))
  }

  function ApplyChargeback(b: Books, c: AccountId, t: TxId): Result
  {
    match CheckTarget(b, c, t)
    case Fail(e) => Err(e)
    case Pass =>
      var rec, acc := b.transactions[t], b.accounts[c];
      if rec.status != Disputed then Err(TransactionNotDisputed(t))
      else
        Ok(Books(b.accounts[c := acc.(held := acc.held - rec.amount, locked := true)],
                 b.transactions[t := rec.(status := ChargedBack)]))
  }

  /** One ledger call. A successful call touches only the instruction's
      client's account (creating it only for a deposit), never forgets or
      rewrites a record beyond its status, and never succeeds on a locked
      account. A failed call carries the transaction id it was about. */
  function Apply(b: Books, ins: Instruction): (r: Result)
    ensures r.Ok? ==>
      ins.client in r.books.accounts &&
      r.books.accounts.Keys == b.accounts.Keys + {ins.client} &&
      OthersUntouched(b.accounts, r.books.accounts, ins.client) &&
      RecordsKept(b.transactions, r.books.transactions) &&
      !r.books.accounts[ins.client].locked == !ins.Chargeback?
    ensures r.Ok? && ins.client in b.accounts ==> !b.accounts[ins.client].locked
    ensures r.Ok? && !ins.Deposit? ==> ins.client in b.accounts
    ensures r.Ok? && (ins.Deposit? || ins.Withdrawal?) ==>
      ins.tx !in b.transactions && r.books.transactions.Keys == b.transactions.Keys + {ins.tx}
    ensures r.Ok? && !(ins.Deposit? || ins.Withdrawal?) ==> r.books.transactions.Keys == b.transactions.Keys
    ensures r.Err? ==> r.error.tx == ins.tx
  {
    match ins
    case Deposit(c, t, amount) => ApplyDeposit(b, c, t, amount)
    case Withdrawal(c, t, amount) => ApplyWithdrawal(b, c, t, amount)
    case Dispute(c, t) => ApplyDispute(b, c, t)
    case Resolve(c, t) => ApplyResolve(b, c, t)
    case Chargeback(c, t) => ApplyChargeback(b, c, t)
  }

  /** How a successful call changes its client's account: a deposit credits
      and a withdrawal debits available funds only; a dispute moves the
      transaction's amount from available to held and a resolve moves it back,
      leaving the total unchanged; a chargeback removes the amount from held
      only and locks the account. */
  lemma ApplyMovesTotal(b: Books, ins: Instruction)
    requires Apply(b, ins).Ok?
    ensures var c, after := ins.client, Apply(b, ins).books.accounts;
      var before := if c in b.accounts then b.accounts[c] else NewAccount;
      match ins
      case Deposit(_, _, amount) =>
        after[c] == before.(available := before.available + amount) && after[c].Total() == before.Total() + amount
      case Withdrawal(_, _, amount) =>
        after[c] == before.(available := before.available - amount) && after[c].Total() == before.Total() - amount
      case Dispute(_, t) =>
        var amount := b.transactions[t].amount;
        after[c] == before.(available := before.available - amount, held := before.held + amount) &&
        after[c].Total() == before.Total()
      case Resolve(_, t) =>
        var amount := b.transactions[t].amount;
        after[c] == before.(available := before.available + amount, held := before.held - amount) &&
        after[c].Total() == before.Total()
      case Chargeback(_, t) =>
        var amount := b.transactions[t].amount;
        after[c] == before.(held := before.held - amount, locked := true) &&
        after[c].Total() == before.Total() - amount
  {
  }

  /** A successful deposit or withdrawal adds exactly one Clean record for
      its client, kind and amount under its own id; every other record,
      status included, is left as it was. */
  lemma NewRecord(b: Books, ins: Instruction)
    requires (ins.Deposit? || ins.Withdrawal?) && Apply(b, ins).Ok?
    ensures Apply(b, ins).books.transactions ==
      b.transactions[ins.tx := TxRecord(ins.client, if ins.Deposit? then DepositTx else WithdrawalTx, ins.amount, Clean)]
  {
  }

  /** A withdrawal that passes the id, account and lock checks but asks for
      more than the available funds fails as insufficient funds, naming the
      transaction, the account and the amount. */
  lemma OverdraftRejected(b: Books, c: AccountId, t: TxId, amount: PositiveAmount)
    requires t !in b.transactions && c in b.accounts && !b.accounts[c].locked
    requires amount > b.accounts[c].available
    ensures Apply(b, Withdrawal(c, t, amount)) == Err(InsufficientFunds(t, c, amount))
  {
  }

  /** A dispute, resolve or chargeback of a transaction the ledger never
      recorded fails as not found. */
  lemma UnknownTxNotFound(b: Books, ins: Instruction)
    requires !ins.Deposit? && !ins.Withdrawal? && ins.tx !in b.transactions
    ensures Apply(b, ins) == Err(TransactionNotFound(ins.tx))
  {
  }

  /** The dispute lifecycle of one record: a dispute needs a Clean deposit of
      the client and makes it Disputed; a resolve or a chargeback needs a
      Disputed record and makes it Resolved or ChargedBack. No other record
      changes status. */
  lemma DisputeLifecycle(b: Books, ins: Instruction)
    requires !ins.Deposit? && !ins.Withdrawal? && Apply(b, ins).Ok?
    ensures var t, after := ins.tx, Apply(b, ins).books.transactions;
      t in b.transactions && b.transactions[t].client == ins.client &&
      (forall u :: u in b.transactions && u != t ==> after[u] == b.transactions[u]) &&
      match ins
      case Dispute(_, _) =>
        b.transactions[t].kind == DepositTx && b.transactions[t].status == Clean && after[t].status == Disputed
      case Resolve(_, _) => b.transactions[t].status == Disputed && after[t].status == Resolved
      case Chargeback(_, _) => b.transactions[t].status == Disputed && after[t].status == ChargedBack
      case _ => false
  {
  }

  /** `after` and `outcome` are what a call whose specified result is `r`
      leaves behind: all of it on success, nothing at all on failure. */
  ghost predicate Commits(r: Result, before: Books, after: Books, outcome: Outcome)
  {
    match r
    case Ok(b) => outcome == Pass && after == b
    case Err(e) => outcome == Fail(e) && after == before
  }

  /** The ledger owns the transaction table; the caller owns the account map
      and hands it to every call. */
  class Ledger {
    var transactions: map<TxId, TxRecord>

    constructor ()
      ensures transactions == map[]
    {
      transactions := map[];
    }

    method ProcessTransaction(accounts: map<AccountId, Account>, ins: Instruction)
      returns (accounts': map<AccountId, Account>, outcome: Outcome)
      modifies this
      ensures Commits(Apply(Books(accounts, old(transactions)), ins),
                      Books(accounts, old(transactions)), Books(accounts', transactions), outcome)
    {
      match ins
      case Deposit(c, t, amount) => accounts', outcome := Deposit(accounts, c, t, amount);
      case Withdrawal(c, t, amount) => accounts', outcome := Withdraw(accounts, c, t, amount);
      case Dispute(c, t) => accounts', outcome := Dispute(accounts, c, t);
      case Resolve(c, t) => accounts', outcome := Resolve(accounts, c, t);
      case Chargeback(c, t) => accounts', outcome := Chargeback(accounts, c, t);
    }

    method Deposit(accounts: map<AccountId, Account>, c: AccountId, t: TxId, amount: PositiveAmount)
      returns (accounts': map<AccountId, Account>, outcome: Outcome)
      modifies this
      ensures Commits(ApplyDeposit(Books(accounts, old(transactions)), c, t, amount),
                      Books(accounts, old(transactions)), Books(accounts', transactions), outcome)
    {
      accounts' := accounts;
      if t in transactions {
        outcome := Fail(DuplicateTransaction(t));
        return;
      }
      var account := NewAccount;
      if c in accounts {
        account := accounts[c];
        if account.locked {
          outcome := Fail(AccountLocked(t, c));
          return;
        }
      }
      accounts' := accounts[c := account.(available := account.available + amount)];
      transactions := transactions[t := TxRecord(c, DepositTx, amount, Clean)];
      outcome := Pass;
    }

    method Withdraw(accounts: map<AccountId, Account>, c: AccountId, t: TxId, amount: PositiveAmount)
      returns (accounts': map<AccountId, Account>, outcome: Outcome)
      modifies this
      ensures Commits(ApplyWithdrawal(Books(accounts, old(transactions)), c, t, amount),
                      Books(accounts, old(transactions)), Books(accounts', transactions), outcome)
    {
      accounts' := accounts;
      if t in transactions {
        outcome := Fail(DuplicateTransaction(t));
        return;
      }
      if c !in accounts {
        outcome := Fail(AccountNotFound(t, c));
        return;
      }
      var account := accounts[c];
      if account.locked {
        outcome := Fail(AccountLocked(t, c));
      } else if amount > account.available {
        outcome := Fail(InsufficientFunds(t, c, amount));
      } else {
        accounts' := accounts[c := account.(available := account.available - amount)];
        transactions := transactions[t := TxRecord(c, WithdrawalTx, amount, Clean)];
        outcome := Pass;
      }
    }

    method Dispute(accounts: map<AccountId, Account>, c: AccountId, t: TxId)
      returns (accounts': map<AccountId, Account>, outcome: Outcome)
      modifies this
      ensures Commits(ApplyDispute(Books(accounts, old(transactions)), c, t),
                      Books(accounts, old(transactions)), Books(accounts', transactions), outcome)
    {
      accounts' := accounts;
      outcome := CheckTarget(Books(accounts, transactions), c, t);
      if outcome.Fail? {
        return;
      }
      var record, account := transactions[t], accounts[c];
      if record.kind != DepositTx || record.status != Clean {
        outcome := Fail(TransactionNotDisputable(t));
      } else if record.amount > account.available {
        outcome := Fail(InsufficientFundsToHold(t, c, record.amount));
      } else {
        accounts' := accounts[c := account.(available := account.available - record.amount,
                                            held := account.held + record.amount)];
        transactions := transactions[t := record.(status := Disputed)];
      }
    }

    method Resolve(accounts: map<AccountId, Account>, c: AccountId, t: TxId)
      returns (accounts': map<AccountId, Account>, outcome: Outcome)
      modifies this
      ensures Commits(ApplyResolve(Books(accounts, old(transactions)), c, t),
                      Books(accounts, old(transactions)), Books(accounts', transactions), outcome)
    {
      accounts' := accounts;
      outcome := CheckTarget(Books(accounts, transactions), c, t);
      if outcome.Fail? {
        return;
      }
      var record, account := transactions[t], accounts[c];
      if record.status != Disputed {
        outcome := Fail(TransactionNotDisputed(t));
      } else {
        accounts' := accounts[c := account.(available := account.available + record.amount,
                                            held := account.held - record.amount)];
        transactions := transactions[t := record.(status := Resolved)];
      }
    }

    method Chargeback(accounts: map<AccountId, Account>, c: AccountId, t: TxId)
      returns (accounts': map<AccountId, Account>, outcome: Outcome)
      modifies this
      ensures Commits(ApplyChargeback(Books(accounts, old(transactions)), c, t),
                      Books(accounts, old(transactions)), Books(accounts', transactions), outcome)
    {
      accounts' := accounts;
      outcome := CheckTarget(Books(accounts, transactions), c, t);
      if outcome.Fail? {
        return;
      }
      var record, account := transactions[t], accounts[c];
      if record.status != Disputed {
        outcome := Fail(TransactionNotDisputed(t));
      } else {
        accounts' := accounts[c := account.(held := account.held - record.amount, locked := true)];
        transactions := transactions[t := record.(status := ChargedBack)];
      }
    }
  }
}
