# transaction_processor — a Dafny model of the payment-instruction engine

The program reads a stream of client payment instructions (deposit,
withdrawal, dispute, resolve, chargeback) and keeps per-client accounts with
`available`, `held`, a derived `total` and a `locked` flag. The batch driver
`process_csv` (src/main.rs:49-64) creates one ledger. It hands every row that
parses, in order, to that ledger together with the account map it owns. A row
that fails to parse, or that the ledger rejects, adds one error to an ordered
list, and the stream always goes on. At the end the driver returns the account
map and the errors.

This project models that driver and the ledger transitions its unit tests pin
down:

- `account.dfy` (module `Accounts`): `Account` as a value with `available`,
  `held`, `locked` and the derived `Total()`. Amounts are exact decimals held
  as integers in units of 0.0001 (1.0001 is 10001).
- `transaction.dfy` (module `Transactions`): the five instructions, and the
  record the ledger keeps of an accepted deposit or withdrawal with its dispute
  status (Clean, Disputed, Resolved, ChargedBack). The row parser only lets
  through a deposit or withdrawal whose amount is present and positive, so that
  amount has the type `PositiveAmount`.
- `ledger.dfy` (module `Ledgers`): the transition of one instruction as pure
  functions (`Apply` and one function per kind), and the class `Ledger`. The
  class owns the transaction table and updates it in place. Each of its
  methods is proved to commit exactly what the function specifies, or nothing
  when the call fails.
- `ledger_invariants.dfy` (module `LedgerInvariants`): the balance invariant.
  Available funds are never negative. Each account holds at least the sum of
  its records under dispute, so held funds are never negative either. Every
  successful call keeps the invariant.
- `driver.dfy` (module `BatchDriver`): rows (`Parsed(instruction)` or
  `Unparsable(failure)`), the error list, the specification `Run` (a fold of
  one step per row), and `ProcessCsv`. That method has the loop of
  `process_csv`, with a fresh `Ledger` and the caller's account map.
- `scenarios.dfy` (module `Scenarios`): each unit test of src/main.rs except
  `process_csv_parses_file_correctly` (see "## Left out") as a lemma about `Run` on the test's rows. `ProcessCsv` returns exactly what
  `Run` computes, so each lemma holds of the driver's result.

ledger.rs, account.rs and transaction.rs are not part of this model. The
ledger's behaviour is taken from what the tests in src/main.rs assert. Where a
case is needed that no test fixes, the model makes a choice, listed below.

Choices the model makes where src/main.rs fixes nothing:

- A deposit or withdrawal whose transaction id is already recorded is
  rejected (`DuplicateTransaction`).
- A withdrawal from a client with no account is rejected (`AccountNotFound`).
- Every instruction aimed at a locked account is rejected before any balance
  is touched. The error is `AccountLocked` once the id checks pass; a deposit
  reusing a recorded id still fails as `DuplicateTransaction`, and a dispute,
  resolve or chargeback naming an unknown or foreign transaction still fails as
  `TransactionNotFound`.
- A dispute, resolve or chargeback naming another client's transaction fails
  as `TransactionNotFound`, the same as an unknown id.
- Only a Clean deposit can be disputed. Disputing a withdrawal, or a record
  already Disputed, Resolved or ChargedBack, is rejected
  (`TransactionNotDisputable`). So Resolved is final.
- A dispute that needs more than the available funds is rejected
  (`InsufficientFundsToHold`). This keeps available funds non-negative.
- A failed ledger call changes nothing: neither the account map nor the
  transaction table. The tests fix this only for the over-limit withdrawal and
  the dispute of an unknown transaction (src/main.rs:219-228); for every other
  failure it is the model's choice.

The row parser, not the ledger, rejects a missing or non-positive amount: the
test at src/main.rs:231-276 reports it as a CSV deserialize error. So such a
row is an `Unparsable` row that never reaches the ledger.

## Model

| member | source | states |
|---|---|---|
| `BatchDriver.ProcessCsv` | src/main.rs:49-64 | The loop returns exactly the account map and the ordered error list of `Run` over the rows, starting from the caller's accounts and an empty ledger. |
| `BatchDriver.RunSnoc` | src/main.rs:58-62 | Unfolding helper for the scenario proofs: `Run`'s defining equation for one more row, one step from the state the earlier rows left, its error (if any) after theirs. |
| `BatchDriver.RunAppend` | src/main.rs:58-62 | Rows are processed in order and no row stops the stream. Processing a concatenation equals processing the first part, then the second part from the state the first left, with the two error lists concatenated. |
| `BatchDriver.ParseErrorsReported` | src/main.rs:56-61 | The parse errors in the result are exactly the failures of the unparsable rows, in stream order. |
| `BatchDriver.ErrorsAtMostRows` | src/main.rs:59-61 | A stream never reports more errors than it has rows. |
| `BatchDriver.FailingRowsKeepAccounts` | src/main.rs:56-63 | A stream whose every row fails (unparsable, or rejected by the ledger) returns the account map and the ledger unchanged, with exactly one error per row. |
| `BatchDriver.RunKeepsValid` | src/main.rs:56-62 | The balance invariant holds after every prefix of the stream. Non-negative available funds rely on the model's rule that a dispute needing more than the available funds is rejected. |
| `BatchDriver.BalancesNonNegative` | src/main.rs:49-64 | Starting from accounts with non-negative balances, every returned account has non-negative available, held and total funds. Non-negative available funds rely on the model's rule that a dispute needing more than the available funds is rejected. |
| `BatchDriver.RunKeepsLocked` | src/main.rs:143-164 | Once an account is locked, no later row changes it. This relies on the model's rule that a locked account rejects every instruction. |
| `Ledgers.Apply` | src/main.rs:56 | A successful call touches only the instruction's client's account. Only a deposit may create that account. The call never succeeds on a locked account. It locks the account exactly when it is a chargeback. It keeps every earlier record's owner, kind and amount. A deposit or withdrawal adds its new id, and the dispute family adds none. A failure names the instruction's transaction id. |
| `Ledgers.CheckTarget` | src/main.rs:203 | A dispute, resolve or chargeback passes the shared checks exactly when the transaction exists, belongs to the client, and the client's account exists and is not locked. An unknown transaction, or one of another client, fails as `TransactionNotFound` naming it; every failure names the transaction. |
| `Ledgers.UnknownTxNotFound` | src/main.rs:203 | A dispute, resolve or chargeback of a transaction the ledger never recorded fails as `TransactionNotFound` for that id, as src/main.rs:228 expects for the dispute of tx 5. |
| `Ledgers.OverdraftRejected` | src/main.rs:202 | A withdrawal with a fresh id, by an existing unlocked account, asking more than the available funds, fails as `InsufficientFunds` naming the transaction, the account and the amount, as src/main.rs:224-227 expects. |
| `Ledgers.NewRecord` | src/main.rs:97-99 | A successful deposit or withdrawal adds exactly one Clean record under its id, with its client, kind and amount, and leaves every other record, status included, unchanged; this is the record a later dispute of tx 1 holds. |
| `Ledgers.ApplyMovesTotal` | src/main.rs:74-164 | The whole new account of the client: a deposit adds its amount to available only and a withdrawal subtracts it from available only; a dispute moves the amount from available to held and a resolve moves it back, leaving the total unchanged; a chargeback removes the amount from held only and locks the account. |
| `Ledgers.DisputeLifecycle` | src/main.rs:95-164 | A successful dispute turns a Clean deposit of the client into Disputed. A resolve turns a Disputed record into Resolved, and a chargeback turns it into ChargedBack. No other record changes. |
| `Ledgers.Ledger.constructor` | src/main.rs:53 | A new ledger has no transactions. |
| `Ledgers.Ledger.ProcessTransaction` | src/main.rs:56 | On success the call updates the account map and the table exactly as `Apply` specifies. On failure it returns `Apply`'s error and changes neither. |
| `Ledgers.Ledger.Deposit` | src/main.rs:74-93 | Deposit in place, committing `ApplyDeposit` entirely or not at all. |
| `Ledgers.Ledger.Withdraw` | src/main.rs:195-229 | Withdrawal in place, committing `ApplyWithdrawal` entirely or not at all. Once the duplicate-id, missing-account and locked checks pass, a withdrawal larger than the available funds fails as `InsufficientFunds` with the transaction, the account and the amount, and records nothing. |
| `Ledgers.Ledger.Dispute` | src/main.rs:95-118 | Dispute in place, committing `ApplyDispute` entirely or not at all. |
| `Ledgers.Ledger.Resolve` | src/main.rs:120-141 | Resolve in place, committing `ApplyResolve` entirely or not at all. |
| `Ledgers.Ledger.Chargeback` | src/main.rs:143-164 | Chargeback in place, committing `ApplyChargeback` entirely or not at all. |
| `LedgerInvariants.ApplyKeepsValid` | src/main.rs:56 | Every successful ledger call keeps the invariant. Available funds stay non-negative, held funds cover every disputed amount of the client, and every record's client has an account. Non-negative available funds after a dispute rely on the model's rule that a dispute needing more than the available funds is rejected. |
| `LedgerInvariants.InitialValid` | src/main.rs:29 | An account map with non-negative balances and an empty ledger satisfy the invariant. |
| `Scenarios.RegularTransactions` | src/main.rs:74-93 | Deposits of 1 and 1 and a withdrawal of 0.5 leave client 1 with 1.5 available and no errors. |
| `Scenarios.DisputeHoldsFunds` | src/main.rs:95-118 | A deposit of 1.0001 then its dispute leave 0 available, 1.0001 held, held equal to total, and no errors. |
| `Scenarios.ResolveReleasesFunds` | src/main.rs:120-141 | Deposit, dispute and resolve leave 1.0001 available, 0 held, available equal to total, and no errors. |
| `Scenarios.ChargebackLocksAccount` | src/main.rs:143-164 | Deposit, dispute and chargeback leave 0 available, 0 held, a locked account, and no errors. |
| `Scenarios.LogicErrorsReported` | src/main.rs:195-229 | Client 1 ends with 1.5001 available and client 2 keeps 2.1. The errors are exactly insufficient funds for tx 5, account 2, amount 3, and then tx 5 not found. |
| `Scenarios.ParseErrorsSkipLedger` | src/main.rs:231-276 | Four unparsable rows give four parse errors in order and leave the ledger untouched. A later deposit reusing tx 1 then succeeds: client 1 totals 1.0001 and client 2 totals 3.3. |

## Left out

- `main` (src/main.rs:15-45): the argument-count check, opening the file, the CSV reader settings and printing accounts and errors are process I/O.
- CSV deserialization and the text of `csv`/`anyhow` error messages: a row that fails to parse is an `Unparsable` row carrying only the kind of failure.
- The rendered text of ledger errors and the decimal display of amounts: an error carries the transaction, the account and the amount the message names, but no string is built.
- The `process_csv_parses_file_correctly` test (src/main.rs:166-193) reads `tests/basic.csv` from disk. Its expected values match the `parses_csv_with_logic_errors_correctly` test, which is modelled.
- Ledger behaviour src/main.rs does not fix is modelled by the choices listed above and is not claimed as the program's behaviour: locked accounts, a withdrawal by a client with no account (`AccountNotFound`), disputing a withdrawal, re-disputing a resolved transaction, duplicate ids, owner mismatch, and the rejection of a dispute that needs more than the available funds (`InsufficientFundsToHold`). Without that last rule a dispute after a withdrawal could leave available funds negative, so the non-negativity of available funds is a property of the model's choice, not of the program.
- `rust_decimal`'s 96-bit range and its scale: amounts are unbounded integers in units of 0.0001, so overflow of a balance is not modelled.
- The integer widths of client and transaction ids: both are unbounded naturals.
- Iteration order of the returned `HashMap` is not modelled; the account map is a Dafny `map`.
