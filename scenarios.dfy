/** The unit tests of the batch driver, except
    `process_csv_parses_file_correctly`, which reads a file from disk. Each is
    stated as a fact about `Run` on the rows the test feeds it, starting from
    an empty account map and a fresh ledger. Amounts are in units of 0.0001. `ProcessCsv` returns exactly the
    accounts and errors of `Run`, so each fact holds of its result. */
module Scenarios {
  import opened Accounts
  import opened Transactions
  import opened Ledgers
  import opened BatchDriver

  const Start := Books(map[], map[])

  /** Two deposits of 1 and a withdrawal of 0.5 leave 1.5 available, no errors. */
  lemma RegularTransactions()
    ensures var (b, errors) := Run(Start, [Parsed(Deposit(1, 1, 10000)), Parsed(Deposit(1, 2, 10000)),
                                           Parsed(Withdrawal(1, 3, 5000))]);
      1 in b.accounts && b.accounts[1].available == 15000 && errors == []
  {
    var r1, r2, r3 := Parsed(Deposit(1, 1, 10000)), Parsed(Deposit(1, 2, 10000)), Parsed(Withdrawal(1, 3, 5000));
    var b1 := Books(map[1 := Account(10000, 0, false)], map[1 := TxRecord(1, DepositTx, 10000, Clean)]);
    var b2 := Books(b1.accounts[1 := Account(20000, 0, false)], b1.transactions[2 := TxRecord(1, DepositTx, 10000, Clean)]);
    RunSnoc(Start, [], r1, Start, []);
    assert [] + [r1] == [r1] && StepRow(Start, r1) == (b1, []);
    assert Run(Start, [r1]).0 == b1 && Run(Start, [r1]).1 == [];
    RunSnoc(Start, [r1], r2, b1, []);
    assert [r1] + [r2] == [r1, r2] && StepRow(b1, r2) == (b2, []);
    assert Run(Start, [r1, r2]).0 == b2 && Run(Start, [r1, r2]).1 == [];
    RunSnoc(Start, [r1, r2], r3, b2, []);
    assert [r1, r2] + [r3] == [r1, r2, r3];
  }

  /** Disputing a deposit of 1.0001 moves all of it from available to held. */
  lemma DisputeHoldsFunds()
    ensures var (b, errors) := Run(Start, [Parsed(Deposit(1, 1, 10001)), Parsed(Dispute(1, 1))]);
      1 in b.accounts && b.accounts[1].available == 0 && b.accounts[1].held == 10001 &&
      b.accounts[1].held == b.accounts[1].Total() && errors == []
  {
    DepositThenDispute(Parsed(Deposit(1, 1, 10001)), Parsed(Dispute(1, 1)));
  }

  /** Client 1 after depositing 1.0001 as tx 1. */
  const Deposited := Books(map[1 := Account(10001, 0, false)], map[1 := TxRecord(1, DepositTx, 10001, Clean)])

  /** Client 1 after then disputing tx 1. */
  const UnderDispute := Books(Deposited.accounts[1 := Account(0, 10001, false)], Deposited.transactions[1 := TxRecord(1, DepositTx, 10001, Disputed)])

  /** The state and errors after a deposit of 1.0001 and its dispute. */
  lemma DepositThenDispute(r1: Row, r2: Row)
    requires r1 == Parsed(Deposit(1, 1, 10001)) && r2 == Parsed(Dispute(1, 1))
    ensures Run(Start, [r1, r2]) == (UnderDispute, [])
  {
    RunSnoc(Start, [], r1, Start, []);
    assert [] + [r1] == [r1] && StepRow(Start, r1) == (Deposited, []);
    assert Run(Start, [r1]).0 == Deposited && Run(Start, [r1]).1 == [];
    RunSnoc(Start, [r1], r2, Deposited, []);
    assert [r1] + [r2] == [r1, r2] && StepRow(Deposited, r2) == (UnderDispute, []);
    assert Run(Start, [r1, r2]).0 == UnderDispute && Run(Start, [r1, r2]).1 == [];
  }

  /** Resolving the dispute gives the funds back to available. */
  lemma ResolveReleasesFunds()
    ensures var (b, errors) := Run(Start, [Parsed(Deposit(1, 1, 10001)), Parsed(Dispute(1, 1)),
                                           Parsed(Resolve(1, 1))]);
      1 in b.accounts && b.accounts[1].available == 10001 && b.accounts[1].held == 0 &&
      b.accounts[1].available == b.accounts[1].Total() && errors == []
  {
    var r1, r2, r3 := Parsed(Deposit(1, 1, 10001)), Parsed(Dispute(1, 1)), Parsed(Resolve(1, 1));
    DepositThenDispute(r1, r2);
    RunSnoc(Start, [r1, r2], r3, UnderDispute, []);
    assert [r1, r2] + [r3] == [r1, r2, r3];
  }

  /** Charging the dispute back removes the held funds and locks the account. */
  lemma ChargebackLocksAccount()
    ensures var (b, errors) := Run(Start, [Parsed(Deposit(1, 1, 10001)), Parsed(Dispute(1, 1)),
                                           Parsed(Chargeback(1, 1))]);
      1 in b.accounts && b.accounts[1].available == 0 && b.accounts[1].held == 0 &&
      b.accounts[1].locked && errors == []
  {
    var r1, r2, r3 := Parsed(Deposit(1, 1, 10001)), Parsed(Dispute(1, 1)), Parsed(Chargeback(1, 1));
    DepositThenDispute(r1, r2);
    RunSnoc(Start, [r1, r2], r3, UnderDispute, []);
    assert [r1, r2] + [r3] == [r1, r2, r3];
  }

  /** Clients 1 and 2 after the four accepted rows of the logic-error test:
      deposits of 1.0001 (tx 1), 2.1 (tx 2) and 2.0 (tx 3), then a withdrawal
      of 1.5 (tx 4) by client 1. */
  const Funded :=
    var t1, t2 := TxRecord(1, DepositTx, 10001, Clean), TxRecord(2, DepositTx, 21000, Clean);
    var t3, t4 := TxRecord(1, DepositTx, 20000, Clean), TxRecord(1, WithdrawalTx, 15000, Clean);
    // Written as the chain of updates the four rows make, so that it equals
    // `Run`'s result without map extensionality: client 1's entry is updated
    // by the deposit of tx 1, the deposit of tx 3 and the withdrawal of tx 4.
    Books(map[1 := Account(10001, 0, false)][2 := Account(21000, 0, false)][1 := Account(30001, 0, false)]
             [1 := Account(15001, 0, false)],
          map[1 := t1][2 := t2][3 := t3][4 := t4])

  lemma TwoDeposits(r1: Row, r2: Row)
    requires r1 == Parsed(Deposit(1, 1, 10001)) && r2 == Parsed(Deposit(2, 2, 21000))
    ensures Run(Start, [r1, r2]) ==
      (Books(map[1 := Account(10001, 0, false)][2 := Account(21000, 0, false)],
             map[1 := TxRecord(1, DepositTx, 10001, Clean)][2 := TxRecord(2, DepositTx, 21000, Clean)]), [])
  {
    var b1 := Books(map[1 := Account(10001, 0, false)], map[1 := TxRecord(1, DepositTx, 10001, Clean)]);
    RunSnoc(Start, [], r1, Start, []);
    assert [] + [r1] == [r1] && StepRow(Start, r1) == (b1, []);
    assert Run(Start, [r1]).0 == b1 && Run(Start, [r1]).1 == [];
    RunSnoc(Start, [r1], r2, b1, []);
    assert [r1] + [r2] == [r1, r2];
  }

  lemma FourAccepted(r1: Row, r2: Row, r3: Row, r4: Row)
    requires r1 == Parsed(Deposit(1, 1, 10001)) && r2 == Parsed(Deposit(2, 2, 21000))
    requires r3 == Parsed(Deposit(1, 3, 20000)) && r4 == Parsed(Withdrawal(1, 4, 15000))
    ensures Run(Start, [r1, r2, r3, r4]) == (Funded, [])
  {
    TwoDeposits(r1, r2);
    var b2 := Run(Start, [r1, r2]).0;
    var b3 := Books(b2.accounts[1 := Account(30001, 0, false)], b2.transactions[3 := TxRecord(1, DepositTx, 20000, Clean)]);
    RunSnoc(Start, [r1, r2], r3, b2, []);
    assert [r1, r2] + [r3] == [r1, r2, r3] && StepRow(b2, r3) == (b3, []);
    assert Run(Start, [r1, r2, r3]).0 == b3 && Run(Start, [r1, r2, r3]).1 == [];
    RunSnoc(Start, [r1, r2, r3], r4, b3, []);
    assert [r1, r2, r3] + [r4] == [r1, r2, r3, r4];
  }

  /** A withdrawal of 3 from client 2's 2.1 fails for insufficient funds and
      records nothing, so the later dispute of tx 5 finds no transaction. */
  lemma LogicErrorsReported()
    ensures var (b, errors) := Run(Start, [Parsed(Deposit(1, 1, 10001)), Parsed(Deposit(2, 2, 21000)),
                                           Parsed(Deposit(1, 3, 20000)), Parsed(Withdrawal(1, 4, 15000)),
                                           Parsed(Withdrawal(2, 5, 30000)), Parsed(Dispute(2, 5))]);
      1 in b.accounts && 2 in b.accounts &&
      b.accounts[1].available == 15001 && b.accounts[2].available == 21000 &&
      errors == [LogicError(InsufficientFunds(5, 2, 30000)), LogicError(TransactionNotFound(5))]
  {
    var r1, r2, r3 := Parsed(Deposit(1, 1, 10001)), Parsed(Deposit(2, 2, 21000)), Parsed(Deposit(1, 3, 20000));
    var r4, r5, r6 := Parsed(Withdrawal(1, 4, 15000)), Parsed(Withdrawal(2, 5, 30000)), Parsed(Dispute(2, 5));
    var e5 := LogicError(InsufficientFunds(5, 2, 30000));
    FourAccepted(r1, r2, r3, r4);
    RunSnoc(Start, [r1, r2, r3, r4], r5, Funded, []);
    assert [r1, r2, r3, r4] + [r5] == [r1, r2, r3, r4, r5] && StepRow(Funded, r5) == (Funded, [e5]);
    assert Run(Start, [r1, r2, r3, r4, r5]).0 == Funded && Run(Start, [r1, r2, r3, r4, r5]).1 == [e5];
    RunSnoc(Start, [r1, r2, r3, r4, r5], r6, Funded, [e5]);
    assert [r1, r2, r3, r4, r5] + [r6] == [r1, r2, r3, r4, r5, r6];
  }

  /** Rows that fail to parse are reported in order and never reach the
      ledger, so a later deposit reusing tx id 1 succeeds. */
  lemma ParseErrorsSkipLedger()
    ensures var (b, errors) := Run(Start, [Unparsable(MissingField), Unparsable(UnknownType),
                                           Unparsable(AmountNotPositive), Unparsable(AmountMissing),
                                           Parsed(Deposit(1, 1, 10001)), Parsed(Deposit(2, 2, 33000))]);
      1 in b.accounts && 2 in b.accounts &&
      b.accounts[1].Total() == 10001 && b.accounts[2].Total() == 33000 &&
      errors == [ParseError(MissingField), ParseError(UnknownType),
                 ParseError(AmountNotPositive), ParseError(AmountMissing)]
  {
    var r1, r2, r3 := Unparsable(MissingField), Unparsable(UnknownType), Unparsable(AmountNotPositive);
    var r4, r5, r6 := Unparsable(AmountMissing), Parsed(Deposit(1, 1, 10001)), Parsed(Deposit(2, 2, 33000));
    var e1, e2, e3, e4 := r1.failure, r2.failure, r3.failure, r4.failure;
    var errors := [ParseError(e1), ParseError(e2), ParseError(e3), ParseError(e4)];
    RunSnoc(Start, [], r1, Start, []);
    assert [] + [r1] == [r1] && [] + [ParseError(e1)] == errors[..1];
    assert Run(Start, [r1]).0 == Start && Run(Start, [r1]).1 == errors[..1];
    RunSnoc(Start, [r1], r2, Start, errors[..1]);
    assert [r1] + [r2] == [r1, r2] && errors[..1] + [ParseError(e2)] == errors[..2];
    assert Run(Start, [r1, r2]).0 == Start && Run(Start, [r1, r2]).1 == errors[..2];
    RunSnoc(Start, [r1, r2], r3, Start, errors[..2]);
    assert [r1, r2] + [r3] == [r1, r2, r3] && errors[..2] + [ParseError(e3)] == errors[..3];
    assert Run(Start, [r1, r2, r3]).0 == Start && Run(Start, [r1, r2, r3]).1 == errors[..3];
    RunSnoc(Start, [r1, r2, r3], r4, Start, errors[..3]);
    assert [r1, r2, r3] + [r4] == [r1, r2, r3, r4] && errors[..3] + [ParseError(e4)] == errors;
    assert Run(Start, [r1, r2, r3, r4]).0 == Start && Run(Start, [r1, r2, r3, r4]).1 == errors;
    RunSnoc(Start, [r1, r2, r3, r4], r5, Start, errors);
    assert [r1, r2, r3, r4] + [r5] == [r1, r2, r3, r4, r5] && StepRow(Start, r5) == (Deposited, []);
    assert Run(Start, [r1, r2, r3, r4, r5]).0 == Deposited && Run(Start, [r1, r2, r3, r4, r5]).1 == errors;
    RunSnoc(Start, [r1, r2, r3, r4, r5], r6, Deposited, errors);
    assert [r1, r2, r3, r4, r5] + [r6] == [r1, r2, r3, r4, r5, r6];
  }
}
