/** The batch driver: feeds each row of the instruction stream to one ledger,
    in order, and collects one error per failing row without stopping. */
module BatchDriver {
  import opened Accounts
  import opened Transactions
  import opened Ledgers
  import opened LedgerInvariants

  /** Why the row parser could not turn a row into an instruction: a missing
      field, an unknown instruction type, a non-positive or a missing amount
      for a deposit or withdrawal, or any other malformed field (an id or an
      amount that is not a number). */
  datatype ParseFailure = MissingField | UnknownType | AmountNotPositive | AmountMissing | OtherFailure

  /** One row of the stream, as the row parser delivers it. */
  datatype Row = Parsed(instruction: Instruction) | Unparsable(failure: ParseFailure)

  /** The two kinds of failure the driver collects into one list. */
  datatype Error = ParseError(failure: ParseFailure) | LogicError(error: LedgerError)

  /** The state after one row, and the errors that row adds (none or one). */
  function StepRow(b: Books, row: Row): (Books, seq<Error>)
  {
    match row
    case Unparsable(f) => (b, [ParseError(f)])
    case Parsed(ins) =>
      match Apply(b, ins)
      case Ok(b') => (b', [])
      case Err(e) => (b, [LogicError(e)])
  }

  /** The state after all of `rows`, starting from `b`, and the errors in the
      order their rows appear. */
  function Run(b: Books, rows: seq<Row>): (Books, seq<Error>)
    decreases |rows|
  {
    if rows == [] then (b, [])
    else
      var (mid, es) := Run(b, rows[..|rows| - 1]);
      var (after, e) := StepRow(mid, rows[|rows| - 1]);
      (after, es + e)
  }

  /** The failures of the rows that did not parse, in stream order. */
  function ParseFailures(rows: seq<Row>): seq<ParseFailure>
  {
    if rows == [] then [] else
      var last := rows[|rows| - 1];
      ParseFailures(rows[..|rows| - 1]) + (if last.Unparsable? then [last.failure] else [])
  }

  /** The parse failures in an error list, in order. */
  function ParseErrorsIn(es: seq<Error>): seq<ParseFailure>
  {
    if es == [] then [] else
      var last := es[|es| - 1];
      ParseErrorsIn(es[..|es| - 1]) + (if last.ParseError? then [last.failure] else [])
  }

  /** Traverses the rows in order, threading the caller's account map and a
      fresh ledger through every row; returns the final account map and every
      error (parse or logical) met on the way. */
  method ProcessCsv(rows: seq<Row>, accounts: map<AccountId, Account>)
    returns (accounts': map<AccountId, Account>, errors: seq<Error>)
    ensures (Run(Books(accounts, map[]), rows).0).accounts == accounts'
    ensures Run(Books(accounts, map[]), rows).1 == errors
  {
    var ledger := new Ledger();
    accounts', errors := accounts, [];
    for i := 0 to |rows|
      invariant Run(Books(accounts, map[]), rows[..i]) == (Books(accounts', ledger.transactions), errors)
    {
      assert rows[..i + 1][..i] == rows[..i];
      ghost var before := Books(accounts', ledger.transactions);
      ghost var step, reported := StepRow(before, rows[i]), errors;
      assert Run(Books(accounts, map[]), rows[..i + 1]) == (step.0, reported + step.1);
      match rows[i]
      case Unparsable(f) =>
        errors := errors + [ParseError(f)];
      case Parsed(ins) =>
        var outcome;
        accounts', outcome := ledger.ProcessTransaction(accounts', ins);
        if outcome.Fail? {
          errors := errors + [LogicError(outcome.error)];
        }
        assert step == (Books(accounts', ledger.transactions), if outcome.Fail? then [LogicError(outcome.error)] else []);
      assert errors == reported + step.1;
    }
    assert rows[..|rows|] == rows;
  }

  /** Processing one more row is one more step from where the others left off. */
  lemma RunSnoc(b: Books, rows: seq<Row>, row: Row, mid: Books, errors: seq<Error>)
    requires Run(b, rows) == (mid, errors)
    ensures Run(b, rows + [row]) == (StepRow(mid, row).0, errors + StepRow(mid, row).1)
  {
  }

  /** Rows are processed strictly in order and none stops the stream:
      processing a concatenation is processing its first part, then its
      second part from the state the first left, with the errors concatenated. */
  lemma {:induction false} RunAppend(b: Books, rows: seq<Row>, more: seq<Row>)
    ensures Run(b, rows + more) ==
      (Run(Run(b, rows).0, more).0, Run(b, rows).1 + Run(Run(b, rows).0, more).1)
    decreases |more|
  {
    if more == [] {
      assert rows + more == rows;
      assert Run(Run(b, rows).0, more) == (Run(b, rows).0, []);
      assert Run(b, rows).1 + [] == Run(b, rows).1;
    } else {
      var init, last := more[..|more| - 1], more[|more| - 1];
      assert (rows + more)[..|rows + more| - 1] == rows + init;
      assert (rows + more)[|rows + more| - 1] == last;
      RunAppend(b, rows, init);
      var mid := Run(b, rows).0;
      var m := Run(mid, init).0;
      assert Run(mid, more) == (StepRow(m, last).0, Run(mid, init).1 + StepRow(m, last).1);
      assert Run(b, rows + more) == (StepRow(m, last).0, Run(b, rows + init).1 + StepRow(m, last).1);
      assert Run(b, rows + init).1 + StepRow(m, last).1 == Run(b, rows).1 + (Run(mid, init).1 + StepRow(m, last).1);
    }
  }

  /** Every row that fails to parse is reported, in stream order, and no
      other parse error appears. */
  lemma {:induction false} ParseErrorsReported(b: Books, rows: seq<Row>)
    ensures ParseErrorsIn(Run(b, rows).1) == ParseFailures(rows)
    decreases |rows|
  {
    if rows != [] {
      var (mid, es) := Run(b, rows[..|rows| - 1]);
      var (after, e) := StepRow(mid, rows[|rows| - 1]);
      ParseErrorsReported(b, rows[..|rows| - 1]);
      if e != [] {
        assert (es + e)[..|es + e| - 1] == es;
      } else {
        assert es + e == es;
      }
    }
  }

  /** A stream never reports more errors than it has rows. */
  lemma {:induction false} ErrorsAtMostRows(b: Books, rows: seq<Row>)
    ensures |Run(b, rows).1| <= |rows|
    decreases |rows|
  {
    if rows != [] {
      ErrorsAtMostRows(b, rows[..|rows| - 1]);
    }
  }

  /** The balance invariant holds after every prefix of the stream. */
  lemma {:induction false} RunKeepsValid(b: Books, rows: seq<Row>)
    requires Valid(b)
    ensures Valid(Run(b, rows).0)
    decreases |rows|
  {
    if rows != [] {
      RunKeepsValid(b, rows[..|rows| - 1]);
      var mid := Run(b, rows[..|rows| - 1]).0;
      var row := rows[|rows| - 1];
      if row.Parsed? && Apply(mid, row.instruction).Ok? {
        ApplyKeepsValid(mid, row.instruction);
      }
    }
  }

  /** Starting from accounts with non-negative balances and a fresh ledger,
      no account ever has negative available or held funds, and every total
      is the sum of the two. */
  lemma BalancesNonNegative(accounts: map<AccountId, Account>, rows: seq<Row>)
    requires forall c :: c in accounts ==> accounts[c].available >= 0 && accounts[c].held >= 0
    ensures forall c :: c in Run(Books(accounts, map[]), rows).0.accounts ==>
      Run(Books(accounts, map[]), rows).0.accounts[c].available >= 0 &&
      Run(Books(accounts, map[]), rows).0.accounts[c].held >= 0 &&
      Run(Books(accounts, map[]), rows).0.accounts[c].Total() >= 0
  {
    InitialValid(accounts);
    RunKeepsValid(Books(accounts, map[]), rows);
  }

  /** A locked account is final: it stays in the map and no later row changes
      any of its balances. */
  lemma {:induction false} RunKeepsLocked(b: Books, rows: seq<Row>, c: AccountId)
    requires c in b.accounts && b.accounts[c].locked
    ensures c in Run(b, rows).0.accounts && Run(b, rows).0.accounts[c] == b.accounts[c]
    decreases |rows|
  {
    if rows != [] {
      RunKeepsLocked(b, rows[..|rows| - 1], c);
    }
  }

  /** A stream whose every row fails leaves the books exactly as given, and
      reports one error per row. */
  lemma {:induction false} FailingRowsKeepAccounts(b: Books, rows: seq<Row>)
    requires forall i :: 0 <= i < |rows| ==> rows[i].Unparsable? || Apply(b, rows[i].instruction).Err?
    ensures Run(b, rows).0 == b && |Run(b, rows).1| == |rows|
    decreases |rows|
  {
    if rows != [] {
      FailingRowsKeepAccounts(b, rows[..|rows| - 1]);
    }
  }
}
