/** The instructions a stream carries and the record the ledger keeps of each
    accepted deposit or withdrawal. */
module Transactions {
  import opened Accounts

  /** Transaction identifier, issued once per deposit or withdrawal. */
  type TxId = nat

  /** An amount the row parser accepted for a deposit or a withdrawal: a row
      whose amount is missing or not positive never becomes an instruction. */
  type PositiveAmount = a: Amount | a > 0 witness 1

  /** A well-formed row. The dispute family refers to an earlier transaction
      and carries no amount of its own. */
  datatype Instruction =
    | Deposit(client: AccountId, tx: TxId, amount: PositiveAmount)
    | Withdrawal(client: AccountId, tx: TxId, amount: PositiveAmount)
    | Dispute(client: AccountId, tx: TxId)
    | Resolve(client: AccountId, tx: TxId)
    | Chargeback(client: AccountId, tx: TxId)

  datatype TxKind = DepositTx | WithdrawalTx

  /** Dispute lifecycle of a record: Clean -> Disputed -> Resolved | ChargedBack. */
  datatype DisputeStatus = Clean | Disputed | Resolved | ChargedBack

  /** What the ledger remembers of an accepted deposit or withdrawal. Only the
      status ever changes after the record is created. */
  datatype TxRecord = TxRecord(client: AccountId, kind: TxKind, amount: PositiveAmount, status: DisputeStatus)
}
