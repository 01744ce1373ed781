/** Per-client balances. An account is created lazily by its first successful
    deposit; its total is derived from the two stored balances, never stored. */
module Accounts {

  /** Client identifier; the key of the account map. */
  type AccountId = nat

  /** An exact decimal amount counted in units of 0.0001, so 1.0001 is 10001
      and 0.5 is 5000. */
  type Amount = int

  datatype Account = Account(available: Amount, held: Amount, locked: bool)
  {
    /** The client's total funds: what is available plus what a dispute holds. */
    function Total(): Amount
    {
      available + held
    }
  }

  /** The account a client's first deposit creates, before the deposit is added. */
  const NewAccount := Account(0, 0, false)
}
