/** The balance invariant every ledger call keeps: available funds never go
    negative, and each account holds at least the amounts of its transactions
    under active dispute (so held funds never go negative either). */
module LedgerInvariants {
  import opened Accounts
  import opened Transactions
  import opened Ledgers

  /** What record `r` asks client `c` to hold: its amount while it is under
      dispute and belongs to `c`, nothing otherwise. */
  function Claim(r: TxRecord, c: AccountId): nat
  {
    if r.client == c && r.status == Disputed then r.amount else 0
  }

  /** Sum of the claims on `c` of the records whose ids are in `ks`. */
  ghost function ClaimOver(txs: map<TxId, TxRecord>, ks: set<TxId>, c: AccountId): nat
    requires ks <= txs.Keys
    decreases ks
  {
    if ks == {} then 0
    else
      var t :| t in ks;
      Claim(txs[t], c) + ClaimOver(txs, ks - {t}, c)
  }

  /** Sum of the amounts under dispute on client `c`'s transactions. */
  ghost function Claims(txs: map<TxId, TxRecord>, c: AccountId): nat
  {
    ClaimOver(txs, txs.Keys, c)
  }

  ghost predicate Valid(b: Books)
  {
    (forall t :: t in b.transactions ==> b.transactions[t].client in b.accounts) &&
    (forall c :: c in b.accounts ==>
       b.accounts[c].available >= 0 && b.accounts[c].held >= Claims(b.transactions, c))
  }

  /** The sum does not depend on the order its terms are taken in. */
  lemma {:induction false} ClaimOverRemove(txs: map<TxId, TxRecord>, ks: set<TxId>, t: TxId, c: AccountId)
    requires ks <= txs.Keys && t in ks
    ensures ClaimOver(txs, ks, c) == Claim(txs[t], c) + ClaimOver(txs, ks - {t}, c)
    decreases ks
  {
    var u :| u in ks && ClaimOver(txs, ks, c) == Claim(txs[u], c) + ClaimOver(txs, ks - {u}, c);
    if u != t {
      ClaimOverRemove(txs, ks - {u}, t, c);
      ClaimOverRemove(txs, ks - {t}, u, c);
      assert ks - {u} - {t} == ks - {t} - {u};
    }
  }

  /** Two tables whose records in `ks` make the same claims give the same sum. */
  lemma {:induction false} ClaimOverAgree(txs: map<TxId, TxRecord>, txs': map<TxId, TxRecord>, ks: set<TxId>, c: AccountId)
    requires ks <= txs.Keys && ks <= txs'.Keys
    requires forall t :: t in ks ==> Claim(txs[t], c) == Claim(txs'[t], c)
    ensures ClaimOver(txs, ks, c) == ClaimOver(txs', ks, c)
    decreases ks
  {
    if ks != {} {
      var t :| t in ks;
      ClaimOverRemove(txs, ks, t, c);
      ClaimOverRemove(txs', ks, t, c);
      ClaimOverAgree(txs, txs', ks - {t}, c);
    }
  }

  /** A record under dispute is part of its owner's claims. */
  lemma ClaimsInclude(txs: map<TxId, TxRecord>, t: TxId, c: AccountId)
    requires t in txs
    ensures Claims(txs, c) >= Claim(txs[t], c)
  {
    ClaimOverRemove(txs, txs.Keys, t, c);
  }

  /** Inserting or replacing one record changes the claims by the difference
      between the new record's claim and the old one's. */
  lemma ClaimsAfterUpdate(txs: map<TxId, TxRecord>, t: TxId, r: TxRecord, c: AccountId)
    ensures Claims(txs[t := r], c) ==
      Claims(txs, c) - (if t in txs then Claim(txs[t], c) else 0) + Claim(r, c)
  {
    var txs' := txs[t := r];
    var rest := txs.Keys - {t};
    ClaimOverRemove(txs', txs'.Keys, t, c);
    assert txs'.Keys - {t} == rest;
    if t in txs {
      ClaimOverRemove(txs, txs.Keys, t, c);
    } else {
      assert txs.Keys == rest;
    }
    ClaimOverAgree(txs, txs', rest, c);
  }

  /** A client who owns no record has nothing claimed. */
  lemma {:induction false} ClaimOverStranger(txs: map<TxId, TxRecord>, ks: set<TxId>, c: AccountId)
    requires ks <= txs.Keys
    requires forall t :: t in ks ==> txs[t].client != c
    ensures ClaimOver(txs, ks, c) == 0
    decreases ks
  {
    if ks != {} {
      var t :| t in ks;
      ClaimOverRemove(txs, ks, t, c);
      ClaimOverStranger(txs, ks - {t}, c);
    }
  }

  /** Any account map whose balances are non-negative, with an empty
      transaction table, is a valid starting point. */
  lemma InitialValid(accounts: map<AccountId, Account>)
    requires forall c :: c in accounts ==> accounts[c].available >= 0 && accounts[c].held >= 0
    ensures Valid(Books(accounts, map[]))
  {
  }

  lemma DepositKeepsValid(b: Books, c: AccountId, t: TxId, amount: PositiveAmount)
    requires Valid(b) && ApplyDeposit(b, c, t, amount).Ok?
    ensures Valid(ApplyDeposit(b, c, t, amount).books)
  {
    var b' := ApplyDeposit(b, c, t, amount).books;
    var r := TxRecord(c, DepositTx, amount, Clean);
    assert b'.transactions == b.transactions[t := r];
    forall d | d in b'.accounts
      ensures b'.accounts[d].available >= 0 && b'.accounts[d].held >= Claims(b'.transactions, d)
    {
      ClaimsAfterUpdate(b.transactions, t, r, d);
      if d !in b.accounts {
        ClaimOverStranger(b.transactions, b.transactions.Keys, d);
      }
    }
  }

  lemma WithdrawalKeepsValid(b: Books, c: AccountId, t: TxId, amount: PositiveAmount)
    requires Valid(b) && ApplyWithdrawal(b, c, t, amount).Ok?
    ensures Valid(ApplyWithdrawal(b, c, t, amount).books)
  {
    var b' := ApplyWithdrawal(b, c, t, amount).books;
    var r := TxRecord(c, WithdrawalTx, amount, Clean);
    assert b'.transactions == b.transactions[t := r];
    forall d | d in b'.accounts
      ensures b'.accounts[d].available >= 0 && b'.accounts[d].held >= Claims(b'.transactions, d)
    {
      ClaimsAfterUpdate(b.transactions, t, r, d);
    }
  }

  lemma DisputeKeepsValid(b: Books, c: AccountId, t: TxId)
    requires Valid(b) && ApplyDispute(b, c, t).Ok?
    ensures Valid(ApplyDispute(b, c, t).books)
  {
    var b' := ApplyDispute(b, c, t).books;
    var r := b.transactions[t].(status := Disputed);
    assert b'.transactions == b.transactions[t := r];
    forall d | d in b'.accounts
      ensures b'.accounts[d].available >= 0 && b'.accounts[d].held >= Claims(b'.transactions, d)
    {
      ClaimsAfterUpdate(b.transactions, t, r, d);
    }
  }

  lemma ResolveKeepsValid(b: Books, c: AccountId, t: TxId)
    requires Valid(b) && ApplyResolve(b, c, t).Ok?
    ensures Valid(ApplyResolve(b, c, t).books)
  {
    var b' := ApplyResolve(b, c, t).books;
    var r := b.transactions[t].(status := Resolved);
    assert b'.transactions == b.transactions[t := r];
    ClaimsInclude(b.transactions, t, c);
    forall d | d in b'.accounts
      ensures b'.accounts[d].available >= 0 && b'.accounts[d].held >= Claims(b'.transactions, d)
    {
      ClaimsAfterUpdate(b.transactions, t, r, d);
    }
  }

  lemma ChargebackKeepsValid(b: Books, c: AccountId, t: TxId)
    requires Valid(b) && ApplyChargeback(b, c, t).Ok?
    ensures Valid(ApplyChargeback(b, c, t).books)
  {
    var b' := ApplyChargeback(b, c, t).books;
    var r := b.transactions[t].(status := ChargedBack);
    assert b'.transactions == b.transactions[t := r];
    ClaimsInclude(b.transactions, t, c);
    forall d | d in b'.accounts
      ensures b'.accounts[d].available >= 0 && b'.accounts[d].held >= Claims(b'.transactions, d)
    {
      ClaimsAfterUpdate(b.transactions, t, r, d);
    }
  }

  /** Every successful ledger call keeps the balance invariant. */
  lemma ApplyKeepsValid(b: Books, ins: Instruction)
    requires Valid(b) && Apply(b, ins).Ok?
    ensures Valid(Apply(b, ins).books)
  {
    match ins
    case Deposit(c, t, amount) => DepositKeepsValid(b, c, t, amount);
    case Withdrawal(c, t, amount) => WithdrawalKeepsValid(b, c, t, amount);
    case Dispute(c, t) => DisputeKeepsValid(b, c, t);
    case Resolve(c, t) => ResolveKeepsValid(b, c, t);
    case Chargeback(c, t) => ChargebackKeepsValid(b, c, t);
  }
}
