/** Double-entry postings: ledger-transaction.ts. */
module LedgerTransactions {
  import opened Base

  /** `wallet:<id>` and `system:external`; the prefix keeps the two apart. */
  datatype Account = WalletAccount(wallet: Id) | ExternalClearing

  /**
   * A transaction id. Deposits, withdrawals and public consumes draw a random UUID;
   * a settlement uses its transfer's id. The two kinds never coincide.
   */
  datatype TxId = RandomTx(uuid: Id) | TransferTx(transfer: Id)

  datatype Posting = Posting(account: Account, amount: int)

  datatype Transaction = Transaction(id: TxId, postings: seq<Posting>)

  /** The sum of all posted amounts. */
  function Total(ps: seq<Posting>): int {
    if |ps| == 0 then 0 else Total(ps[..|ps| - 1]) + ps[|ps| - 1].amount
  }

  /** The postings on one account, in order. */
  function PostingsTo(ps: seq<Posting>, account: Account): seq<Posting> {
    if |ps| == 0 then []
    else
      var front := PostingsTo(ps[..|ps| - 1], account);
      if ps[|ps| - 1].account == account then front + [ps[|ps| - 1]] else front
  }

  /** What a transaction moves on one account. */
  function NetTo(ps: seq<Posting>, account: Account): int {
    Total(PostingsTo(ps, account))
  }

  predicate Balanced(ps: seq<Posting>) {
    |ps| >= 2 && Total(ps) == 0
  }

  /** The two postings of a wallet movement against the clearing account. */
  function WalletMovement(wallet: Id, amount: int): seq<Posting> {
    [Posting(WalletAccount(wallet), amount), Posting(ExternalClearing, -amount)]
  }

  function CreateTransaction(wallet: Id, amount: int, id: TxId): Result<Transaction, LedgerError> {
    if amount == 0 then Err(ZeroTransaction)
    else
      var ps := WalletMovement(wallet, amount);
      if !Balanced(ps) then Err(UnbalancedPostings) else Ok(Transaction(id, ps))
  }

  lemma PairTotal(a: Posting, b: Posting)
    ensures Total([a]) == a.amount && Total([a, b]) == a.amount + b.amount
  {
    assert [a][..0] == [] && [a, b][..1] == [a];
  }

  lemma PairPostings(a: Posting, b: Posting, account: Account)
    ensures PostingsTo([a, b], account)
         == (if a.account == account then [a] else []) + (if b.account == account then [b] else [])
  {
    assert [a][..0] == [] && [a, b][..1] == [a];
    assert PostingsTo([a], account) == if a.account == account then [a] else [];
  }

  /** A created transaction balances: what the wallet gains, the clearing account loses. */
  lemma MovementIsBalanced(wallet: Id, amount: int)
    ensures Balanced(WalletMovement(wallet, amount))
    ensures PostingsTo(WalletMovement(wallet, amount), WalletAccount(wallet))
      == [Posting(WalletAccount(wallet), amount)]
    ensures NetTo(WalletMovement(wallet, amount), WalletAccount(wallet)) == amount
    ensures NetTo(WalletMovement(wallet, amount), ExternalClearing) == -amount
  {
    var a, b := Posting(WalletAccount(wallet), amount), Posting(ExternalClearing, -amount);
    PairTotal(a, b);
    PairTotal(b, a);
    PairPostings(a, b, WalletAccount(wallet));
    PairPostings(a, b, ExternalClearing);
  }
}
