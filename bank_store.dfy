/** The bank ledger (src/types/bank.ts, src/store/useBankStore.ts): cash
    deposits and withdrawals, and the balance they make together with the
    winnings of the bet ledger. */
module Bank {
  import opened Seqs
  import opened BetTypes
  import Bets

  datatype TransactionType = Deposit | Withdrawal

  /** Amounts are exact reals, not IEEE doubles. */
  datatype Transaction = Transaction(
    id: string,
    date: Date,
    kind: TransactionType,
    amount: real,
    description: Option<string>)

  /** What `addTransaction` receives: every field of a transaction but the id. */
  datatype NewTransaction = NewTransaction(
    date: Date,
    kind: TransactionType,
    amount: real,
    description: Option<string>)
  {
    /** `{ ...transaction, id }` */
    function WithId(id: string): (t: Transaction) {
      Transaction(id, date, kind, amount, description)
    }
  }

  datatype BankStats = BankStats(
    totalDeposits: real,
    totalWithdrawals: real,
    totalBalance: real,
    totalProfit: real)

  /** The term `sum + t.amount` adds. */
  function Amount(t: Transaction): (a: real) { t.amount }

  /** `transactions.filter((t) => t.type === kind).reduce(...)`: the sum of
      the amounts of the transactions of one kind. Only transactions of that
      kind contribute, so it is 0 when there are none, and it is not negative
      when none of them has a negative amount. */
  function SumOfKind(txs: seq<Transaction>, kind: TransactionType): (r: real)
    ensures (forall t :: t in txs ==> t.kind != kind) ==> r == 0.0
    ensures (forall t :: t in txs && t.kind == kind ==> t.amount >= 0.0) ==> r >= 0.0
  {
    var ofKind := Filter((t: Transaction) => t.kind == kind, txs);
    assert forall i :: 0 <= i < |ofKind| ==> ofKind[i] in ofKind;
    Sum(Amount, ofKind)
  }

  /** Appending a transaction adds its amount to the sum of its own kind
      and leaves the sum of the other kind as it was. */
  lemma {:induction false} SumOfKindSnoc(txs: seq<Transaction>, t: Transaction, kind: TransactionType)
    ensures SumOfKind(txs + [t], kind) == SumOfKind(txs, kind) + (if t.kind == kind then t.amount else 0.0)
  {
    var p := (x: Transaction) => x.kind == kind;
    FilterSnoc(p, txs, t);
    var f := Filter(p, txs);
    if p(t) {
      SumSnoc(Amount, f, t);
    } else {
      assert f + [] == f;
    }
  }

  /** The arithmetic of `getStats`: the balance is deposits plus winnings
      minus withdrawals, and the profit is the balance minus the deposits,
      which makes it winnings minus withdrawals whatever was deposited. */
  function StatsOf(txs: seq<Transaction>, totalWinnings: real): (r: BankStats)
    ensures r.totalDeposits == SumOfKind(txs, Deposit)
    ensures r.totalWithdrawals == SumOfKind(txs, Withdrawal)
    ensures r.totalProfit == totalWinnings - r.totalWithdrawals
    ensures r.totalBalance == r.totalDeposits + r.totalProfit
  {
    var totalDeposits := SumOfKind(txs, Deposit);
    var totalWithdrawals := SumOfKind(txs, Withdrawal);
    var totalBalance := totalDeposits + totalWinnings - totalWithdrawals;
    var totalProfit := totalBalance - totalDeposits;
    BankStats(totalDeposits, totalWithdrawals, totalBalance, totalProfit)
  }

  /** A deposit of `a` raises the deposits and the balance by `a` and leaves
      the profit alone; a withdrawal of `a` lowers balance and profit by `a`. */
  lemma StatsAfterAppend(txs: seq<Transaction>, t: Transaction, totalWinnings: real)
    ensures t.kind == Deposit ==>
              StatsOf(txs + [t], totalWinnings).totalDeposits == StatsOf(txs, totalWinnings).totalDeposits + t.amount
              && StatsOf(txs + [t], totalWinnings).totalWithdrawals == StatsOf(txs, totalWinnings).totalWithdrawals
              && StatsOf(txs + [t], totalWinnings).totalBalance == StatsOf(txs, totalWinnings).totalBalance + t.amount
              && StatsOf(txs + [t], totalWinnings).totalProfit == StatsOf(txs, totalWinnings).totalProfit
    ensures t.kind == Withdrawal ==>
              StatsOf(txs + [t], totalWinnings).totalDeposits == StatsOf(txs, totalWinnings).totalDeposits
              && StatsOf(txs + [t], totalWinnings).totalWithdrawals == StatsOf(txs, totalWinnings).totalWithdrawals + t.amount
              && StatsOf(txs + [t], totalWinnings).totalBalance == StatsOf(txs, totalWinnings).totalBalance - t.amount
              && StatsOf(txs + [t], totalWinnings).totalProfit == StatsOf(txs, totalWinnings).totalProfit - t.amount
  {
    SumOfKindSnoc(txs, t, Deposit);
    SumOfKindSnoc(txs, t, Withdrawal);
  }

  /** One deposit of 500, no withdrawal, and a single Won bet of 100 at odd
      1.5: winnings 150, balance 650, profit 150. */
  lemma DepositAndWonBetExample(t: Transaction, b: Bet)
    requires t.kind == Deposit && t.amount == 500.0
    requires b.status == Won && b.amount == 100.0 && b.odd == 1.5
    ensures Bets.Stats([b]).totalWinnings == 150.0
    ensures StatsOf([t], Bets.Stats([b]).totalWinnings).totalBalance == 650.0
    ensures StatsOf([t], Bets.Stats([b]).totalWinnings).totalProfit == 150.0
  {
    Bets.StatsAppend([], b);
    assert [] + [b] == [b];
    SumOfKindSnoc([], t, Deposit);
    SumOfKindSnoc([], t, Withdrawal);
    assert [] + [t] == [t];
  }

  /** `transactions.filter((transaction) => transaction.id !== id)` */
  function WithoutTransaction(txs: seq<Transaction>, id: string): (r: seq<Transaction>)
    ensures forall t :: t in r <==> t in txs && t.id != id
    ensures IsSubsequence(r, txs)
    ensures forall t :: multiset(r)[t] == if t.id != id then multiset(txs)[t] else 0
  {
    var p := (t: Transaction) => t.id != id;
    FilterMultiset(p, txs);
    Filter(p, txs)
  }

  /** Deleting an id no transaction has leaves the collection identical. */
  lemma WithoutTransactionAbsent(txs: seq<Transaction>, id: string)
    requires forall t :: t in txs ==> t.id != id
    ensures WithoutTransaction(txs, id) == txs
  {
    FilterKeepsAll((t: Transaction) => t.id != id, txs);
  }

  /** `useBankStore`: the ordered transactions, and a read-only handle on the
      bet ledger whose winnings enter the balance. */
  class BankStore {
    var transactions: seq<Transaction>
    const betStore: Bets.BetStore

    constructor(betStore: Bets.BetStore)
      ensures transactions == [] && this.betStore == betStore
    {
      transactions := [];
      this.betStore := betStore;
    }

    /** `addTransaction`, with the fresh id that `crypto.randomUUID()` would
        give. */
    method AddTransaction(transaction: NewTransaction, id: string)
      requires forall t :: t in transactions ==> t.id != id
      modifies this
      ensures transactions == old(transactions) + [transaction.WithId(id)]
      ensures transaction.kind == Deposit ==>
                GetStats().totalBalance == old(GetStats()).totalBalance + transaction.amount
                && GetStats().totalProfit == old(GetStats()).totalProfit
      ensures transaction.kind == Withdrawal ==>
                GetStats().totalBalance == old(GetStats()).totalBalance - transaction.amount
                && GetStats().totalProfit == old(GetStats()).totalProfit - transaction.amount
    {
      StatsAfterAppend(transactions, transaction.WithId(id), betStore.GetStats(None).totalWinnings);
      transactions := transactions + [transaction.WithId(id)];
    }

    method DeleteTransaction(id: string)
      modifies this
      ensures transactions == WithoutTransaction(old(transactions), id)
      ensures forall t :: t in transactions ==> t.id != id
      ensures (forall t :: t in old(transactions) ==> t.id != id) ==> transactions == old(transactions)
    {
      if forall t :: t in transactions ==> t.id != id {
        WithoutTransactionAbsent(transactions, id);
      }
      transactions := WithoutTransaction(transactions, id);
    }

    method ClearTransactions()
      modifies this
      ensures transactions == []
      ensures GetStats().totalDeposits == 0.0 && GetStats().totalWithdrawals == 0.0
    {
      transactions := [];
    }

    /** `getStats`: the transaction totals, combined with the winnings over
        the whole bet collection, which it reads and does not change. */
    function GetStats(): (r: BankStats)
      reads this, betStore
      ensures r.totalDeposits == SumOfKind(transactions, Deposit)
      ensures r.totalWithdrawals == SumOfKind(transactions, Withdrawal)
      ensures r.totalBalance == r.totalDeposits + Bets.Stats(betStore.bets).totalWinnings - r.totalWithdrawals
      ensures r.totalProfit == Bets.Stats(betStore.bets).totalWinnings - r.totalWithdrawals
    {
      StatsOf(transactions, betStore.GetStats(None).totalWinnings)
    }
  }
}
