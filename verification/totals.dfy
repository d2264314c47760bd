/**
 * The report's scalar aggregates: total paid, total received, net balance
 * and expense total, each a `filter` followed by a summing `reduce` from 0.
 */
module Totals {
  import opened Records
  import opened Joins
  import Seqs

  function PartyAmount(r: PartyRow): int { r.txn.amount }
  function ExpenseAmount(r: ExpenseRow): int { r.txn.amount }
  predicate Paid(r: PartyRow) { r.txn.isPaid }
  predicate Received(r: PartyRow) { !r.txn.isPaid }

  /** The sum of every party row's amount, the reference the two directional totals split. */
  function PartySum(rows: seq<PartyRow>): int {
    Seqs.Sum(rows, PartyAmount)
  }

  /** `rows.filter(t => t.isPaid).reduce((sum, t) => sum + t.amount, 0)`. */
  function TotalPaid(rows: seq<PartyRow>): (r: int)
    ensures r == PartySum(Seqs.Filter(rows, Paid))
  {
    Seqs.ReduceIsSum(0, Seqs.Filter(rows, Paid), PartyAmount);
    Seqs.Reduce(0, Seqs.Filter(rows, Paid), PartyAmount)
  }

  /** `rows.filter(t => !t.isPaid).reduce((sum, t) => sum + t.amount, 0)`. */
  function TotalReceived(rows: seq<PartyRow>): (r: int)
    ensures r == PartySum(Seqs.Filter(rows, Received))
  {
    Seqs.ReduceIsSum(0, Seqs.Filter(rows, Received), PartyAmount);
    Seqs.Reduce(0, Seqs.Filter(rows, Received), PartyAmount)
  }

  /** `rows.reduce((sum, t) => sum + t.amount, 0)`, with no filter: unresolved heads count too. */
  function ExpenseTotal(rows: seq<ExpenseRow>): (r: int)
    ensures r == Seqs.Sum(rows, ExpenseAmount)
  {
    Seqs.ReduceIsSum(0, rows, ExpenseAmount);
    Seqs.Reduce(0, rows, ExpenseAmount)
  }

  /** The displayed net balance, `totalReceived - totalPaid`. */
  function NetBalance(rows: seq<PartyRow>): (n: int)
    ensures n == PartySum(Seqs.Filter(rows, Received)) - PartySum(Seqs.Filter(rows, Paid))
  {
    TotalReceived(rows) - TotalPaid(rows)
  }

  /** The net balance gets the positive (green) style when it is not negative. */
  function NetBalanceIsPositive(rows: seq<PartyRow>): (b: bool)
    ensures b <==> PartySum(Seqs.Filter(rows, Received)) >= PartySum(Seqs.Filter(rows, Paid))
  {
    NetBalance(rows) >= 0
  }

  /** Paid and received split the party rows between them: together they are the whole sum. */
  lemma PaidPlusReceived(rows: seq<PartyRow>)
    ensures TotalPaid(rows) + TotalReceived(rows) == PartySum(rows)
  {
    Seqs.SumPartition(rows, Paid, Received, PartyAmount);
  }

  /** Positive styling is exactly "received at least as much as paid". */
  lemma PositiveIffReceivedCoversPaid(rows: seq<PartyRow>)
    ensures NetBalanceIsPositive(rows) <==> TotalReceived(rows) >= TotalPaid(rows)
    ensures NetBalance(rows) == PartySum(rows) - 2 * TotalPaid(rows)
  {
    PaidPlusReceived(rows);
  }

  /** The totals of a concatenation are the sums of the parts' totals. */
  lemma {:induction false} TotalsConcat(a: seq<PartyRow>, b: seq<PartyRow>)
    ensures TotalPaid(a + b) == TotalPaid(a) + TotalPaid(b)
    ensures TotalReceived(a + b) == TotalReceived(a) + TotalReceived(b)
  {
    Seqs.FilterConcat(a, b, Paid);
    Seqs.SumConcat(Seqs.Filter(a, Paid), Seqs.Filter(b, Paid), PartyAmount);
    Seqs.FilterConcat(a, b, Received);
    Seqs.SumConcat(Seqs.Filter(a, Received), Seqs.Filter(b, Received), PartyAmount);
  }

  /** A single row adds its amount to exactly one of the two totals. */
  lemma SingleRowTotals(r: PartyRow)
    ensures TotalPaid([r]) == (if r.txn.isPaid then r.txn.amount else 0)
    ensures TotalReceived([r]) == (if r.txn.isPaid then 0 else r.txn.amount)
  {
    assert [r][1..] == [];
    assert Seqs.Filter([r], Paid) == (if r.txn.isPaid then [r] else []);
    assert Seqs.Filter([r], Received) == (if r.txn.isPaid then [] else [r]);
    assert Seqs.Sum([r][1..], PartyAmount) == 0;
    assert PartySum([r]) == PartyAmount(r);
  }

  /**
   * The totals depend on the transactions alone: joining against a
   * different party list, including one where no reference resolves,
   * leaves them unchanged.
   */
  lemma TotalsIgnoreParties(txns: seq<PartyTransaction>, p1: seq<Party>, p2: seq<Party>)
    ensures TotalPaid(JoinParties(txns, p1)) == TotalPaid(JoinParties(txns, p2))
    ensures TotalReceived(JoinParties(txns, p1)) == TotalReceived(JoinParties(txns, p2))
  {
    var a, b := JoinParties(txns, p1), JoinParties(txns, p2);
    Seqs.FilteredSumPointwise(a, Paid, PartyAmount, b, Paid, PartyAmount);
    Seqs.FilteredSumPointwise(a, Received, PartyAmount, b, Received, PartyAmount);
  }

  /** The expense total depends on the transactions alone, not on which heads resolve. */
  lemma ExpenseTotalIgnoresHeads(txns: seq<ExpenseTransaction>, h1: seq<ExpenseHead>, h2: seq<ExpenseHead>)
    ensures ExpenseTotal(JoinHeads(txns, h1)) == ExpenseTotal(JoinHeads(txns, h2))
  {
    Seqs.SumPointwise(JoinHeads(txns, h1), ExpenseAmount, JoinHeads(txns, h2), ExpenseAmount);
  }

  /** Totals of the empty list are all zero. */
  lemma EmptyTotals()
    ensures TotalPaid([]) == 0 && TotalReceived([]) == 0 && NetBalance([]) == 0 && ExpenseTotal([]) == 0
  {
  }
}
