/** Worked examples of the report rules on concrete data. */
module Scenarios {
  import opened Wrappers
  import opened Records
  import opened Joins
  import opened Totals
  import opened Reports
  import opened Text

  const Acme: Party := Party("p1", "Acme", "Springfield", "u1", None)
  const Given: PartyTransaction := PartyTransaction("t2", "p1", 100, None, true, "2024-01-05", "u1")
  const Got: PartyTransaction := PartyTransaction("t1", "p1", 60, None, false, "2024-01-10", "u1")

  /** The January rows: both resolve to Acme; 100 paid, 60 received, net balance -40. */
  lemma JanuaryTotals()
    ensures var rows := JoinParties([Got, Given], [Acme]);
      && rows == [PartyRow(Got, Some(Acme)), PartyRow(Given, Some(Acme))]
      && TotalPaid(rows) == 100 && TotalReceived(rows) == 60 && NetBalance(rows) == -40
      && PartyNameLabel(rows[0].party) == "Acme" && PartyTownSuffix(rows[0].party) == Some("Springfield")
      && PartyNameLabel(rows[1].party) == "Acme" && PartyTownSuffix(rows[1].party) == Some("Springfield")
  {
    var rows := JoinParties([Got, Given], [Acme]);
    assert rows[0].party == Some(Acme) && rows[1].party == Some(Acme);
    assert rows == [rows[0]] + [rows[1]];
    TotalsConcat([rows[0]], [rows[1]]);
    SingleRowTotals(rows[0]);
    SingleRowTotals(rows[1]);
  }

  const Groceries: ExpenseHead := ExpenseHead("h1", "Groceries", Need, "u1")
  const Shopping: ExpenseTransaction := ExpenseTransaction("e1", "h1", "p1", 4550, None, "2024-02-01", "u1")
  const March: ReportFilter := ReportFilter(ExpenseReport, "2024-03-01", "2024-03-31", "all", "all")

  lemma FebruaryOutsideMarch()
    ensures !ExpenseWanted("u1", March, Shopping)
  {
    assert !LexLe(March.fromDate, Shopping.date);
  }

  /** A February expense is outside a March report: no rows and a zero expense total. */
  lemma MarchReportExcludesFebruary(user: Option<string>, store: Store)
    requires user == Some("u1") && store == Store([Acme], [Groceries], [], [Shopping])
    ensures BuildReport(user, March, store).expenseRows == []
    ensures BuildReport(user, March, store).expenseTotal == 0
  {
    FebruaryOutsideMarch();
    var es := FetchExpenseTransactions(user, March, store);
    assert forall t :: t in es ==> t == Shopping;
  }
}
