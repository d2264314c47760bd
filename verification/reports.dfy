/**
 * The reports page: which transactions a report selects, how they are
 * joined to their parties and heads, the totals, and which sections and
 * notices are shown for each report type.
 */
module Reports {
  import opened Wrappers
  import opened Records
  import opened Text
  import opened Joins
  import opened Totals
  import opened Query
  import Seqs

  datatype ReportType = PartyReport | ExpenseReport | Combined

  /** The party fetch is enabled and the party cards and list are shown. */
  predicate IncludesParty(rt: ReportType) { rt == PartyReport || rt == Combined }

  /** The expense fetch is enabled and the expense card and list are shown. */
  predicate IncludesExpense(rt: ReportType) { rt == ExpenseReport || rt == Combined }

  /** The page's filter controls. A selection equal to `AllSentinel` means "every party" or "every head". */
  datatype ReportFilter = ReportFilter(
    reportType: ReportType, fromDate: string, toDate: string,
    selectedParty: string, selectedExpenseHead: string)

  /** The four collections as the store holds them, for every user. */
  datatype Store = Store(
    parties: seq<Party>, expenseHeads: seq<ExpenseHead>,
    partyTransactions: seq<PartyTransaction>, expenseTransactions: seq<ExpenseTransaction>)

  /** The signed-in user's parties, the lookup table of the party join; nothing without a user. */
  function UserParties(user: Option<string>, store: Store): (r: seq<Party>)
    ensures forall p :: p in r <==> SignedIn(user) && p in store.parties && p.userId == user.value
  {
    if SignedIn(user) then Seqs.Filter(store.parties, (p: Party) => p.userId == user.value) else []
  }

  /** The signed-in user's expense heads, the lookup table of the expense join. */
  function UserHeads(user: Option<string>, store: Store): (r: seq<ExpenseHead>)
    ensures forall h :: h in r <==> SignedIn(user) && h in store.expenseHeads && h.userId == user.value
  {
    if SignedIn(user) then Seqs.Filter(store.expenseHeads, (h: ExpenseHead) => h.userId == user.value) else []
  }

  /** The party transactions a report for `userId` and `f` is after: owner, inclusive date range, optional party. */
  predicate PartyWanted(userId: string, f: ReportFilter, t: PartyTransaction) {
    && t.userId == userId && InRange(t.date, f.fromDate, f.toDate)
    && (f.selectedParty != AllSentinel ==> t.partyId == f.selectedParty)
  }

  /** The expense transactions it is after: owner, inclusive date range, optional head. */
  predicate ExpenseWanted(userId: string, f: ReportFilter, t: ExpenseTransaction) {
    && t.userId == userId && InRange(t.date, f.fromDate, f.toDate)
    && (f.selectedExpenseHead != AllSentinel ==> t.expenseHeadId == f.selectedExpenseHead)
  }

  /**
   * The party transactions the report fetches: exactly the wanted ones, each
   * as often as the store holds it, in collection order; none when signed
   * out or when the report type leaves parties out.
   */
  function FetchPartyTransactions(user: Option<string>, f: ReportFilter, store: Store): (r: seq<PartyTransaction>)
    ensures forall t :: t in r <==>
      SignedIn(user) && IncludesParty(f.reportType) && t in store.partyTransactions && PartyWanted(user.value, f, t)
    ensures SignedIn(user) && IncludesParty(f.reportType)
      && (forall i :: 0 <= i < |store.partyTransactions| ==> PartyWanted(user.value, f, store.partyTransactions[i]))
      ==> r == store.partyTransactions
    ensures forall t :: t in store.partyTransactions ==>
      (multiset(r)[t] == if SignedIn(user) && IncludesParty(f.reportType) && PartyWanted(user.value, f, t)
                         then multiset(store.partyTransactions)[t] else 0)
  {
    if SignedIn(user) && IncludesParty(f.reportType) then
      var qs := PartyTransactionQuery(user.value, f.fromDate, f.toDate, f.selectedParty);
      SelectPartyTransactions(store.partyTransactions, qs)
    else []
  }

  /** The expense transactions the report fetches, likewise: each wanted one as often as the store holds it. */
  function FetchExpenseTransactions(user: Option<string>, f: ReportFilter, store: Store): (r: seq<ExpenseTransaction>)
    ensures forall t :: t in r <==>
      SignedIn(user) && IncludesExpense(f.reportType) && t in store.expenseTransactions && ExpenseWanted(user.value, f, t)
    ensures SignedIn(user) && IncludesExpense(f.reportType)
      && (forall i :: 0 <= i < |store.expenseTransactions| ==> ExpenseWanted(user.value, f, store.expenseTransactions[i]))
      ==> r == store.expenseTransactions
    ensures forall t :: t in store.expenseTransactions ==>
      (multiset(r)[t] == if SignedIn(user) && IncludesExpense(f.reportType) && ExpenseWanted(user.value, f, t)
                         then multiset(store.expenseTransactions)[t] else 0)
  {
    if SignedIn(user) && IncludesExpense(f.reportType) then
      var qs := ExpenseTransactionQuery(user.value, f.fromDate, f.toDate, f.selectedExpenseHead);
      SelectExpenseTransactions(store.expenseTransactions, qs)
    else []
  }

  /** What the page renders from one filter and one snapshot of the store. */
  datatype ReportView = ReportView(
    partyRows: seq<PartyRow>, expenseRows: seq<ExpenseRow>,
    totalPaid: int, totalReceived: int, netBalance: int, expenseTotal: int,
    showPartySection: bool, showExpenseSection: bool, showNothingFound: bool)

  function BuildReport(user: Option<string>, f: ReportFilter, store: Store): (v: ReportView)
    ensures v.showPartySection <==> IncludesParty(f.reportType)
    ensures v.showExpenseSection <==> IncludesExpense(f.reportType)
    ensures v.showNothingFound <==> f.reportType == Combined && |v.partyRows| == 0 && |v.expenseRows| == 0
    ensures |v.partyRows| == |FetchPartyTransactions(user, f, store)|
    ensures forall i :: 0 <= i < |v.partyRows| ==> v.partyRows[i].txn == FetchPartyTransactions(user, f, store)[i]
    ensures forall i :: 0 <= i < |v.partyRows| ==>
      v.partyRows[i].party == FindParty(UserParties(user, store), v.partyRows[i].txn.partyId)
    ensures |v.expenseRows| == |FetchExpenseTransactions(user, f, store)|
    ensures forall i :: 0 <= i < |v.expenseRows| ==> v.expenseRows[i].txn == FetchExpenseTransactions(user, f, store)[i]
    ensures forall i :: 0 <= i < |v.expenseRows| ==>
      v.expenseRows[i].head == FindHead(UserHeads(user, store), v.expenseRows[i].txn.expenseHeadId)
    ensures v.totalPaid + v.totalReceived == PartySum(v.partyRows)
    ensures v.totalPaid == PartySum(Seqs.Filter(v.partyRows, Paid))
    ensures v.totalReceived == PartySum(Seqs.Filter(v.partyRows, Received))
    ensures v.netBalance == v.totalReceived - v.totalPaid
    ensures v.expenseTotal == Seqs.Sum(v.expenseRows, ExpenseAmount)
  {
    var partyRows := JoinParties(FetchPartyTransactions(user, f, store), UserParties(user, store));
    var expenseRows := JoinHeads(FetchExpenseTransactions(user, f, store), UserHeads(user, store));
    PaidPlusReceived(partyRows);
    ReportView(
      partyRows, expenseRows,
      TotalPaid(partyRows), TotalReceived(partyRows), NetBalance(partyRows), ExpenseTotal(expenseRows),
      IncludesParty(f.reportType), IncludesExpense(f.reportType),
      f.reportType == Combined && |partyRows| == 0 && |expenseRows| == 0)
  }

  /** A report type that leaves a kind out fetches nothing of that kind, so its totals are zero. */
  lemma ExcludedKindIsEmpty(user: Option<string>, f: ReportFilter, store: Store)
    ensures !IncludesParty(f.reportType) ==>
      var v := BuildReport(user, f, store);
      v.partyRows == [] && v.totalPaid == 0 && v.totalReceived == 0 && v.netBalance == 0
    ensures !IncludesExpense(f.reportType) ==>
      var v := BuildReport(user, f, store);
      v.expenseRows == [] && v.expenseTotal == 0
  {
  }

  /** An inverted date range (`toDate` sorting strictly before `fromDate`) fetches no transaction of either kind. */
  lemma InvertedRangeFetchesNothing(user: Option<string>, f: ReportFilter, store: Store)
    requires !LexLe(f.fromDate, f.toDate)
    ensures FetchPartyTransactions(user, f, store) == []
    ensures FetchExpenseTransactions(user, f, store) == []
  {
    var ps := FetchPartyTransactions(user, f, store);
    if |ps| > 0 {
      assert ps[0] in ps;
      InvertedRangeIsEmpty(ps[0].date, f.fromDate, f.toDate);
      assert false;
    }
    var es := FetchExpenseTransactions(user, f, store);
    if |es| > 0 {
      assert es[0] in es;
      InvertedRangeIsEmpty(es[0].date, f.fromDate, f.toDate);
      assert false;
    }
  }

  /** An inverted date range shows no rows and every total is zero; no error arises. */
  lemma InvertedRangeReport(user: Option<string>, f: ReportFilter, store: Store)
    requires !LexLe(f.fromDate, f.toDate)
    ensures var v := BuildReport(user, f, store);
      && v.partyRows == [] && v.expenseRows == []
      && v.totalPaid == 0 && v.totalReceived == 0 && v.netBalance == 0 && v.expenseTotal == 0
      && (v.showNothingFound <==> f.reportType == Combined)
  {
    InvertedRangeFetchesNothing(user, f, store);
  }

  /** A signed-out page shows no rows and zero totals. */
  lemma SignedOutReportIsEmpty(user: Option<string>, f: ReportFilter, store: Store)
    requires !SignedIn(user)
    ensures var v := BuildReport(user, f, store);
      v.partyRows == [] && v.expenseRows == [] && v.totalPaid == 0 && v.totalReceived == 0 && v.expenseTotal == 0
  {
  }

  predicate PartyDateDescending(a: PartyTransaction, b: PartyTransaction) { LexLe(b.date, a.date) }
  predicate ExpenseDateDescending(a: ExpenseTransaction, b: ExpenseTransaction) { LexLe(b.date, a.date) }

  /**
   * When the store returns its collections latest date first, the report's
   * rows keep that order: neither the selection nor the join reorders.
   */
  lemma ReportRowsDateDescending(user: Option<string>, f: ReportFilter, store: Store)
    requires Seqs.Ordered(store.partyTransactions, PartyDateDescending)
    requires Seqs.Ordered(store.expenseTransactions, ExpenseDateDescending)
    ensures var v := BuildReport(user, f, store);
      && (forall i, j :: 0 <= i < j < |v.partyRows| ==> LexLe(v.partyRows[j].txn.date, v.partyRows[i].txn.date))
      && (forall i, j :: 0 <= i < j < |v.expenseRows| ==> LexLe(v.expenseRows[j].txn.date, v.expenseRows[i].txn.date))
  {
    if SignedIn(user) && IncludesParty(f.reportType) {
      var qs := PartyTransactionQuery(user.value, f.fromDate, f.toDate, f.selectedParty);
      Seqs.FilterKeepsOrder(store.partyTransactions, t => AdmitsPartyTransaction(qs, t), PartyDateDescending);
    }
    if SignedIn(user) && IncludesExpense(f.reportType) {
      var qs := ExpenseTransactionQuery(user.value, f.fromDate, f.toDate, f.selectedExpenseHead);
      Seqs.FilterKeepsOrder(store.expenseTransactions, t => AdmitsExpenseTransaction(qs, t), ExpenseDateDescending);
    }
  }
}
