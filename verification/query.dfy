/**
 * The store queries the reports page builds for its two transaction
 * fetches, and what a query admits. The store runs the query; the model
 * states which documents it selects.
 */
module Query {
  import opened Wrappers
  import opened Records
  import opened Text
  import Seqs

  /** The selection value meaning "no party / no expense head filter". */
  const AllSentinel: string := "all"

  datatype Field = UserIdField | DateField | PartyIdField | ExpenseHeadIdField

  datatype Condition =
    | Equal(field: Field, value: string)
    | GreaterThanEqual(field: Field, value: string)
    | LessThanEqual(field: Field, value: string)
    | OrderDesc(field: Field)   // orders the result; admits every document

  /** Whether a document whose `field` holds `stored` (absent when it has no such field) passes `c`. */
  predicate Satisfies(c: Condition, stored: Option<string>) {
    match c
    case Equal(_, v) => stored == Some(v)
    case GreaterThanEqual(_, v) => stored.Some? && LexLe(v, stored.value)
    case LessThanEqual(_, v) => stored.Some? && LexLe(stored.value, v)
    case OrderDesc(_) => true
  }

  function PartyTransactionField(t: PartyTransaction, f: Field): Option<string> {
    match f
    case UserIdField => Some(t.userId)
    case DateField => Some(t.date)
    case PartyIdField => Some(t.partyId)
    case ExpenseHeadIdField => None
  }

  function ExpenseTransactionField(t: ExpenseTransaction, f: Field): Option<string> {
    match f
    case UserIdField => Some(t.userId)
    case DateField => Some(t.date)
    case PartyIdField => Some(t.partyId)
    case ExpenseHeadIdField => Some(t.expenseHeadId)
  }

  /** A document passes a query when it passes every one of its conditions. */
  predicate AdmitsPartyTransaction(qs: seq<Condition>, t: PartyTransaction) {
    forall i :: 0 <= i < |qs| ==> Satisfies(qs[i], PartyTransactionField(t, qs[i].field))
  }

  predicate AdmitsExpenseTransaction(qs: seq<Condition>, t: ExpenseTransaction) {
    forall i :: 0 <= i < |qs| ==> Satisfies(qs[i], ExpenseTransactionField(t, qs[i].field))
  }

  /** Owner, inclusive date range and date-descending order, the part both fetches share. */
  function BaseConditions(userId: string, fromDate: string, toDate: string): seq<Condition> {
    [Equal(UserIdField, userId), GreaterThanEqual(DateField, fromDate),
     LessThanEqual(DateField, toDate), OrderDesc(DateField)]
  }

  /** The date-range part of both queries: `fromDate <= date <= toDate`, both ends inclusive. */
  predicate InRange(date: string, fromDate: string, toDate: string) {
    LexLe(fromDate, date) && LexLe(date, toDate)
  }

  /**
   * The party-transaction query, narrowed to one party unless the selection
   * is `'all'`: it admits the user's transactions dated within the range
   * (of the selected party, if any) and orders them latest date first.
   */
  function PartyTransactionQuery(userId: string, fromDate: string, toDate: string, selectedParty: string)
    : (qs: seq<Condition>)
    ensures forall t :: (AdmitsPartyTransaction(qs, t)
                         <==> t.userId == userId && InRange(t.date, fromDate, toDate)
                              && (selectedParty != AllSentinel ==> t.partyId == selectedParty))
    ensures OrderDesc(DateField) in qs
    ensures (exists i :: 0 <= i < |qs| && qs[i].field == PartyIdField) <==> selectedParty != AllSentinel
  {
    var qs := BaseConditions(userId, fromDate, toDate)
      + (if selectedParty != AllSentinel then [Equal(PartyIdField, selectedParty)] else []);
    assert qs[0] == Equal(UserIdField, userId);
    assert qs[1] == GreaterThanEqual(DateField, fromDate);
    assert qs[2] == LessThanEqual(DateField, toDate);
    assert qs[3] == OrderDesc(DateField);
    assert selectedParty != AllSentinel ==> qs[4] == Equal(PartyIdField, selectedParty);
    qs
  }

  /**
   * The expense-transaction query, narrowed to one head unless the selection
   * is `'all'`; the party id plays no part in it.
   */
  function ExpenseTransactionQuery(userId: string, fromDate: string, toDate: string, selectedHead: string)
    : (qs: seq<Condition>)
    ensures forall t :: (AdmitsExpenseTransaction(qs, t)
                         <==> t.userId == userId && InRange(t.date, fromDate, toDate)
                              && (selectedHead != AllSentinel ==> t.expenseHeadId == selectedHead))
    ensures OrderDesc(DateField) in qs
    ensures (exists i :: 0 <= i < |qs| && qs[i].field == ExpenseHeadIdField) <==> selectedHead != AllSentinel
    ensures forall i :: 0 <= i < |qs| ==> qs[i].field != PartyIdField
  {
    var qs := BaseConditions(userId, fromDate, toDate)
      + (if selectedHead != AllSentinel then [Equal(ExpenseHeadIdField, selectedHead)] else []);
    assert qs[0] == Equal(UserIdField, userId);
    assert qs[1] == GreaterThanEqual(DateField, fromDate);
    assert qs[2] == LessThanEqual(DateField, toDate);
    assert qs[3] == OrderDesc(DateField);
    assert selectedHead != AllSentinel ==> qs[4] == Equal(ExpenseHeadIdField, selectedHead);
    qs
  }

  /** Every date lies within the range from itself to itself. */
  lemma InRangeOfItself(date: string)
    ensures InRange(date, date, date)
  {
    LexLeReflexive(date);
  }

  /** An inverted range (`toDate` sorting strictly before `fromDate`) contains no date. */
  lemma InvertedRangeIsEmpty(date: string, fromDate: string, toDate: string)
    requires !LexLe(fromDate, toDate)
    ensures !InRange(date, fromDate, toDate)
  {
    if InRange(date, fromDate, toDate) {
      LexLeTransitive(fromDate, date, toDate);
    }
  }

  /** The documents of a collection the store returns for a party query, in collection order. */
  function SelectPartyTransactions(store: seq<PartyTransaction>, qs: seq<Condition>): (r: seq<PartyTransaction>)
    ensures forall t :: t in r <==> t in store && AdmitsPartyTransaction(qs, t)
    ensures forall t :: t in store ==> multiset(r)[t] == if AdmitsPartyTransaction(qs, t) then multiset(store)[t] else 0
    ensures (forall i :: 0 <= i < |store| ==> AdmitsPartyTransaction(qs, store[i])) ==> r == store
  {
    Seqs.FilterAll(store, t => AdmitsPartyTransaction(qs, t));
    Seqs.Filter(store, t => AdmitsPartyTransaction(qs, t))
  }

  function SelectExpenseTransactions(store: seq<ExpenseTransaction>, qs: seq<Condition>): (r: seq<ExpenseTransaction>)
    ensures forall t :: t in r <==> t in store && AdmitsExpenseTransaction(qs, t)
    ensures forall t :: t in store ==> multiset(r)[t] == if AdmitsExpenseTransaction(qs, t) then multiset(store)[t] else 0
    ensures (forall i :: 0 <= i < |store| ==> AdmitsExpenseTransaction(qs, store[i])) ==> r == store
  {
    Seqs.FilterAll(store, t => AdmitsExpenseTransaction(qs, t));
    Seqs.Filter(store, t => AdmitsExpenseTransaction(qs, t))
  }
}
