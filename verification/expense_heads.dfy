/**
 * The expense-heads page: the "has transactions" guard and its row
 * controls, the category labels, and the add-head form.
 */
module ExpenseHeads {
  import opened Wrappers
  import opened Records
  import opened Text
  import opened DeletionGuard
  import Seqs

  /** `expenseTransactions.some(t => t.expenseHeadId === expenseHeadId)`. */
  function ExpenseHeadHasTransactions(txns: seq<ExpenseTransaction>, expenseHeadId: string): (r: bool)
    ensures r <==> exists i :: 0 <= i < |txns| && txns[i].expenseHeadId == expenseHeadId
    ensures |txns| == 0 ==> !r
  {
    Seqs.Any(txns, (t: ExpenseTransaction) => t.expenseHeadId == expenseHeadId)
  }

  /** The guard reads only `expenseHeadId`: lists that agree on it agree on the guard, whatever their party ids. */
  lemma GuardIgnoresPartyId(a: seq<ExpenseTransaction>, b: seq<ExpenseTransaction>, expenseHeadId: string)
    requires |a| == |b|
    requires forall i :: 0 <= i < |a| ==> a[i].expenseHeadId == b[i].expenseHeadId
    ensures ExpenseHeadHasTransactions(a, expenseHeadId) == ExpenseHeadHasTransactions(b, expenseHeadId)
  {
  }

  /** Recording more transactions never clears the guard. */
  lemma GuardMonotone(txns: seq<ExpenseTransaction>, more: seq<ExpenseTransaction>, expenseHeadId: string)
    requires ExpenseHeadHasTransactions(txns, expenseHeadId)
    ensures ExpenseHeadHasTransactions(txns + more, expenseHeadId)
  {
    var i :| 0 <= i < |txns| && txns[i].expenseHeadId == expenseHeadId;
    assert (txns + more)[i] == txns[i];
  }

  /** A head's row: the delete control exactly when no transaction names it, the note exactly when one does. */
  function HeadRowControls(txns: seq<ExpenseTransaction>, expenseHeadId: string): (c: RowControls)
    ensures c.showDelete <==> forall i :: 0 <= i < |txns| ==> txns[i].expenseHeadId != expenseHeadId
    ensures c.showCannotDeleteNote <==> exists i :: 0 <= i < |txns| && txns[i].expenseHeadId == expenseHeadId
    ensures !(c.showDelete && c.showCannotDeleteNote)
  {
    ControlsFor(ExpenseHeadHasTransactions(txns, expenseHeadId))
  }

  /** A delete of a referenced head is never issued, whatever the confirmation. */
  lemma NoDeleteWhileReferenced(txns: seq<ExpenseTransaction>, expenseHeadId: string, confirmed: bool)
    ensures DeleteIssued(HeadRowControls(txns, expenseHeadId), confirmed)
        <==> confirmed && !ExpenseHeadHasTransactions(txns, expenseHeadId)
  {
  }

  // --------------------------------------------------------- category labels

  /** `categoryLabels`: the display name of each category. */
  function CategoryLabel(c: Category): (r: string)
    ensures |r| > 0 && 'A' <= r[0] <= 'Z'
  {
    match c
    case Need => "Need"
    case Wants => "Wants"
    case Pride => "Pride"
    case Unexpected => "Unexpected"
  }

  /** No two categories share a label. */
  lemma CategoryLabelInjective(a: Category, b: Category)
    ensures CategoryLabel(a) == CategoryLabel(b) ==> a == b
  {
  }

  // --------------------------------------------------------------- add form

  datatype HeadForm = HeadForm(name: string, category: Category)

  /** What the create receives. */
  datatype HeadInput = HeadInput(name: string, category: Category)

  /** The expense-head document as written. */
  datatype HeadDocument = HeadDocument(name: string, category: Category, userId: string)

  /** A fresh form, and the form after a successful create: no name, category "need". */
  const InitialHeadForm: HeadForm := HeadForm("", Need)

  /** Submitting the add-head form: rejected when the trimmed name is empty; otherwise the trimmed name and the chosen category. */
  function SubmitHeadForm(form: HeadForm): (r: Result<HeadInput, EntryError>)
    ensures r.Failure? <==> AllWhitespace(form.name)
    ensures r.Failure? ==> r.error == MissingRequiredFields
    ensures r.Success? ==> (r.value.name == Trim(form.name) && r.value.name != "" && IsTrimmed(r.value.name)
                           && r.value.category == form.category)
  {
    TrimEmptyIff(form.name);
    if Trim(form.name) == "" then Failure(MissingRequiredFields)
    else Success(HeadInput(Trim(form.name), form.category))
  }

  /** The create: refused before any write when nobody is signed in, else owned by the acting user. */
  function HeadDocumentFor(user: Option<string>, data: HeadInput): (r: Result<HeadDocument, EntryError>)
    ensures r.Failure? <==> !SignedIn(user)
    ensures r.Failure? ==> r.error == NotAuthenticated
    ensures r.Success? ==> (r.value.name == data.name && r.value.category == data.category && r.value.userId == user.value)
  {
    if SignedIn(user) then Success(HeadDocument(data.name, data.category, user.value))
    else Failure(NotAuthenticated)
  }

  /** One press of "Add Expense Head": validation, the create, then the reset to `InitialHeadForm` or the untouched form. */
  function SubmitHead(user: Option<string>, form: HeadForm, storeAccepts: bool)
    : (s: Submission<HeadDocument, HeadForm>)
    ensures s.Written? <==> !AllWhitespace(form.name) && SignedIn(user) && storeAccepts
    ensures s.Rejected? ==> s.form == form
    ensures s.Written? ==> (s.form == InitialHeadForm && s.form.category == Need && s.form.name == ""
                           && s.document.userId == user.value
                           && s.document.name == Trim(form.name) && s.document.category == form.category)
  {
    match SubmitHeadForm(form)
    case Failure(e) => Rejected(e, form)
    case Success(data) =>
      match HeadDocumentFor(user, data)
      case Failure(e) => Rejected(e, form)
      case Success(doc) => if storeAccepts then Written(doc, InitialHeadForm) else Rejected(StoreRejected, form)
  }

  /** The initial form fails validation, so pressing "Add Expense Head" again writes nothing. */
  lemma ResetHeadFormIsRejected(user: Option<string>, storeAccepts: bool)
    ensures SubmitHead(user, InitialHeadForm, storeAccepts) == Rejected(MissingRequiredFields, InitialHeadForm)
  {
  }
}
