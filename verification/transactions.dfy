/**
 * The transactions page: its two joins, the required-field checks of both
 * forms, construction of the stored documents and the form reset after a
 * successful create.
 */
module TransactionEntry {
  import opened Wrappers
  import opened Records
  import opened Text
  import opened Joins

  /** The party rows of the transaction list: every party transaction with its party, or none. */
  function PartyTransactionRows(txns: seq<PartyTransaction>, parties: seq<Party>): (rows: seq<PartyRow>)
    ensures |rows| == |txns|
    ensures forall i :: 0 <= i < |rows| ==> rows[i].txn == txns[i]
    ensures forall i :: 0 <= i < |rows| ==>
      (rows[i].party.None? <==> forall j :: 0 <= j < |parties| ==> parties[j].id != txns[i].partyId)
    ensures forall i :: 0 <= i < |rows| && rows[i].party.Some? ==>
      rows[i].party.value in parties && rows[i].party.value.id == txns[i].partyId
    ensures forall i :: 0 <= i < |rows| ==> rows[i].party == FindParty(parties, txns[i].partyId)
  {
    JoinParties(txns, parties)
  }

  /** The expense rows: head and party looked up independently, either one possibly absent. */
  function ExpenseTransactionRows(txns: seq<ExpenseTransaction>, heads: seq<ExpenseHead>, parties: seq<Party>)
    : (rows: seq<ExpenseDetailRow>)
    ensures |rows| == |txns|
    ensures forall i :: 0 <= i < |rows| ==> rows[i].txn == txns[i]
    ensures forall i :: 0 <= i < |rows| ==>
      (rows[i].head.None? <==> forall j :: 0 <= j < |heads| ==> heads[j].id != txns[i].expenseHeadId)
    ensures forall i :: 0 <= i < |rows| && rows[i].head.Some? ==>
      rows[i].head.value in heads && rows[i].head.value.id == txns[i].expenseHeadId
    ensures forall i :: 0 <= i < |rows| ==>
      (rows[i].party.None? <==> forall j :: 0 <= j < |parties| ==> parties[j].id != txns[i].partyId)
    ensures forall i :: 0 <= i < |rows| && rows[i].party.Some? ==>
      rows[i].party.value in parties && rows[i].party.value.id == txns[i].partyId
    ensures forall i :: 0 <= i < |rows| ==> rows[i].head == FindHead(heads, txns[i].expenseHeadId)
    ensures forall i :: 0 <= i < |rows| ==> rows[i].party == FindParty(parties, txns[i].partyId)
  {
    JoinHeadsAndParties(txns, heads, parties)
  }

  /** How a party-transaction row reads: "name (town)", each part "Unknown" when unresolved. */
  function PartyRowHeading(row: PartyRow): (r: (string, string))
    ensures row.party.None? ==> r == ("Unknown", "Unknown")
    ensures row.party.Some? && row.party.value.name != "" && row.party.value.town != "" ==>
      r == (row.party.value.name, row.party.value.town)
  {
    (PartyNameLabel(row.party), PartyTownLabel(row.party))
  }

  /** How an expense row reads: head name and category, each "Unknown" when the head is unresolved. */
  function ExpenseRowHeading(row: ExpenseDetailRow): (r: (string, string))
    ensures row.head.None? ==> r == ("Unknown", "Unknown")
    ensures row.head.Some? ==> r.1 == CategoryValue(row.head.value.category)
    ensures row.head.Some? && row.head.value.name != "" ==> r.0 == row.head.value.name
  {
    (HeadNameLabel(row.head), HeadCategoryLabel(row.head))
  }

  /** The "optional field" rule: keep a description only when its trim is non-empty, and keep the trim. */
  function OptionalText(description: string): (r: Option<string>)
    ensures r.None? <==> AllWhitespace(description)
    ensures r.Some? ==> r.value != "" && IsTrimmed(r.value) && r.value == Trim(description)
  {
    TrimEmptyIff(description);
    if Trim(description) == "" then None else Some(Trim(description))
  }

  // ---------------------------------------------------------------- party form

  /** The party-transaction form's state; `amount` is the raw text of the amount field. */
  datatype PartyForm = PartyForm(partyId: string, amount: string, description: string, isPaid: bool, date: string)

  /** What the party form hands to the create: the amount already parsed, the description trimmed or omitted. */
  datatype PartyTransactionInput = PartyTransactionInput(
    partyId: string, amount: int, description: Option<string>, isPaid: bool, date: string)

  /** The party-transaction document as written to the store. */
  datatype PartyTransactionDocument = PartyTransactionDocument(
    partyId: string, amount: int, description: Option<string>, isPaid: bool, date: string, userId: string)

  /** The form a fresh page starts with: nothing chosen, "paid" ticked, dated `today`. */
  function InitialPartyForm(today: string): (f: PartyForm)
    ensures f.partyId == "" && f.amount == "" && f.description == "" && f.isPaid && f.date == today
  {
    PartyForm("", "", "", true, today)
  }

  /**
   * Submitting the party form: rejected, with nothing created, when no party
   * is chosen or the amount field is empty. `amount` stands for the parsed
   * value of `form.amount`.
   */
  function SubmitPartyForm(form: PartyForm, amount: int): (r: Result<PartyTransactionInput, EntryError>)
    ensures r.Failure? <==> form.partyId == "" || form.amount == ""
    ensures r.Failure? ==> r.error == MissingRequiredFields
    ensures r.Success? ==> (r.value.partyId == form.partyId && r.value.amount == amount
                           && r.value.isPaid == form.isPaid && r.value.date == form.date)
    ensures r.Success? ==> (r.value.description.Some? <==> !AllWhitespace(form.description))
    ensures r.Success? && r.value.description.Some? ==> r.value.description.value == Trim(form.description)
  {
    if form.partyId == "" || form.amount == "" then Failure(MissingRequiredFields)
    else Success(PartyTransactionInput(form.partyId, amount, OptionalText(form.description), form.isPaid, form.date))
  }

  /**
   * The create's document: refused before any write when nobody is signed in;
   * otherwise every field is copied, the owner is the acting user, and the
   * description is kept, trimmed, only when it is not blank.
   */
  function PartyTransactionDocumentFor(user: Option<string>, data: PartyTransactionInput)
    : (r: Result<PartyTransactionDocument, EntryError>)
    ensures r.Failure? <==> !SignedIn(user)
    ensures r.Failure? ==> r.error == NotAuthenticated
    ensures r.Success? ==> (r.value.userId == user.value
                           && r.value.partyId == data.partyId && r.value.amount == data.amount
                           && r.value.isPaid == data.isPaid && r.value.date == data.date)
    ensures r.Success? ==> (r.value.description.Some? <==> data.description.Some? && !AllWhitespace(data.description.value))
    ensures r.Success? && r.value.description.Some? ==> r.value.description.value == Trim(data.description.value)
  {
    if !SignedIn(user) then Failure(NotAuthenticated)
    else
      var description := if data.description.Some? then OptionalText(data.description.value) else None;
      Success(PartyTransactionDocument(data.partyId, data.amount, description, data.isPaid, data.date, user.value))
  }

  /** The form after a successful create: party, amount and description cleared, "paid" ticked, dated `today`. */
  function PartyFormAfterCreate(today: string): (f: PartyForm)
    ensures f == InitialPartyForm(today)
  {
    PartyForm("", "", "", true, today)
  }

  /**
   * One press of "Add": the browser's check of the `required` date input,
   * then validation, then the create, then either the reset (the store
   * accepted the write) or the form untouched. An empty date stops the
   * submit before the handler runs; it is reported, like the handler's own
   * check, as missing required fields. `storeAccepts` is the store's
   * verdict on the write; `today` is the clock.
   */
  function SubmitPartyTransaction(user: Option<string>, form: PartyForm, amount: int, storeAccepts: bool, today: string)
    : (s: Submission<PartyTransactionDocument, PartyForm>)
    ensures s.Written? <==> form.date != "" && form.partyId != "" && form.amount != "" && SignedIn(user) && storeAccepts
    ensures s.Rejected? ==> s.form == form
    ensures s.Rejected? && (form.date == "" || form.partyId == "" || form.amount == "") ==> s.error == MissingRequiredFields
    ensures s.Written? ==> (s.form == InitialPartyForm(today) && s.document.userId == user.value
                           && s.document.partyId == form.partyId && s.document.amount == amount
                           && s.document.isPaid == form.isPaid && s.document.date == form.date)
    ensures s.Written? ==> s.document.description == OptionalText(form.description)
  {
    if form.date == "" then Rejected(MissingRequiredFields, form)
    else match SubmitPartyForm(form, amount)
    case Failure(e) => Rejected(e, form)
    case Success(data) =>
      match PartyTransactionDocumentFor(user, data)
      case Failure(e) => Rejected(e, form)
      case Success(doc) =>
        if storeAccepts then
          OptionalTextOfOptionalText(form.description);
          Written(doc, PartyFormAfterCreate(today))
        else Rejected(StoreRejected, form)
  }

  /** A fresh or just-reset party form fails validation, so pressing "Add" again writes nothing. */
  lemma ResetPartyFormIsRejected(user: Option<string>, amount: int, storeAccepts: bool, today: string, later: string)
    ensures SubmitPartyTransaction(user, PartyFormAfterCreate(today), amount, storeAccepts, later)
         == Rejected(MissingRequiredFields, InitialPartyForm(today))
  {
  }

  /** Trimming in the form and again in the create agree with trimming once. */
  lemma OptionalTextOfOptionalText(description: string)
    ensures var o := OptionalText(description);
      (if o.Some? then OptionalText(o.value) else None) == o
  {
    TrimIdempotent(description);
  }

  // -------------------------------------------------------------- expense form

  datatype ExpenseForm = ExpenseForm(expenseHeadId: string, partyId: string, amount: string, description: string, date: string)

  datatype ExpenseTransactionInput = ExpenseTransactionInput(
    expenseHeadId: string, partyId: string, amount: int, description: Option<string>, date: string)

  /** The expense-transaction document as written, including the party id. */
  datatype ExpenseTransactionDocument = ExpenseTransactionDocument(
    expenseHeadId: string, partyId: string, amount: int, description: Option<string>, date: string, userId: string)

  function InitialExpenseForm(today: string): (f: ExpenseForm)
    ensures f.expenseHeadId == "" && f.partyId == "" && f.amount == "" && f.description == "" && f.date == today
  {
    ExpenseForm("", "", "", "", today)
  }

  /** Submitting the expense form: rejected when the head, the party or the amount is empty. */
  function SubmitExpenseForm(form: ExpenseForm, amount: int): (r: Result<ExpenseTransactionInput, EntryError>)
    ensures r.Failure? <==> form.expenseHeadId == "" || form.partyId == "" || form.amount == ""
    ensures r.Failure? ==> r.error == MissingRequiredFields
    ensures r.Success? ==> (r.value.expenseHeadId == form.expenseHeadId && r.value.partyId == form.partyId
                           && r.value.amount == amount && r.value.date == form.date)
    ensures r.Success? ==> (r.value.description.Some? <==> !AllWhitespace(form.description))
    ensures r.Success? && r.value.description.Some? ==> r.value.description.value == Trim(form.description)
  {
    if form.expenseHeadId == "" || form.partyId == "" || form.amount == "" then Failure(MissingRequiredFields)
    else Success(ExpenseTransactionInput(form.expenseHeadId, form.partyId, amount, OptionalText(form.description), form.date))
  }

  function ExpenseTransactionDocumentFor(user: Option<string>, data: ExpenseTransactionInput)
    : (r: Result<ExpenseTransactionDocument, EntryError>)
    ensures r.Failure? <==> !SignedIn(user)
    ensures r.Failure? ==> r.error == NotAuthenticated
    ensures r.Success? ==> (r.value.userId == user.value
                           && r.value.expenseHeadId == data.expenseHeadId && r.value.partyId == data.partyId
                           && r.value.amount == data.amount && r.value.date == data.date)
    ensures r.Success? ==> (r.value.description.Some? <==> data.description.Some? && !AllWhitespace(data.description.value))
    ensures r.Success? && r.value.description.Some? ==> r.value.description.value == Trim(data.description.value)
  {
    if !SignedIn(user) then Failure(NotAuthenticated)
    else
      var description := if data.description.Some? then OptionalText(data.description.value) else None;
      Success(ExpenseTransactionDocument(data.expenseHeadId, data.partyId, data.amount, description, data.date, user.value))
  }

  /** The form after a successful create: every text field cleared, dated `today`. */
  function ExpenseFormAfterCreate(today: string): (f: ExpenseForm)
    ensures f == InitialExpenseForm(today)
  {
    ExpenseForm("", "", "", "", today)
  }

  /**
   * One press of "Add" on the expense tab: as for the party form, an empty
   * `required` date stops the submit before the handler's own check.
   */
  function SubmitExpenseTransaction(user: Option<string>, form: ExpenseForm, amount: int, storeAccepts: bool, today: string)
    : (s: Submission<ExpenseTransactionDocument, ExpenseForm>)
    ensures s.Written? <==> (form.date != "" && form.expenseHeadId != "" && form.partyId != "" && form.amount != ""
                             && SignedIn(user) && storeAccepts)
    ensures s.Rejected? ==> s.form == form
    ensures s.Rejected? && (form.date == "" || form.expenseHeadId == "" || form.partyId == "" || form.amount == "") ==>
      s.error == MissingRequiredFields
    ensures s.Written? ==> (s.form == InitialExpenseForm(today) && s.document.userId == user.value
                           && s.document.expenseHeadId == form.expenseHeadId && s.document.partyId == form.partyId
                           && s.document.amount == amount && s.document.date == form.date)
    ensures s.Written? ==> s.document.description == OptionalText(form.description)
  {
    if form.date == "" then Rejected(MissingRequiredFields, form)
    else match SubmitExpenseForm(form, amount)
    case Failure(e) => Rejected(e, form)
    case Success(data) =>
      match ExpenseTransactionDocumentFor(user, data)
      case Failure(e) => Rejected(e, form)
      case Success(doc) =>
        if storeAccepts then
          OptionalTextOfOptionalText(form.description);
          Written(doc, ExpenseFormAfterCreate(today))
        else Rejected(StoreRejected, form)
  }

  /** A fresh or just-reset expense form fails validation, so pressing "Add" again writes nothing. */
  lemma ResetExpenseFormIsRejected(user: Option<string>, amount: int, storeAccepts: bool, today: string, later: string)
    ensures SubmitExpenseTransaction(user, ExpenseFormAfterCreate(today), amount, storeAccepts, later)
         == Rejected(MissingRequiredFields, InitialExpenseForm(today))
  {
  }
}
