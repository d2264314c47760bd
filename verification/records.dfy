/**
 * The four document kinds of the store, as the pages read them, and the
 * shapes shared by every entry form: the signed-in check and the outcome
 * of a submit.
 */
module Records {

  import opened Wrappers

  /** The four expense classifications, in the order the form offers them. */
  datatype Category = Need | Wants | Pride | Unexpected

  /** A counterparty. `createdAt` is the store's creation time in milliseconds, absent when the store sent none. */
  datatype Party = Party(id: string, name: string, town: string, userId: string, createdAt: Option<int>)

  datatype ExpenseHead = ExpenseHead(id: string, name: string, category: Category, userId: string)

  /** Money exchanged with a party: `isPaid` is money given, otherwise money received. `date` is `YYYY-MM-DD`. */
  datatype PartyTransaction = PartyTransaction(
    id: string, partyId: string, amount: int, description: Option<string>,
    isPaid: bool, date: string, userId: string)

  /** An expense booked against a head, also naming the party it was paid to. */
  datatype ExpenseTransaction = ExpenseTransaction(
    id: string, expenseHeadId: string, partyId: string, amount: int,
    description: Option<string>, date: string, userId: string)

  /** `!!user?.$id`: a session exists and its user id is a non-empty string. */
  function SignedIn(user: Option<string>): (b: bool)
    ensures b ==> user.Some? && |user.value| > 0
    ensures user.Some? && |user.value| > 0 ==> b
  {
    user.Some? && user.value != ""
  }

  /** Why a submit wrote nothing. */
  datatype EntryError =
    | MissingRequiredFields  // the page's validation toast; no create is attempted
    | NotAuthenticated       // the create throws before any write
    | StoreRejected          // the store refused the write

  /**
   * The result of submitting a form `F`: either nothing was written and the
   * form is left as it was, or document `D` was written and the form was reset.
   */
  datatype Submission<D, F> = Rejected(error: EntryError, form: F) | Written(document: D, form: F)
}
