/**
 * The deletion guard shared by the parties and expense-heads lists: a
 * referenced entity shows a "Cannot delete: has transactions" note instead
 * of the delete control, and only the control can issue a delete.
 */
module DeletionGuard {

  /** What a list row offers. */
  datatype RowControls = RowControls(showDelete: bool, showCannotDeleteNote: bool)

  /** The row of an entity that some transaction references, or of one that none does. */
  function ControlsFor(referenced: bool): (c: RowControls)
    ensures c.showDelete <==> !referenced
    ensures c.showCannotDeleteNote <==> referenced
    ensures c.showDelete != c.showCannotDeleteNote
  {
    RowControls(!referenced, referenced)
  }

  /** The delete is issued when the control is offered and the user confirms the dialog. */
  function DeleteIssued(c: RowControls, confirmed: bool): (r: bool)
    ensures r ==> c.showDelete && !c.showCannotDeleteNote
  {
    c.showDelete && !c.showCannotDeleteNote && confirmed
  }
}
