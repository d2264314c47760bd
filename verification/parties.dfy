/**
 * The parties page: the "has transactions" guard and its row controls,
 * the newest-first ordering of the list, and the add-party form.
 */
module Parties {
  import opened Wrappers
  import opened Records
  import opened Text
  import opened DeletionGuard
  import Seqs

  /** `partyTransactions.some(t => t.partyId === partyId)`. */
  function PartyHasTransactions(txns: seq<PartyTransaction>, partyId: string): (r: bool)
    ensures r <==> exists i :: 0 <= i < |txns| && txns[i].partyId == partyId
    ensures |txns| == 0 ==> !r
  {
    Seqs.Any(txns, (t: PartyTransaction) => t.partyId == partyId)
  }

  /** Recording more transactions never clears the guard. */
  lemma GuardMonotone(txns: seq<PartyTransaction>, more: seq<PartyTransaction>, partyId: string)
    requires PartyHasTransactions(txns, partyId)
    ensures PartyHasTransactions(txns + more, partyId)
  {
    var i :| 0 <= i < |txns| && txns[i].partyId == partyId;
    assert (txns + more)[i] == txns[i];
  }

  /** A party's row: the delete control exactly when no transaction names it, the note exactly when one does. */
  function PartyRowControls(txns: seq<PartyTransaction>, partyId: string): (c: RowControls)
    ensures c.showDelete <==> forall i :: 0 <= i < |txns| ==> txns[i].partyId != partyId
    ensures c.showCannotDeleteNote <==> exists i :: 0 <= i < |txns| && txns[i].partyId == partyId
    ensures !(c.showDelete && c.showCannotDeleteNote)
  {
    ControlsFor(PartyHasTransactions(txns, partyId))
  }

  /** A delete of a referenced party is never issued, whatever the confirmation. */
  lemma NoDeleteWhileReferenced(txns: seq<PartyTransaction>, partyId: string, confirmed: bool)
    ensures DeleteIssued(PartyRowControls(txns, partyId), confirmed)
        <==> confirmed && !PartyHasTransactions(txns, partyId)
  {
  }

  // ------------------------------------------------------------- list order

  /** `new Date(p.$createdAt || 0).getTime()`: a missing creation time counts as the epoch. */
  function CreatedKey(p: Party): (k: int)
    ensures p.createdAt.None? ==> k == 0
    ensures p.createdAt.Some? ==> k == p.createdAt.value
  {
    if p.createdAt.Some? then p.createdAt.value else 0
  }

  /** Newest first: creation keys never increase along the list. */
  predicate NewestFirst(ps: seq<Party>) {
    forall i, j :: 0 <= i < j < |ps| ==> CreatedKey(ps[i]) >= CreatedKey(ps[j])
  }

  /** Putting a party no older than the head in front of a newest-first list keeps it newest first. */
  lemma ConsNewestFirst(p: Party, ps: seq<Party>)
    requires NewestFirst(ps)
    requires |ps| == 0 || CreatedKey(p) >= CreatedKey(ps[0])
    ensures NewestFirst([p] + ps)
  {
    var r := [p] + ps;
    forall i, j | 0 <= i < j < |r| ensures CreatedKey(r[i]) >= CreatedKey(r[j]) {
      if i == 0 && j > 1 {
        assert r[j] == ps[j - 1] && r[1] == ps[0];
      }
    }
  }

  /**
   * Places `p` into a newest-first list ahead of every party not newer than
   * it, so that among equal keys the earlier input stays first.
   */
  function Insert(p: Party, ps: seq<Party>): (r: seq<Party>)
    requires NewestFirst(ps)
    ensures NewestFirst(r)
    ensures multiset(r) == multiset(ps) + multiset{p}
    ensures |r| == |ps| + 1
    ensures r[0] == p || (|ps| > 0 && r[0] == ps[0])
  {
    if |ps| == 0 || CreatedKey(ps[0]) <= CreatedKey(p) then
      ConsNewestFirst(p, ps);
      [p] + ps
    else
      var rest := Insert(p, ps[1..]);
      assert ps == [ps[0]] + ps[1..];
      ConsNewestFirst(ps[0], rest);
      [ps[0]] + rest
  }

  /**
   * The fetched parties sorted by `$createdAt`, newest first, as the page's
   * stable `sort` with comparator `dateB - dateA` leaves them.
   */
  function SortNewestFirst(ps: seq<Party>): (r: seq<Party>)
    ensures NewestFirst(r)
    ensures multiset(r) == multiset(ps)
    ensures |r| == |ps|
  {
    if |ps| == 0 then []
    else
      assert ps == [ps[0]] + ps[1..];
      Insert(ps[0], SortNewestFirst(ps[1..]))
  }

  /** In the sorted list, a party with no creation time comes after every party created after the epoch. */
  lemma UndatedSortLast(ps: seq<Party>, i: nat, j: nat)
    requires NewestFirst(ps)
    requires i < |ps| && j < |ps|
    requires ps[i].createdAt.None? && CreatedKey(ps[j]) > 0
    ensures j < i
  {
  }

  // --------------------------------------------------------------- add form

  datatype NewPartyForm = NewPartyForm(name: string, town: string)

  /** What the create receives. */
  datatype PartyInput = PartyInput(name: string, town: string)

  /** The party document as written. */
  datatype PartyDocument = PartyDocument(name: string, town: string, userId: string)

  const EmptyNewPartyForm: NewPartyForm := NewPartyForm("", "")

  /** Submitting the add-party form: rejected when the trimmed name or town is empty; otherwise both are passed trimmed. */
  function SubmitNewPartyForm(form: NewPartyForm): (r: Result<PartyInput, EntryError>)
    ensures r.Failure? <==> AllWhitespace(form.name) || AllWhitespace(form.town)
    ensures r.Failure? ==> r.error == MissingRequiredFields
    ensures r.Success? ==> (r.value.name == Trim(form.name) && r.value.town == Trim(form.town)
                           && r.value.name != "" && r.value.town != ""
                           && IsTrimmed(r.value.name) && IsTrimmed(r.value.town))
  {
    TrimEmptyIff(form.name);
    TrimEmptyIff(form.town);
    if Trim(form.name) == "" || Trim(form.town) == "" then Failure(MissingRequiredFields)
    else Success(PartyInput(Trim(form.name), Trim(form.town)))
  }

  /** The create: refused before any write when nobody is signed in, else owned by the acting user. */
  function PartyDocumentFor(user: Option<string>, data: PartyInput): (r: Result<PartyDocument, EntryError>)
    ensures r.Failure? <==> !SignedIn(user)
    ensures r.Failure? ==> r.error == NotAuthenticated
    ensures r.Success? ==> (r.value.name == data.name && r.value.town == data.town && r.value.userId == user.value)
  {
    if SignedIn(user) then Success(PartyDocument(data.name, data.town, user.value))
    else Failure(NotAuthenticated)
  }

  /** One press of "Add Party": validation, the create, then the reset or the untouched form. */
  function SubmitParty(user: Option<string>, form: NewPartyForm, storeAccepts: bool)
    : (s: Submission<PartyDocument, NewPartyForm>)
    ensures s.Written? <==> !AllWhitespace(form.name) && !AllWhitespace(form.town) && SignedIn(user) && storeAccepts
    ensures s.Rejected? ==> s.form == form
    ensures s.Written? ==> (s.form == EmptyNewPartyForm && s.document.userId == user.value
                           && s.document.name == Trim(form.name) && s.document.town == Trim(form.town))
  {
    match SubmitNewPartyForm(form)
    case Failure(e) => Rejected(e, form)
    case Success(data) =>
      match PartyDocumentFor(user, data)
      case Failure(e) => Rejected(e, form)
      case Success(doc) => if storeAccepts then Written(doc, EmptyNewPartyForm) else Rejected(StoreRejected, form)
  }

  /** The emptied form fails validation, so pressing "Add Party" again writes nothing. */
  lemma ResetNewPartyFormIsRejected(user: Option<string>, storeAccepts: bool)
    ensures SubmitParty(user, EmptyNewPartyForm, storeAccepts) == Rejected(MissingRequiredFields, EmptyNewPartyForm)
  {
  }
}
