/**
 * The in-memory foreign-key joins of the reports and transactions pages
 * (`transactions.map(t => ({...t, party: parties.find(...)}))`) and the
 * "Unknown" fallbacks used when a reference does not resolve.
 */
module Joins {
  import opened Wrappers
  import opened Records
  import Seqs

  /** `parties.find(p => p.$id === id)`. */
  function FindParty(parties: seq<Party>, id: string): (r: Option<Party>)
    ensures r.None? <==> forall i :: 0 <= i < |parties| ==> parties[i].id != id
    ensures r.Some? ==> r.value in parties && r.value.id == id
    ensures r.Some? ==> exists i :: 0 <= i < |parties| && parties[i] == r.value
                                    && forall j :: 0 <= j < i ==> parties[j].id != id
  {
    Seqs.FindFirst(parties, (p: Party) => p.id, id)
  }

  /** `expenseHeads.find(h => h.$id === id)`. */
  function FindHead(heads: seq<ExpenseHead>, id: string): (r: Option<ExpenseHead>)
    ensures r.None? <==> forall i :: 0 <= i < |heads| ==> heads[i].id != id
    ensures r.Some? ==> r.value in heads && r.value.id == id
    ensures r.Some? ==> exists i :: 0 <= i < |heads| && heads[i] == r.value
                                    && forall j :: 0 <= j < i ==> heads[j].id != id
  {
    Seqs.FindFirst(heads, (h: ExpenseHead) => h.id, id)
  }

  /** When ids are unique, the first match is the only match. */
  lemma FindPartyUnique(parties: seq<Party>, p: Party)
    requires p in parties
    requires forall i, j :: 0 <= i < |parties| && 0 <= j < |parties| && parties[i].id == parties[j].id ==> i == j
    ensures FindParty(parties, p.id) == Some(p)
  {
  }

  /** A party transaction extended with the party it references, if that party was found. */
  datatype PartyRow = PartyRow(txn: PartyTransaction, party: Option<Party>)

  /** An expense transaction extended with its head, as the reports page joins it. */
  datatype ExpenseRow = ExpenseRow(txn: ExpenseTransaction, head: Option<ExpenseHead>)

  /** An expense transaction extended with its head and its party, as the transactions page joins it. */
  datatype ExpenseDetailRow = ExpenseDetailRow(txn: ExpenseTransaction, head: Option<ExpenseHead>, party: Option<Party>)

  /** Each party transaction, in order, with its party attached; a dangling reference keeps the row with no party. */
  function JoinParties(txns: seq<PartyTransaction>, parties: seq<Party>): (rows: seq<PartyRow>)
    ensures |rows| == |txns|
    ensures forall i :: 0 <= i < |txns| ==> rows[i].txn == txns[i]
    ensures forall i :: 0 <= i < |txns| ==> rows[i].party == FindParty(parties, txns[i].partyId)
  {
    seq(|txns|, i requires 0 <= i < |txns| => PartyRow(txns[i], FindParty(parties, txns[i].partyId)))
  }

  /** Each expense transaction, in order, with its head attached. */
  function JoinHeads(txns: seq<ExpenseTransaction>, heads: seq<ExpenseHead>): (rows: seq<ExpenseRow>)
    ensures |rows| == |txns|
    ensures forall i :: 0 <= i < |txns| ==> rows[i].txn == txns[i]
    ensures forall i :: 0 <= i < |txns| ==> rows[i].head == FindHead(heads, txns[i].expenseHeadId)
  {
    seq(|txns|, i requires 0 <= i < |txns| => ExpenseRow(txns[i], FindHead(heads, txns[i].expenseHeadId)))
  }

  /** Each expense transaction, in order, with its head and its party looked up independently. */
  function JoinHeadsAndParties(txns: seq<ExpenseTransaction>, heads: seq<ExpenseHead>, parties: seq<Party>)
    : (rows: seq<ExpenseDetailRow>)
    ensures |rows| == |txns|
    ensures forall i :: 0 <= i < |txns| ==> rows[i].txn == txns[i]
    ensures forall i :: 0 <= i < |txns| ==> rows[i].head == FindHead(heads, txns[i].expenseHeadId)
    ensures forall i :: 0 <= i < |txns| ==> rows[i].party == FindParty(parties, txns[i].partyId)
  {
    seq(|txns|, i requires 0 <= i < |txns| =>
      ExpenseDetailRow(txns[i], FindHead(heads, txns[i].expenseHeadId), FindParty(parties, txns[i].partyId)))
  }

  /**
   * A row's party is exactly the party the store holds under the row's
   * `partyId`, when ids are unique, and is absent exactly when no party has it.
   */
  lemma JoinPartiesResolves(txns: seq<PartyTransaction>, parties: seq<Party>, i: nat)
    requires i < |txns|
    requires forall a, b :: 0 <= a < |parties| && 0 <= b < |parties| && parties[a].id == parties[b].id ==> a == b
    ensures JoinParties(txns, parties)[i].party.None? <==> forall p :: p in parties ==> p.id != txns[i].partyId
    ensures forall p :: p in parties && p.id == txns[i].partyId ==> JoinParties(txns, parties)[i].party == Some(p)
  {
  }

  /** `value || 'Unknown'`: an absent or empty string renders as "Unknown". */
  function OrUnknown(value: Option<string>): (r: string)
    ensures r != ""
    ensures value.Some? && value.value != "" ==> r == value.value
    ensures value.None? || value.value == "" ==> r == "Unknown"
  {
    if value.Some? && value.value != "" then value.value else "Unknown"
  }

  /** `party?.name || 'Unknown'`. */
  function PartyNameLabel(party: Option<Party>): (r: string)
    ensures party.None? ==> r == "Unknown"
    ensures party.Some? ==> r == (if party.value.name == "" then "Unknown" else party.value.name)
  {
    OrUnknown(if party.Some? then Some(party.value.name) else None)
  }

  /** `party?.town || 'Unknown'`, the transactions page's town column. */
  function PartyTownLabel(party: Option<Party>): (r: string)
    ensures party.None? ==> r == "Unknown"
    ensures party.Some? ==> r == (if party.value.town == "" then "Unknown" else party.value.town)
  {
    OrUnknown(if party.Some? then Some(party.value.town) else None)
  }

  /** `party?.town && (...)`: the town suffix, shown only for a resolved party with a non-empty town. */
  function PartyTownSuffix(party: Option<Party>): (r: Option<string>)
    ensures r.Some? <==> party.Some? && party.value.town != ""
    ensures r.Some? ==> r.value == party.value.town
  {
    if party.Some? && party.value.town != "" then Some(party.value.town) else None
  }

  /** `expenseHead?.name || 'Unknown'`. */
  function HeadNameLabel(head: Option<ExpenseHead>): (r: string)
    ensures head.None? ==> r == "Unknown"
    ensures head.Some? ==> r == (if head.value.name == "" then "Unknown" else head.value.name)
  {
    OrUnknown(if head.Some? then Some(head.value.name) else None)
  }

  /** The category as the store spells it, which is what the transactions and reports pages show. */
  function CategoryValue(c: Category): (r: string)
    ensures r != ""
  {
    match c
    case Need => "need"
    case Wants => "wants"
    case Pride => "pride"
    case Unexpected => "unexpected"
  }

  lemma CategoryValueInjective(a: Category, b: Category)
    ensures CategoryValue(a) == CategoryValue(b) ==> a == b
  {
  }

  /** `expenseHead?.category || 'Unknown'`: a stored category is never empty, so only an unresolved head renders "Unknown". */
  function HeadCategoryLabel(head: Option<ExpenseHead>): (r: string)
    ensures head.None? ==> r == "Unknown"
    ensures head.Some? ==> r == CategoryValue(head.value.category)
  {
    OrUnknown(if head.Some? then Some(CategoryValue(head.value.category)) else None)
  }
}
