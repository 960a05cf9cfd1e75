/**
 The records behind the taxes table and the two pure computations of the
 save handler in src/App.jsx: the PUT payload (the edited row with the
 form's name and country spread over it) and the merge of the server's
 answer into the table (a `data.map` that swaps every row with the edited
 row's id for the returned record).
 */
module TaxRecords {

  datatype Option<+T> = None | Some(value: T)

  /** One row of the taxes table: `{id, name, tax, country}`. */
  datatype TaxRecord = TaxRecord(id: string, name: string, tax: real, country: string)

  /** One entry of the countries list: `{id, name}`. */
  datatype Country = Country(id: string, name: string)

  /** The modal's form state `{name, country}`. */
  datatype Form = Form(name: string, country: string)

  /** The form is empty until a row is opened for editing. */
  const EmptyForm: Form := Form("", "")

  /** The form that opening the edit modal on `row` fills in. */
  function FormOf(row: TaxRecord): Form
  {
    Form(row.name, row.country)
  }

  /**
   The body of the PUT request: every field of the edited row, with `name`
   and `country` taken from the form. The payload keeps the row's identity
   and tax, shows exactly the form when reopened, and equals the row itself
   precisely when the form still holds the row's own values.
   */
  function Payload(row: TaxRecord, form: Form): (p: TaxRecord)
    ensures p.id == row.id && p.tax == row.tax
    ensures FormOf(p) == form
    ensures p == row <==> FormOf(row) == form
  {
    row.(name := form.name, country := form.country)
  }

  /** What row `item` becomes in the merge: the server's record if the ids match. */
  function Merged(item: TaxRecord, id: string, rec: TaxRecord): TaxRecord
  {
    if item.id == id then rec else item
  }

  /**
   The table after a successful save: same length and order as `data`; row
   `i` is the server's record exactly when its id is `id`, and is left as it
   was otherwise.
   */
  function ReplaceById(data: seq<TaxRecord>, id: string, rec: TaxRecord): (r: seq<TaxRecord>)
    ensures |r| == |data|
    ensures forall i :: 0 <= i < |data| ==> (data[i].id == id ==> r[i] == rec) && (data[i].id != id ==> r[i] == data[i])
  {
    if data == [] then [] else [Merged(data[0], id, rec)] + ReplaceById(data[1..], id, rec)
  }

  /** No two rows share an id. The server assigns ids, so this is what a loaded table looks like. */
  ghost predicate UniqueIds(data: seq<TaxRecord>)
  {
    forall i, j :: 0 <= i < |data| && 0 <= j < |data| && data[i].id == data[j].id ==> i == j
  }

  /** Some row of the table carries the id. */
  ghost predicate HasId(data: seq<TaxRecord>, id: string)
  {
    exists i :: 0 <= i < |data| && data[i].id == id
  }

  /** When no row carries the id, the merge leaves the table as it was. */
  lemma ReplaceByIdNoMatch(data: seq<TaxRecord>, id: string, rec: TaxRecord)
    requires !HasId(data, id)
    ensures ReplaceById(data, id, rec) == data
  {
  }

  /** With unique ids and a matching row at index `k`, the merge is the single update `data[k := rec]`. */
  lemma ReplaceByIdSingleHit(data: seq<TaxRecord>, k: nat, rec: TaxRecord)
    requires UniqueIds(data) && k < |data|
    ensures ReplaceById(data, data[k].id, rec) == data[k := rec]
  {
  }

  /** A record returned under the same id leaves every row's id where it was. */
  lemma ReplaceByIdKeepsIds(data: seq<TaxRecord>, rec: TaxRecord, i: nat)
    requires i < |data|
    ensures ReplaceById(data, rec.id, rec)[i].id == data[i].id
  {
  }

  /** Merging the same answer twice is the same as merging it once. */
  lemma ReplaceByIdIdempotent(data: seq<TaxRecord>, id: string, rec: TaxRecord)
    ensures ReplaceById(ReplaceById(data, id, rec), id, rec) == ReplaceById(data, id, rec)
  {
  }

  /**
   Opening a row and saving it without touching the form, when the server
   answers with the payload it was sent, leaves a table with unique ids
   exactly as it was.
   */
  lemma NoOpSaveKeepsTable(data: seq<TaxRecord>, k: nat)
    requires UniqueIds(data) && k < |data|
    ensures ReplaceById(data, data[k].id, Payload(data[k], FormOf(data[k]))) == data
  {
  }
}
