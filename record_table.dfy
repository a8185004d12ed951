/**
 * src/components/RecordTable.jsx: the list of berth records and the id of
 * the one row being edited, and the save, cancel and edit transitions.
 */
module RecordTable {
  import opened Wrappers

  /** A record: its `id` and its other fields. */
  datatype Record = Record(id: int, fields: map<string, string>)

  /** `records.map((rec) => (rec.id === id ? updatedRecord : rec))` */
  function ReplaceById(records: seq<Record>, id: int, updated: Record): (r: seq<Record>)
    ensures |r| == |records|
    ensures forall i :: 0 <= i < |records| && records[i].id == id ==> r[i] == updated
    ensures forall i :: 0 <= i < |records| && records[i].id != id ==> r[i] == records[i]
    decreases |records|
  {
    if records == [] then []
    else [if records[0].id == id then updated else records[0]] + ReplaceById(records[1..], id, updated)
  }

  /** No two records share an id. */
  ghost predicate UniqueIds(records: seq<Record>) {
    forall i, j :: 0 <= i < j < |records| ==> records[i].id != records[j].id
  }

  /** Saving under an id no record has leaves the list as it was. */
  lemma AbsentIdUnchanged(records: seq<Record>, id: int, updated: Record)
    requires forall i :: 0 <= i < |records| ==> records[i].id != id
    ensures ReplaceById(records, id, updated) == records
  {
  }

  /**
   * Saving a row under its own id keeps every id where it was, so ids
   * that were unique stay unique.
   */
  lemma SaveKeepsIds(records: seq<Record>, id: int, updated: Record)
    requires updated.id == id
    ensures forall i :: 0 <= i < |records| ==> ReplaceById(records, id, updated)[i].id == records[i].id
    ensures UniqueIds(records) ==> UniqueIds(ReplaceById(records, id, updated))
  {
  }

  /** With unique ids, saving the row at position `k` replaces that record and no other. */
  lemma SaveReplacesOne(records: seq<Record>, k: nat, updated: Record)
    requires UniqueIds(records) && k < |records|
    ensures ReplaceById(records, records[k].id, updated) == records[k := updated]
  {
  }

  /** Saving the same record again changes nothing. */
  lemma SaveIdempotent(records: seq<Record>, id: int, updated: Record)
    requires updated.id == id
    ensures ReplaceById(ReplaceById(records, id, updated), id, updated) == ReplaceById(records, id, updated)
  {
  }

  /** With unique ids, at most one row is in edit mode: the one whose id `editId` holds. */
  lemma SingleEditingRow(records: seq<Record>, editId: Option<int>, i: nat, j: nat)
    requires UniqueIds(records)
    requires i < |records| && j < |records|
    requires editId == Some(records[i].id) && editId == Some(records[j].id)
    ensures i == j
  {
  }

  /** The table's state: `records` and `editId`. */
  class Table {
    var records: seq<Record>
    var editId: Option<int>

    /** `useState(initialRecords)` and `useState(null)` */
    constructor (initial: seq<Record>)
      ensures records == initial && editId == None
    {
      records := initial;
      editId := None;
    }

    /** `isEditing={editId === record.id}` */
    predicate IsEditing(record: Record)
      reads this
      ensures IsEditing(record) ==> editId.Some? && editId.value == record.id
    {
      editId == Some(record.id)
    }

    /** `handleSave`: every record with the saved id is replaced and edit mode ends. */
    method HandleSave(id: int, updated: Record)
      modifies this
      ensures records == ReplaceById(old(records), id, updated)
      ensures editId == None
      ensures forall record :: !IsEditing(record)
    {
      records := ReplaceById(records, id, updated);
      editId := None;
    }

    /** `handleCancel`: edit mode ends and the records stay as they were. */
    method HandleCancel()
      modifies this
      ensures records == old(records)
      ensures editId == None
      ensures forall record :: !IsEditing(record)
    {
      editId := None;
    }

    /** The row's `onEdit`: that row, and only rows with its id, enter edit mode. */
    method Edit(rowId: int)
      modifies this
      ensures records == old(records)
      ensures editId == Some(rowId)
      ensures forall record :: IsEditing(record) <==> record.id == rowId
    {
      editId := Some(rowId);
    }
  }
}
