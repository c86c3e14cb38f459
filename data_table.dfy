/** The records table: the empty-versus-rows choice, the header labels, the cell of each
    column (a coloured badge for a "status" column) and the delete-confirmation state. */
module DataTable {
  import opened Records
  import opened ColumnLabels
  import DatabaseService

  datatype BadgeColor = Green | Red | Yellow

  datatype Cell = Text(value: Value) | StatusBadge(value: Value, color: BadgeColor)

  /** One table row: the record its edit and delete buttons act on, and its cells. */
  datatype Row = Row(record: Record, cells: seq<Cell>)

  datatype View = EmptyState | Grid(headers: seq<string>, rows: seq<Row>)

  /** The status badge: "Active" is green, "Inactive" red, anything else yellow. */
  function StatusColor(v: Value): (c: BadgeColor)
    ensures c == Green <==> v == Str("Active")
    ensures c == Red <==> v == Str("Inactive")
    ensures c == Yellow <==> v != Str("Active") && v != Str("Inactive")
  {
    if v == Str("Active") then Green
    else if v == Str("Inactive") then Red
    else Yellow
  }

  /** The cell for `row[column]`. */
  function CellFor(r: Record, column: string): (cell: Cell)
    ensures cell.value == Get(r, column)
    ensures cell.StatusBadge? <==> column == "status"
    ensures cell.StatusBadge? ==> cell.color == StatusColor(cell.value)
  {
    if column == "status" then StatusBadge(Get(r, column), StatusColor(Get(r, column)))
    else Text(Get(r, column))
  }

  /** What the table renders for `data` under `columns`. */
  function Render(data: seq<Record>, columns: seq<string>): (v: View)
    ensures v.EmptyState? <==> |data| == 0
    ensures v.Grid? ==>
      && |v.headers| == |columns|
      && (forall j :: 0 <= j < |columns| ==> v.headers[j] == Label(columns[j]))
      && |v.rows| == |data|
      && (forall i :: 0 <= i < |data| ==> v.rows[i].record == data[i] && |v.rows[i].cells| == |columns|)
      && (forall i, j :: 0 <= i < |data| && 0 <= j < |columns| ==>
            v.rows[i].cells[j] == CellFor(data[i], columns[j]))
  {
    if |data| == 0 then EmptyState
    else
      Grid(seq(|columns|, j requires 0 <= j < |columns| => Label(columns[j])),
           seq(|data|, i requires 0 <= i < |data| =>
             Row(data[i], seq(|columns|, j requires 0 <= j < |columns| => CellFor(data[i], columns[j])))))
  }

  /** Under the store's schema, which has no "status" column, every cell is plain text
      showing the record's value, and the headers read "id", "name", "description". */
  lemma SchemaTableHasNoBadges(data: seq<Record>)
    requires |data| > 0
    ensures var v := Render(data, DatabaseService.GetColumns());
      && v.headers == ["id", "name", "description"]
      && forall i, j :: 0 <= i < |data| && 0 <= j < 3 ==> v.rows[i].cells[j].Text?
  {
    var columns := DatabaseService.GetColumns();
    var v := Render(data, columns);
    forall j | 0 <= j < 3 ensures v.headers[j] == columns[j] {
      ColumnLabels.LabelWithoutUnderscore(columns[j]);
    }
  }

  /** The confirmation dialog's pending delete: `null`, or the id of the row whose delete
      button was pressed. That id is `row.id as number`, which is `undefined` for a row
      without an id. */
  datatype Pending = NoneSelected | Selected(id: Option<int>)

  /** The `onDelete` callback a handler invokes, if any. */
  datatype DeleteRequest = NoCall | OnDelete(id: Option<int>)

  /** The component's own state: `deleteId`. */
  class DataTableState {
    var deleteId: Pending

    constructor ()
      ensures deleteId == NoneSelected
    {
      deleteId := NoneSelected;
    }

    /** `open={deleteId !== null}`: the dialog is open exactly while a delete is pending,
        even one for a row without an id. */
    predicate DialogOpen()
      reads this
      ensures DialogOpen() <==> deleteId != NoneSelected
    {
      deleteId.Selected?
    }

    /** `confirmDelete`: records the pending id and calls nothing. */
    method ConfirmDelete(id: Option<int>)
      modifies this
      ensures deleteId == Selected(id) && DialogOpen()
    {
      deleteId := Selected(id);
    }

    /** `handleDelete`: with a pending id, calls `onDelete` once with it and clears it;
        with none, does nothing. */
    method HandleDelete() returns (request: DeleteRequest)
      modifies this
      ensures old(deleteId).Selected? ==> request == OnDelete(old(deleteId).id)
      ensures old(deleteId).NoneSelected? ==> request == NoCall
      ensures deleteId == NoneSelected && !DialogOpen()
    {
      request := NoCall;
      if deleteId.Selected? {
        request := OnDelete(deleteId.id);
        deleteId := NoneSelected;
      }
    }

    /** `cancelDelete`: clears the pending id; it has no way to call `onDelete`. */
    method CancelDelete()
      modifies this
      ensures deleteId == NoneSelected && !DialogOpen()
    {
      deleteId := NoneSelected;
    }
  }

  /** Confirming a row's delete and then pressing Delete asks for exactly that row's id;
      confirming and then cancelling asks for nothing, and a later Delete press is a no-op. */
  method ConfirmThenDeleteOrCancel(row: Record) returns (deleted: DeleteRequest, cancelled: DeleteRequest)
    ensures deleted == OnDelete(row.id)
    ensures cancelled == NoCall
  {
    var table := new DataTableState();
    table.ConfirmDelete(row.id);
    deleted := table.HandleDelete();
    table.ConfirmDelete(row.id);
    table.CancelDelete();
    cancelled := table.HandleDelete();
  }
}
