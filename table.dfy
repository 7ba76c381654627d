/** `loadAllTables` and `loadTableData`: each collection is read from its
    sheet and shown in its table, one row per record and a fixed number of
    cells per row. */
module Table {
  import opened Text
  import opened Values

  /** The four collections the dashboard lists. */
  datatype Collection = Products | Purchases | Sales | Expenses

  /** The `sheetName` argument `loadAllTables` passes. */
  function SheetKey(c: Collection): string
  {
    match c
    case Products => "products"
    case Purchases => "purchases"
    case Sales => "sales"
    case Expenses => "expenses"
  }

  /** The id of the table element the collection is rendered into. */
  function TableId(c: Collection): string
  {
    SheetKey(c) + "Table"
  }

  /** The fixed number of cells shown per record. */
  function Columns(c: Collection): nat
  {
    match c
    case Products => 6
    case Purchases => 7
    case Sales => 8
    case Expenses => 4
  }

  /** The sheet requested from the backend: the key with its first
      character upper-cased. */
  function SheetName(c: Collection): (n: string)
    ensures |n| == |SheetKey(c)| && n[1..] == SheetKey(c)[1..]
    ensures n[0] as int == SheetKey(c)[0] as int - 32
  {
    Capitalize(SheetKey(c))
  }

  /** The four requests are for the sheets "Products", "Purchases",
      "Sales" and "Expenses", read into tables of 6, 7, 8 and 4 columns. */
  lemma SheetsAndColumns()
    ensures SheetName(Products) == "Products" && TableId(Products) == "productsTable" && Columns(Products) == 6
    ensures SheetName(Purchases) == "Purchases" && TableId(Purchases) == "purchasesTable" && Columns(Purchases) == 7
    ensures SheetName(Sales) == "Sales" && TableId(Sales) == "salesTable" && Columns(Sales) == 8
    ensures SheetName(Expenses) == "Expenses" && TableId(Expenses) == "expensesTable" && Columns(Expenses) == 4
  {
    assert SheetName(Products) == ['P'] + "roducts";
    assert SheetName(Purchases) == ['P'] + "urchases";
    assert SheetName(Sales) == ['S'] + "ales";
    assert SheetName(Expenses) == ['E'] + "xpenses";
  }

  /** The text of one cell. A value whose string form contains "GMT" is a
      serialised timestamp and is shown as its date label; any other value
      is assigned to `textContent` as it is. */
  function RenderCell(v: Value, fmt: DateFormatter): (text: string)
    ensures v.Str? ==> text == if Contains(v.s, "GMT") then fmt(v) else v.s
    ensures v.Num? || v.Bool? ==> text == StringForm(v)
    ensures v.Null? || v.Undefined? ==> text == ""
  {
    if !v.Str? then NoMarkerInNumbersOrMissing(v); TextContent(v)
    else if Contains(StringForm(v), "GMT") then fmt(v) else TextContent(v)
  }

  /** A number is shown in its decimal form, never as a date. */
  lemma NumberCellVerbatim(n: int, fmt: DateFormatter)
    ensures RenderCell(Num(n), fmt) == IntToString(n)
  {
    NoMarkerInNumbersOrMissing(Num(n));
  }

  /** A missing field, like a `null` one, gives an empty cell. */
  lemma MissingCellEmpty(v: Value, fmt: DateFormatter)
    requires v.Undefined? || v.Null?
    ensures RenderCell(v, fmt) == ""
  {
    NoMarkerInNumbersOrMissing(v);
  }

  /** A string carrying the marker is shown as a date; any other string is
      shown unchanged. */
  lemma StringCell(s: string, fmt: DateFormatter)
    ensures Contains(s, "GMT") ==> RenderCell(Str(s), fmt) == fmt(Str(s))
    ensures !Contains(s, "GMT") ==> RenderCell(Str(s), fmt) == s
  {
  }

  /** A timestamp as the backend serialises it is shown as a date. */
  lemma TimestampCell(fmt: DateFormatter)
    ensures RenderCell(Str("Mon Jan 01 2024 00:00:00 GMT+0530"), fmt)
         == fmt(Str("Mon Jan 01 2024 00:00:00 GMT+0530"))
  {
    var s := "Mon Jan 01 2024 00:00:00 GMT+0530";
    assert OccursAt(s, "GMT", 25);
  }

  /** The cells of one row: fields `0 .. columns - 1` of the record, in
      order, each rendered as a cell. */
  function RowCells(row: Row, columns: nat, fmt: DateFormatter): (cells: seq<string>)
    ensures |cells| == columns
    ensures forall i :: 0 <= i < columns ==> cells[i] == RenderCell(Field(row, i), fmt)
  {
    if columns == 0 then []
    else RowCells(row, columns - 1, fmt) + [RenderCell(Field(row, columns - 1), fmt)]
  }

  /** Fields past the column count are not shown. */
  lemma ExtraFieldsIgnored(row: Row, extra: Row, columns: nat, fmt: DateFormatter)
    requires columns <= |row|
    ensures RowCells(row + extra, columns, fmt) == RowCells(row, columns, fmt)
  {
    var a, b := RowCells(row + extra, columns, fmt), RowCells(row, columns, fmt);
    forall i | 0 <= i < columns ensures a[i] == b[i] {
      assert Field(row + extra, i) == Field(row, i);
    }
  }

  /** A record shorter than the column count is padded with empty cells. */
  lemma MissingFieldsEmpty(row: Row, columns: nat, fmt: DateFormatter, i: nat)
    requires |row| <= i < columns
    ensures RowCells(row, columns, fmt)[i] == ""
  {
    MissingCellEmpty(Field(row, i), fmt);
  }

  /** The `for (let i = 0; i < columns; i++)` loop building one row. */
  method RenderRow(rowData: Row, columns: nat, fmt: DateFormatter) returns (cells: seq<string>)
    ensures |cells| == columns
    ensures forall i :: 0 <= i < columns ==> cells[i] == RenderCell(Field(rowData, i), fmt)
  {
    cells := [];
    for i := 0 to columns
      invariant |cells| == i
      invariant forall k :: 0 <= k < i ==> cells[k] == RenderCell(Field(rowData, k), fmt)
    {
      var cellData := Field(rowData, i);
      var text: string;
      if !cellData.Str? {
        NoMarkerInNumbersOrMissing(cellData);
      }
      if Contains(StringForm(cellData), "GMT") {
        text := fmt(cellData);
      } else {
        text := TextContent(cellData);
      }
      cells := cells + [text];
    }
  }

  /** The rows shown for the records `records`: one per record, in order. */
  function Rendered(records: seq<Row>, columns: nat, fmt: DateFormatter): (rows: seq<seq<string>>)
    ensures |rows| == |records|
    ensures forall k :: 0 <= k < |records| ==> rows[k] == RowCells(records[k], columns, fmt)
    decreases |records|
  {
    if records == [] then []
    else
      var p := records[..|records| - 1];
      Rendered(p, columns, fmt) + [RowCells(records[|records| - 1], columns, fmt)]
  }

  /** What the table shows after a load: nothing when the reply is missing
      or holds no records (`data && data.length` is false), otherwise the
      rendered records. */
  function Shown(data: Option<seq<Row>>, columns: nat, fmt: DateFormatter): (rows: seq<seq<string>>)
    ensures data.None? ==> rows == []
    ensures data.Some? ==> |rows| == |data.value|
    ensures forall k :: 0 <= k < |rows| ==>
              |rows[k]| == columns && rows[k] == RowCells(data.value[k], columns, fmt)
  {
    match data
    case None => []
    case Some(records) => Rendered(records, columns, fmt)
  }

  /** The `tbody` of one table: the rows of cell texts it shows. */
  class TableBody {
    var rows: seq<seq<string>>

    constructor ()
      ensures rows == []
    {
      rows := [];
    }

    /** `loadTableData` once the reply `data` has arrived: the previous
        rows are discarded, then one row per record is appended. `None`
        stands for a reply that is `undefined` or has no `length`. */
    method Load(data: Option<seq<Row>>, columns: nat, fmt: DateFormatter)
      modifies this
      ensures rows == Shown(data, columns, fmt)
    {
      rows := [];
      if data.Some? && |data.value| > 0 {
        var records := data.value;
        var k := 0;
        while k < |records|
          invariant 0 <= k <= |records|
          invariant rows == Rendered(records[..k], columns, fmt)
        {
          var row := RenderRow(records[k], columns, fmt);
          assert row == RowCells(records[k], columns, fmt);
          assert records[..k + 1][..k] == records[..k] && records[..k + 1][k] == records[k];
          rows := rows + [row];
          k := k + 1;
        }
        assert records[..k] == records;
      }
    }
  }
}
