/**
 * The values this plugin receives from the Google Sheets API client and the
 * host SDK, reduced to the fields the projection logic reads.  Network calls
 * are not modelled: their results arrive here as plain values.
 */
module SheetsApi {

  datatype Option<+T> = None | Some(value: T)

  /** Outcome of a call into the API client: a value, or the error it returned. */
  datatype Fetch<+T> = Ok(value: T) | Err(message: string)

  /**
   * A value of a ValueRange grid.  The client hands these out as Go
   * `interface{}`; the plugin asserts each one to `string`, which panics on
   * anything else, so the model keeps the non-string case apart.
   */
  datatype CellValue = Text(s: string) | NonText

  predicate AllText(row: seq<CellValue>) {
    forall k :: 0 <= k < |row| ==> row[k].Text?
  }

  /** The strings of a row all of whose values are strings. */
  function Texts(row: seq<CellValue>): (r: seq<string>)
    requires AllText(row)
    ensures |r| == |row|
    ensures forall k :: 0 <= k < |row| ==> r[k] == row[k].s
  {
    seq(|row|, k requires 0 <= k < |row| => row[k].s)
  }

  /** A ValueRange: the A1 range the API reports and the rows of values. */
  datatype ValueRange = ValueRange(range: string, values: seq<seq<CellValue>>)

  /** The user-entered part of a cell; only its formula is read. */
  datatype ExtendedValue = ExtendedValue(formulaValue: Option<string>)

  /** One cell of grid data. */
  datatype CellData = CellData(
    formattedValue: string,
    userEnteredValue: Option<ExtendedValue>,
    note: string,
    hyperlink: string)

  /** A merge rectangle: 0-based, start inclusive, end exclusive. */
  datatype GridRange = GridRange(startRow: int, endRow: int, startColumn: int, endColumn: int)

  /** A block of grid data placed at (startRow, startColumn) of its sheet. */
  datatype GridData = GridData(startRow: nat, startColumn: nat, rowData: seq<seq<CellData>>)

  /** A sheet as returned with grid data: its title, data blocks and merges. */
  datatype Sheet = Sheet(title: string, data: seq<GridData>, merges: seq<GridRange>)

  /** A table column: every column of these tables is a string column. */
  datatype Column = Column(name: string, description: string)

  /**
   * A table definition handed to the host.  `Dynamic` lists a sheet by name
   * (listSpreadsheetWithPath), `Csv` lists the rows captured when it was
   * built, and `GooglesheetsSheet` is the static sheet-listing table.
   */
  datatype Table =
    | Dynamic(name: string, description: string, columns: seq<Column>, sheet: string)
    | Csv(name: string, description: string, columns: seq<Column>)
    | GooglesheetsSheet

  /**
   * The host's row budget.  With a query limit of n, RowsRemaining after
   * `streamed` rows is n - streamed; without a limit it never reaches 0.
   * Cancellation by the host is not modelled.
   */
  datatype Limit = NoLimit | Limit(n: nat)

  /** RowsRemaining(ctx) == 0 once `streamed` rows have been streamed. */
  predicate NoRowsRemaining(limit: Limit, streamed: nat) {
    limit.Limit? && limit.n - streamed == 0
  }
}
