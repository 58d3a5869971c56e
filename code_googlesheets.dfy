/**
 * googlesheets/table_code_googlesheets.go: the sheet row lister in which a
 * blank header cell becomes the column "?column?".  Fetching the sheet is
 * the parameter `fetch` (getSpreadsheetData on the sheet name).
 */
module CodeGooglesheets {
  import opened SheetsApi
  import Projection

  const BlankHeader := "?column?"

  /** The header of one first-row cell. */
  function HeaderOf(cell: string): (h: string)
    ensures |h| > 0
    ensures cell == "" ==> h == BlankHeader
    ensures cell != "" ==> h == cell
  {
    if cell == "" then BlankHeader else cell
  }

  function Headers(row: seq<CellValue>): (headers: seq<string>)
    requires AllText(row)
    ensures |headers| == |row|
  {
    seq(|row|, idx requires 0 <= idx < |row| && AllText(row) => HeaderOf(row[idx].s))
  }

  /** The header loop of lines 23-31. */
  method ReadHeaders(row: seq<CellValue>) returns (headers: seq<string>)
    requires AllText(row)
    ensures headers == Headers(row)
  {
    headers := [];
    var idx := 0;
    while idx < |row|
      invariant 0 <= idx <= |row|
      invariant headers == Headers(row)[..idx]
    {
      var header := row[idx].s;
      if |header| == 0 {
        header := BlankHeader;
      }
      headers := headers + [header];
      idx := idx + 1;
    }
  }

  /**
   * The rows a listing can read: a first row of strings, and data rows of
   * strings no wider than it among those the row budget lets through; rows
   * past the budget are never read.
   */
  predicate Listable(values: seq<seq<CellValue>>, limit: Limit) {
    |values| > 0 ==>
      && AllText(values[0])
      && Projection.RowsFit(Headers(values[0]), values[1..][..Projection.Streamed(limit, |values| - 1)])
  }

  /** What the lister streams: one record per data row, cut off by the row budget. */
  function Listed(values: seq<seq<CellValue>>, limit: Limit): (out: seq<map<string, string>>)
    requires Listable(values, limit)
    ensures |values| == 0 ==> out == []
    ensures |values| > 0 ==> |out| == Projection.Streamed(limit, |values| - 1)
  {
    if |values| == 0 then []
    else
      var rows := values[1..];
      Projection.Records(Headers(values[0]), rows[..Projection.Streamed(limit, |rows|)])
  }

  /**
   * Blank header cells all share the key "?column?": a listed record holds,
   * under that key, the cell of the rightmost blank-headed column the row
   * reaches (provided no header is literally "?column?" further right).
   */
  lemma RightmostBlankWins(values: seq<seq<CellValue>>, limit: Limit, k: int, idx: int)
    requires Listable(values, limit) && |values| > 0
    requires 0 <= k < |Listed(values, limit)|
    requires 0 <= idx < |values[k + 1]| && values[0][idx].s == ""
    requires forall j :: idx < j < |values[k + 1]| ==> values[0][j].s != "" && values[0][j].s != BlankHeader
    ensures BlankHeader in Listed(values, limit)[k]
    ensures Listed(values, limit)[k][BlankHeader] == values[k + 1][idx].s
  {
    var headers := Headers(values[0]);
    assert Projection.RowFits(headers, values[1..][..Projection.Streamed(limit, |values| - 1)][k]);
    Projection.RecordLastWins(headers, Texts(values[k + 1]), idx);
  }

  /** A record never has an empty key: every key is a non-blank header or "?column?". */
  lemma ListedKeysNonEmpty(values: seq<seq<CellValue>>, limit: Limit, k: int)
    requires Listable(values, limit) && |values| > 0
    requires 0 <= k < |Listed(values, limit)|
    ensures "" !in Listed(values, limit)[k]
    ensures forall key :: key in Listed(values, limit)[k] ==>
      key == BlankHeader || exists idx :: 0 <= idx < |values[0]| && values[0][idx].s == key
  {
    var headers := Headers(values[0]);
    assert Projection.RowFits(headers, values[1..][..Projection.Streamed(limit, |values| - 1)][k]);
    Projection.RecordKeys(headers, Texts(values[k + 1]));
  }

  /**
   * listSpreadsheetWithPath's hydrate function: as in the googlesheet
   * variant, but blank headers are read as "?column?".
   */
  method ListSpreadsheetWithPath(sheetName: string, fetch: string -> Fetch<ValueRange>, limit: Limit)
    returns (out: seq<map<string, string>>, err: Option<string>)
    requires fetch(sheetName).Ok? ==> Listable(fetch(sheetName).value.values, limit)
    ensures fetch(sheetName).Err? ==> out == [] && err == Some(fetch(sheetName).message)
    ensures fetch(sheetName).Ok? ==> err == None && out == Listed(fetch(sheetName).value.values, limit)
  {
    out := [];
    var spreadsheetData := fetch(sheetName);
    if spreadsheetData.Err? {
      return [], Some(spreadsheetData.message);
    }
    err := None;
    var values := spreadsheetData.value.values;
    if |values| == 0 {
      return;
    }
    var spreadsheetHeaders := ReadHeaders(values[0]);
    var data := new seq<CellValue>[|values|](k requires 0 <= k < |values| => values[k]);
    assert data[..] == values;
    var n := Projection.ShiftOutHeader(data);
    assert data[..n] == values[1..];
    out := Projection.StreamBudgeted(spreadsheetHeaders, data, n, limit);
  }
}
