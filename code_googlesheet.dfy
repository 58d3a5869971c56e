/**
 * googlesheets/table_code_googlesheet.go: the table of one sheet, named by
 * its first row, and the row lister that streams every later row as a
 * header-keyed record until the host's row budget runs out.  Fetching the
 * sheet is the parameter `fetch` (getSpreadsheetData on a range).
 */
module CodeGooglesheet {
  import opened SheetsApi
  import Projection

  /**
   * tableSpreadsheets: the table of `sheetName` built from its first row.
   * A fetch error panics; a sheet without rows gives no table.  The columns
   * are the header strings as they are, an empty one included.
   */
  method TableSpreadsheets(sheetName: string, fetch: string -> Fetch<ValueRange>)
    returns (table: Option<Table>)
    requires fetch(sheetName + "!1:1").Ok?
    requires var values := fetch(sheetName + "!1:1").value.values;
      |values| > 0 ==> AllText(values[0])
    ensures var values := fetch(sheetName + "!1:1").value.values;
      && (|values| == 0 ==> table == None)
      && (|values| > 0 ==>
            && table.Some? && table.value.Dynamic?
            && table.value.name == sheetName && table.value.sheet == sheetName
            && table.value.description == "Retrieves data from " + sheetName + "."
            && |table.value.columns| == |values[0]|
            && forall idx :: 0 <= idx < |values[0]| ==>
                 table.value.columns[idx] == Projection.FieldColumn(values[0][idx].s, idx))
  {
    var spreadsheetData := fetch(sheetName + "!1:1");
    var values := spreadsheetData.value.values;
    if |values| == 0 {
      return None;
    }
    var spreadsheetHeaders := Projection.HeaderTexts(values[0]);
    var cols := Projection.BuildColumns(spreadsheetHeaders);
    return Some(Dynamic(sheetName, "Retrieves data from " + sheetName + ".", cols, sheetName));
  }

  /**
   * The rows a listing can read: a first row of strings, and data rows of
   * strings no wider than it among those the row budget lets through; rows
   * past the budget are never read.
   */
  predicate Listable(values: seq<seq<CellValue>>, limit: Limit) {
    |values| > 0 ==>
      && AllText(values[0])
      && Projection.RowsFit(Texts(values[0]), values[1..][..Projection.Streamed(limit, |values| - 1)])
  }

  /** What the lister streams: one record per data row, cut off by the row budget. */
  function Listed(values: seq<seq<CellValue>>, limit: Limit): (out: seq<map<string, string>>)
    requires Listable(values, limit)
    ensures |values| == 0 ==> out == []
    ensures |values| > 0 ==> |out| == Projection.Streamed(limit, |values| - 1)
  {
    if |values| == 0 then []
    else
      var rows := values[1..];
      Projection.Records(Texts(values[0]), rows[..Projection.Streamed(limit, |rows|)])
  }

  /**
   * The listed record for data row k (sheet row k + 2) maps the header of
   * column idx to that row's cell, unless a later column of the same row
   * has the same header.
   */
  lemma ListedCell(values: seq<seq<CellValue>>, limit: Limit, k: int, idx: int)
    requires Listable(values, limit) && |values| > 0
    requires 0 <= k < |Listed(values, limit)|
    requires 0 <= idx < |values[k + 1]|
    requires forall j :: idx < j < |values[k + 1]| ==> values[0][j].s != values[0][idx].s
    ensures values[0][idx].s in Listed(values, limit)[k]
    ensures Listed(values, limit)[k][values[0][idx].s] == values[k + 1][idx].s
  {
    var headers := Texts(values[0]);
    assert Projection.RowFits(headers, values[1..][..Projection.Streamed(limit, |values| - 1)][k]);
    Projection.RecordLastWins(headers, Texts(values[k + 1]), idx);
  }

  /**
   * Under LIMIT 1 the lister returns after the first data row, so a later
   * row wider than the headers is never read: rows h / a / x,y stream {h: a}.
   */
  lemma BudgetSkipsWideRow()
    ensures var values := [[Text("h")], [Text("a")], [Text("x"), Text("y")]];
      && !Projection.RowsFit(Texts(values[0]), values[1..])
      && Listable(values, Limit(1))
      && Listed(values, Limit(1)) == [map["h" := "a"]]
  {
    var values := [[Text("h")], [Text("a")], [Text("x"), Text("y")]];
    assert !Projection.RowFits(["h"], values[1..][1]);
    assert values[1..][..1] == [[Text("a")]];
    assert Texts([Text("a")]) == ["a"] && Texts([Text("h")]) == ["h"];
    assert Projection.Record(["h"], ["a"]) == map["h" := "a"] by {
      assert ["a"][..0] == [];
    }
  }

  /**
   * listSpreadsheetWithPath's hydrate function: fetch the sheet, take the
   * first row as headers, shift it out of the row array in place, and
   * stream one record per remaining row, returning right after the emit
   * that leaves no rows remaining.  A fetch error is returned as is.
   */
  method ListSpreadsheetWithPath(sheetName: string, fetch: string -> Fetch<ValueRange>, limit: Limit)
    returns (out: seq<map<string, string>>, err: Option<string>)
    requires fetch(sheetName).Ok? ==> Listable(fetch(sheetName).value.values, limit)
    ensures fetch(sheetName).Err? ==> out == [] && err == Some(fetch(sheetName).message)
    ensures fetch(sheetName).Ok? ==> err == None && out == Listed(fetch(sheetName).value.values, limit)
  {
    out := [];
    var spreadsheetData := fetch(sheetName);
    if spreadsheetData.Err? {
      return [], Some(spreadsheetData.message);
    }
    err := None;
    var values := spreadsheetData.value.values;
    if |values| == 0 {
      return;
    }
    var spreadsheetHeaders := Projection.HeaderTexts(values[0]);
    var data := new seq<CellValue>[|values|](k requires 0 <= k < |values| => values[k]);
    assert data[..] == values;
    var n := Projection.ShiftOutHeader(data);
    assert data[..n] == values[1..];
    out := Projection.StreamBudgeted(spreadsheetHeaders, data, n, limit);
  }
}
