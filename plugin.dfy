/**
 * PluginTables of googlesheets/plugin.go: the dynamic table map built from
 * the configured sheets, each sheet's first row becoming its columns.  The
 * two API calls (the sheet titles and the data of the valid sheets) are
 * parameters.
 */
module Plugin {
  import opened SheetsApi
  import Utils
  import Projection
  import Service

  /** The key of the static sheet-listing table. */
  const SheetTableName := "googlesheets_sheet"

  // --------------------------------------------------------- valid sheets

  /** The configured sheets that the spreadsheet has, in configuration order. */
  function ValidSheets(config: seq<string>, available: seq<string>): (valid: seq<string>)
    ensures |valid| <= |config|
  {
    if config == [] then []
    else
      ValidSheets(config[..|config| - 1], available)
      + (if config[|config| - 1] in available then [config[|config| - 1]] else [])
  }

  /** A name is valid exactly when it is both configured and available. */
  lemma {:induction false} ValidSheetsMembers(config: seq<string>, available: seq<string>, name: string)
    ensures name in ValidSheets(config, available) <==> name in config && name in available
  {
    if config != [] {
      var init := config[..|config| - 1];
      ValidSheetsMembers(init, available, name);
      assert config == init + [config[|config| - 1]];
    }
  }

  /** Filtering keeps the configured order: valid names appear as a subsequence of config. */
  lemma {:induction false} ValidSheetsOrder(config: seq<string>, available: seq<string>)
    ensures forall n :: 0 <= n <= |config| ==>
      ValidSheets(config[..n], available) <= ValidSheets(config, available)
  {
    if config != [] {
      var init := config[..|config| - 1];
      ValidSheetsOrder(init, available);
      forall n | 0 <= n <= |config|
        ensures ValidSheets(config[..n], available) <= ValidSheets(config, available)
      {
        if n == |config| {
          assert config[..n] == config;
        } else {
          assert config[..n] == init[..n];
        }
      }
    }
  }

  /** The loop of lines 43-48. */
  method FilterValidSheets(config: seq<string>, available: seq<string>) returns (valid: seq<string>)
    ensures valid == ValidSheets(config, available)
  {
    valid := [];
    var k := 0;
    while k < |config|
      invariant 0 <= k <= |config|
      invariant valid == ValidSheets(config[..k], available)
    {
      assert config[..k + 1][..k] == config[..k];
      if config[k] in available {
        valid := valid + [config[k]];
      }
      k := k + 1;
    }
    assert config[..|config|] == config;
  }

  // ------------------------------------------------------------ skip rules

  /** A value range with no rows, an empty first row or an empty A1 cell makes no table. */
  predicate Skipped(vr: ValueRange) {
    |vr.values| == 0 || |vr.values[0]| == 0 || (vr.values[0][0].Text? && vr.values[0][0].s == "")
  }

  /**
   * The table loop does not panic on vr for this configuration: A1 is a
   * string, the range's sheet key can be unquoted, and a range whose key is
   * configured has a first row of strings.
   */
  predicate RangeReadable(vr: ValueRange, config: seq<string>) {
    (|vr.values| > 0 && |vr.values[0]| > 0 ==> vr.values[0][0].Text?)
    && (!Skipped(vr) ==>
          && Service.Unquotable(vr.range)
          && (Service.SheetKey(vr.range) in config ==> AllText(vr.values[0])))
  }

  predicate AllRangesReadable(data: seq<ValueRange>, config: seq<string>) {
    forall k :: 0 <= k < |data| ==> RangeReadable(data[k], config)
  }

  /** data[k] defines the table of the configured sheet `name`. */
  predicate Defines(data: seq<ValueRange>, name: string, k: int) {
    && 0 <= k < |data| && !Skipped(data[k])
    && Service.Unquotable(data[k].range) && Service.SheetKey(data[k].range) == name
  }

  /** One of data[..n] defines the table of `name`. */
  predicate DefinedBefore(data: seq<ValueRange>, name: string, n: int) {
    exists k :: 0 <= k < n && Defines(data, name, k)
  }

  // ---------------------------------------------------------------- tables

  /** Header at position idx: the cell text, or the column letters for a blank cell. */
  function HeaderAt(row: seq<CellValue>, idx: int): (h: string)
    requires AllText(row) && 0 <= idx < |row|
    ensures |h| > 0
    ensures row[idx].s != "" ==> h == row[idx].s
    ensures row[idx].s == "" ==> Utils.AllUpper(h) && Utils.LettersToInt(h) == idx + 1
  {
    if row[idx].s == "" then
      Utils.DecodeEncode(idx + 1);
      Utils.IntToLetters(idx + 1)
    else row[idx].s
  }

  function SheetHeaders(row: seq<CellValue>): (headers: seq<string>)
    requires AllText(row)
    ensures |headers| == |row|
  {
    seq(|row|, idx requires 0 <= idx < |row| && AllText(row) => HeaderAt(row, idx))
  }

  /** A column name: the header, or "?column?" for an empty one. */
  function ColumnName(h: string): (name: string)
    ensures |name| > 0
    ensures h != "" ==> name == h
  {
    if h == "" then "?column?" else h
  }

  function ColumnNames(headers: seq<string>): (names: seq<string>)
    ensures |names| == |headers|
  {
    seq(|headers|, idx requires 0 <= idx < |headers| => ColumnName(headers[idx]))
  }

  /** The table a sheet gets from its first row. */
  function SheetTable(name: string, row: seq<CellValue>): Table
    requires AllText(row)
  {
    Dynamic(name, "Retrieves data from " + name + ".",
            Projection.FieldColumns(ColumnNames(SheetHeaders(row))), name)
  }

  /**
   * Every header is non-empty, so the "?column?" fallback never fires: the
   * columns are named by the headers, blank cells by their column letters,
   * and described by their zero-based position.
   */
  lemma SheetTableColumns(name: string, row: seq<CellValue>)
    requires AllText(row)
    ensures var cols := SheetTable(name, row).columns;
      && |cols| == |row|
      && forall idx :: 0 <= idx < |row| ==>
           cols[idx] == Projection.FieldColumn(HeaderAt(row, idx), idx)
  {
    var headers := SheetHeaders(row);
    assert ColumnNames(headers) == headers;
  }

  /** Lines 84-111: the headers loop, the columns loop and the table. */
  method BuildSheetTable(name: string, row: seq<CellValue>) returns (table: Table)
    requires AllText(row)
    ensures table == SheetTable(name, row)
  {
    var spreadsheetHeaders: seq<string> := [];
    var idx := 0;
    while idx < |row|
      invariant 0 <= idx <= |row|
      invariant spreadsheetHeaders == SheetHeaders(row)[..idx]
    {
      if |row[idx].s| == 0 {
        spreadsheetHeaders := spreadsheetHeaders + [Utils.IntToLetters(idx + 1)];
      } else {
        spreadsheetHeaders := spreadsheetHeaders + [row[idx].s];
      }
      idx := idx + 1;
    }
    assert spreadsheetHeaders == SheetHeaders(row);
    var cols: seq<Column> := [];
    idx := 0;
    while idx < |spreadsheetHeaders|
      invariant 0 <= idx <= |spreadsheetHeaders|
      invariant cols == Projection.FieldColumns(ColumnNames(spreadsheetHeaders))[..idx]
    {
      var j := spreadsheetHeaders[idx];
      if |j| == 0 {
        j := "?column?";
      }
      cols := cols + [Projection.FieldColumn(j, idx)];
      idx := idx + 1;
    }
    table := Dynamic(name, "Retrieves data from " + name + ".", cols, name);
  }

  /** The map after the inner loop for sheetName has seen data[..n]. */
  function AddSheet(tables: map<string, Table>, config: seq<string>, sheetName: string,
                    data: seq<ValueRange>, n: nat): map<string, Table>
    requires sheetName in config && n <= |data| && AllRangesReadable(data, config)
  {
    if n == 0 then tables
    else
      var t := AddSheet(tables, config, sheetName, data, n - 1);
      if Defines(data, sheetName, n - 1)
      then t[sheetName := SheetTable(sheetName, data[n - 1].values[0])]
      else t
  }

  /** The map after the outer loop has seen config[..n]. */
  function BuildTables(config: seq<string>, data: seq<ValueRange>, n: nat): map<string, Table>
    requires n <= |config| && AllRangesReadable(data, config)
  {
    if n == 0 then map[]
    else AddSheet(BuildTables(config, data, n - 1), config, config[n - 1], data, |data|)
  }

  /** The table map PluginTables returns. */
  function Tables(config: seq<string>, available: Fetch<seq<string>>,
                  fetchData: seq<string> -> Fetch<seq<ValueRange>>): map<string, Table>
    requires available.Ok? && fetchData(ValidSheets(config, available.value)).Ok? ==>
      AllRangesReadable(fetchData(ValidSheets(config, available.value)).value, config)
  {
    if available.Err? then map[]
    else
      var data := fetchData(ValidSheets(config, available.value));
      if data.Err? then map[]
      else BuildTables(config, data.value, |config|)[SheetTableName := GooglesheetsSheet]
  }

  // ------------------------------------------------------------ the method

  /** Lines 58-113: one configured sheet against every value range. */
  method AddSheetTables(tables: map<string, Table>, config: seq<string>, sheetName: string,
                        data: seq<ValueRange>) returns (out: map<string, Table>)
    requires sheetName in config && AllRangesReadable(data, config)
    ensures out == AddSheet(tables, config, sheetName, data, |data|)
  {
    out := tables;
    var k := 0;
    while k < |data|
      invariant 0 <= k <= |data|
      invariant out == AddSheet(tables, config, sheetName, data, k)
    {
      var vr := data[k];
      if |vr.values| == 0 || |vr.values[0]| == 0 || |vr.values[0][0].s| == 0 {
        k := k + 1;
        continue;
      }
      var str := Service.BangPrefix(vr.range);
      if |str| > 0 && str[0] == '\'' {
        str := str[1..|str| - 1];
      }
      assert str == Service.SheetKey(vr.range);
      if sheetName == str {
        var table := BuildSheetTable(sheetName, vr.values[0]);
        out := out[sheetName := table];
      }
      k := k + 1;
    }
  }

  /**
   * PluginTables: `getSpreadsheets` is `available`, `getSpreadsheetData` on
   * the valid sheets is `fetchData`.  A failure of either call yields the
   * empty map; otherwise every configured sheet with a defining value range
   * gets a table, and the static sheet table is added last.
   */
  method PluginTables(config: seq<string>, available: Fetch<seq<string>>,
                      fetchData: seq<string> -> Fetch<seq<ValueRange>>)
    returns (tables: map<string, Table>)
    requires available.Ok? && fetchData(ValidSheets(config, available.value)).Ok? ==>
      AllRangesReadable(fetchData(ValidSheets(config, available.value)).value, config)
    ensures tables == Tables(config, available, fetchData)
  {
    tables := map[];
    if available.Err? {
      return tables;
    }
    var validSheets := FilterValidSheets(config, available.value);
    var spreadsheetData := fetchData(validSheets);
    if spreadsheetData.Err? {
      return tables;
    }
    var data := spreadsheetData.value;
    var n := 0;
    while n < |config|
      invariant 0 <= n <= |config|
      invariant tables == BuildTables(config, data, n)
    {
      tables := AddSheetTables(tables, config, config[n], data);
      n := n + 1;
    }
    tables := tables[SheetTableName := GooglesheetsSheet];
  }

  // ---------------------------------------------------------------- lemmas

  /** The inner loop leaves every other key of the map alone. */
  lemma {:induction false} AddSheetOthers(tables: map<string, Table>, config: seq<string>,
                                          sheetName: string, data: seq<ValueRange>, n: nat, key: string)
    requires sheetName in config && n <= |data| && AllRangesReadable(data, config)
    requires key != sheetName
    ensures var t := AddSheet(tables, config, sheetName, data, n);
      (key in t <==> key in tables) && (key in tables ==> t[key] == tables[key])
  {
    if n > 0 {
      AddSheetOthers(tables, config, sheetName, data, n - 1, key);
    }
  }

  /** The inner loop writes sheetName exactly when some range defines it. */
  lemma {:induction false} AddSheetWrites(tables: map<string, Table>, config: seq<string>,
                                          sheetName: string, data: seq<ValueRange>, n: nat)
    requires sheetName in config && n <= |data| && AllRangesReadable(data, config)
    ensures sheetName in AddSheet(tables, config, sheetName, data, n) <==>
      sheetName in tables || DefinedBefore(data, sheetName, n)
  {
    if n > 0 {
      AddSheetWrites(tables, config, sheetName, data, n - 1);
      if !Defines(data, sheetName, n - 1) && DefinedBefore(data, sheetName, n) {
        var k :| 0 <= k < n && Defines(data, sheetName, k);
        assert k < n - 1;
      }
    }
  }

  /** The inner loop leaves the last defining range's table under sheetName. */
  lemma {:induction false} AddSheetLastWins(tables: map<string, Table>, config: seq<string>,
                                            sheetName: string, data: seq<ValueRange>, n: nat, k: int)
    requires sheetName in config && n <= |data| && AllRangesReadable(data, config)
    requires 0 <= k < n && Defines(data, sheetName, k)
    requires forall j :: k < j < n ==> !Defines(data, sheetName, j)
    ensures var t := AddSheet(tables, config, sheetName, data, n);
      sheetName in t && t[sheetName] == SheetTable(sheetName, data[k].values[0])
  {
    if k < n - 1 {
      AddSheetLastWins(tables, config, sheetName, data, n - 1, k);
    }
  }

  /**
   * After the outer loop has seen config[..n], a name has a table exactly
   * when it is among those configured sheets and some value range defines it.
   */
  lemma {:induction false} BuildTablesKeys(config: seq<string>, data: seq<ValueRange>, n: nat, name: string)
    requires n <= |config| && AllRangesReadable(data, config)
    ensures name in BuildTables(config, data, n) <==>
      name in config[..n] && DefinedBefore(data, name, |data|)
  {
    if n > 0 {
      BuildTablesKeys(config, data, n - 1, name);
      var prev := BuildTables(config, data, n - 1);
      assert config[..n] == config[..n - 1] + [config[n - 1]];
      if name == config[n - 1] {
        AddSheetWrites(prev, config, name, data, |data|);
      } else {
        AddSheetOthers(prev, config, config[n - 1], data, |data|, name);
      }
    }
  }

  /**
   * A sheet's table comes from the last value range that defines it,
   * however often the sheet is configured.
   */
  lemma {:induction false} BuildTablesLastWins(config: seq<string>, data: seq<ValueRange>, n: nat,
                                               name: string, k: int)
    requires n <= |config| && AllRangesReadable(data, config)
    requires name in config[..n]
    requires Defines(data, name, k) && forall j :: k < j < |data| ==> !Defines(data, name, j)
    ensures name in BuildTables(config, data, n)
    ensures BuildTables(config, data, n)[name] == SheetTable(name, data[k].values[0])
  {
    var prev := BuildTables(config, data, n - 1);
    if config[n - 1] == name {
      AddSheetLastWins(prev, config, name, data, |data|, k);
    } else {
      assert config[..n] == config[..n - 1] + [config[n - 1]];
      BuildTablesLastWins(config, data, n - 1, name, k);
      AddSheetOthers(prev, config, config[n - 1], data, |data|, name);
    }
  }

  /**
   * The outcome of PluginTables: empty when either call fails; otherwise
   * the sheet-listing table plus one table per configured, defined sheet,
   * built from the last defining range.
   */
  lemma TablesOutcome(config: seq<string>, available: Fetch<seq<string>>,
                      fetchData: seq<string> -> Fetch<seq<ValueRange>>, name: string)
    requires available.Ok? && fetchData(ValidSheets(config, available.value)).Ok? ==>
      AllRangesReadable(fetchData(ValidSheets(config, available.value)).value, config)
    ensures available.Err? ==> Tables(config, available, fetchData) == map[]
    ensures available.Ok? && fetchData(ValidSheets(config, available.value)).Err? ==>
      Tables(config, available, fetchData) == map[]
    ensures available.Ok? && fetchData(ValidSheets(config, available.value)).Ok? ==>
      var data := fetchData(ValidSheets(config, available.value)).value;
      var t := Tables(config, available, fetchData);
      && t[SheetTableName] == GooglesheetsSheet
      && (name != SheetTableName ==>
            (name in t <==> name in config && DefinedBefore(data, name, |data|)))
  {
    if available.Ok? && fetchData(ValidSheets(config, available.value)).Ok? {
      var data := fetchData(ValidSheets(config, available.value)).value;
      BuildTablesKeys(config, data, |config|, name);
      assert config[..|config|] == config;
    }
  }
}
