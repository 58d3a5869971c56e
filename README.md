# Grid-to-record projection of the Steampipe Google Sheets plugin, in Dafny

This project models the part of the Steampipe Google Sheets plugin that turns
what the Sheets API returns into tables and rows. It covers these pieces:

- the bijective base-26 column letters (`intToLetters`);
- merged-cell resolution (`findMergeCells`);
- the `googlesheets_cell` table: range planning from the query quals, the
  per-cell record (`getCellInfo`), and the emit/suppress rule of
  `listGooglesheetCells`;
- the dynamic table map of `PluginTables`: the valid-sheet filter, skip rules,
  quote stripping, blank-header naming, columns and the table map;
- the post-fetch part of `getSpreadsheetHeaders` and `getSpreadsheets`;
- the three historical `listSpreadsheetWithPath` row projectors, plus
  `tableSpreadsheets`, `tableCSV` and `listCSVWithPath`.

Every API call is a parameter of the model: a function from the requested
range(s) to `Ok(response)` or `Err(message)`. The host's `StreamListItem`
becomes an output sequence. `RowsRemaining` becomes a `Limit` countdown.
A Go panic becomes a precondition. The panics covered are:

- a `.(string)` assertion on a non-string value;
- a header index past the header row;
- `str[1:len(str)-1]` on the one-character key `'`;
- a nil `UserEnteredValue`;
- an anchor outside the grid;
- a fetch error that the code `panic`s on.

Modules, one per Go file plus two shared ones:

| file | module | models |
|---|---|---|
| sheets_api.dfy | SheetsApi | the API and SDK values the core reads |
| decimal.dfy | Decimal | `%d` formatting, with its parser |
| utils.dfy | Utils | `intToLetters` and a spec-level decoder |
| cell.dfy | Cell | table_googlesheets_cell.go |
| service.dfy | Service | service.go after its API calls |
| plugin.dfy | Plugin | plugin.go `PluginTables` |
| projection.dfy | Projection | the record, header shift, budget and column pieces the projectors share |
| code_googlesheet.dfy | CodeGooglesheet | table_code_googlesheet.go |
| code_googlesheets.dfy | CodeGooglesheets | table_code_googlesheets.go |
| code_csv.dfy | CodeCsv | table_code_csv.go, as a class whose array the lister shifts in place |
| googlesheets_csv.dfy | GooglesheetsCsv | table_googlesheets_csv.go |

Most loops of the Go code are Dafny `method`s with a `while` loop, each
proved equal to a specification function; the properties are proved about
those functions as lemmas. The exceptions:

- The `for` over the merge ranges in `findMergeCells` returns at the first
  match. It is the recursive function `Cell.FindMergeCells`.
- `Service.SheetRanges`, `Service.GetSpreadsheets`,
  `CodeGooglesheet.TableSpreadsheets` and `CodeCsv.TableCsv` state their
  results element by element rather than as equality with one function.
- `Projection.ShiftOutHeader` changes an array in place. Its contract states
  the array's new contents in terms of the old ones.

Behaviour of the code worth knowing:

- **Merge anchors.** A block-shaped merge (neither one column nor one row)
  claims its own anchor cell, which then resolves to itself
  (`Cell.OtherShapeRule`). A vertical or horizontal merge leaves its anchor
  unmerged.
- **Headers.** Headers are taken from the first row as they are. The schema
  is not widened for data rows wider than the header row: reading such a row
  panics, so the model requires every row that a lister reads to fit. Rows
  past the row budget are never read and may be of any width
  (`CodeGooglesheet.BudgetSkipsWideRow`).
  - `PluginTables` names a blank header by its column letters.
  - The `table_code_googlesheets.go` lister names every blank header
    `?column?`, so those columns collide in the record.
  - The other projectors keep the header as it is, even when it is empty.
  - Repeated headers collide: the later column wins.
- **Range planning.** It knows only three forms: `sheet!ranges`,
  `sheet!<col><row>` and the sheet name alone. Without a sheet name no range
  is set.
- **Fetch failures in `PluginTables`.** A failed fetch is not surfaced: the
  method returns the empty map. The `googlesheets_sheet` table is added only on
  the success path.
- **Row budget.** Only the two sheet listers of `table_code_googlesheet.go` and
  `table_code_googlesheets.go` check it. The CSV lister and the merge-aware
  lister stream every row.
- **Cell table anchors.** A merged cell is always emitted, with its anchor's
  data. That data is read at `RowData[anchorRow-1]` of the block being scanned,
  using sheet coordinates without subtracting the block's start.
- **Sheet names holding '!'.** The key of a value range is cut at its first
  '!', so a quoted name such as `'Sheet!1'` reads as `Shee`
  (`Service.SheetKeyCutAtBang`): such a sheet gets no entry under its own
  name in the headers map or the table map.
- **Headers map.** The merge-aware lister reads a package-level map from sheet
  name to headers; here it is a parameter.

## Model

| member | source | states |
|---|---|---|
| Utils.IntToLetters | googlesheets/utils.go:67-77 | for every index n >= 1 the result is non-empty and uses only 'A'..'Z' |
| Utils.IntToLettersExamples | googlesheets/utils.go:65-66 | 1→A, 2→B, 26→Z, 27→AA, 52→AZ, 53→BA, 55→BC, 702→ZZ, 703→AAA |
| Utils.LettersLength | googlesheets/utils.go:67-77 | column n has a name of at most k letters exactly when n <= 26 + 26^2 + ... + 26^k |
| Utils.DecodeEncode | googlesheets/utils.go:67-77 | decoding the letters as bijective base 26 gives back n, for every n >= 1 |
| Utils.EncodeDecode | googlesheets/utils.go:67-77 | every non-empty capital-letter string is the encoding of its decoded value |
| Utils.IntToLettersInjective | googlesheets/utils.go:67-77 | distinct column indexes get distinct letters |
| Decimal.NatToString | googlesheets/table_googlesheets_cell.go:217 | `%d` of a row number is a non-empty digit string with no leading zero |
| Decimal.ParseNatToString | googlesheets/table_googlesheets_cell.go:217 | the decimal text parses back to the number |
| Decimal.NatToStringInjective | googlesheets/table_googlesheets_cell.go:217 | distinct row numbers print differently |
| Decimal.IntToStringParses | googlesheets/table_googlesheets_cell.go:139 | `%d` of the row qual parses back to its value, or to its magnitude after the '-' |
| Decimal.IntToString | googlesheets/table_googlesheets_cell.go:139 | `%d` of the row qual: digits, preceded by '-' when negative |
| Cell.FindMergeCells | googlesheets/table_googlesheets_cell.go:180-206 | on a match the returned cell equals the queried one and the anchor lies at or above and left of it |
| Cell.FindMergeCellsFirstMatch | googlesheets/table_googlesheets_cell.go:180-206 | not merged iff no range claims the cell; otherwise the anchor is (startRow+1, startColumn+1) of the first claiming range in list order |
| Cell.NoMergesNotMerged | googlesheets/table_googlesheets_cell.go:180-206 | with no merge ranges every cell is unmerged |
| Cell.VerticalRule | googlesheets/table_googlesheets_cell.go:185-190 | a vertical merge claims exactly rows startRow+2..endRow of column startColumn+1; its anchor is unmerged |
| Cell.HorizontalRule | googlesheets/table_googlesheets_cell.go:191-196 | a horizontal merge claims exactly columns startColumn+2..endColumn of row startRow+1; its anchor is unmerged |
| Cell.OtherShapeRule | googlesheets/table_googlesheets_cell.go:197-202 | any other shape claims its whole rectangle, and a non-empty one resolves its anchor to itself |
| Cell.VerticalExample | googlesheets/table_googlesheets_cell.go:185-190 | rows 0-2 of column 0 merged: (1,1) unmerged, (2,1) and (3,1) anchored at (1,1), (4,1) unmerged |
| Cell.GetCellInfo | googlesheets/table_googlesheets_cell.go:208-225 | the column name decodes to colCount+1 and the row name is rowCount+1; the address is column name then `%d` of the row; the formula is "" without a formula value; value, note, hyperlink and sheet are copied |
| Cell.CellAddressDecodes | googlesheets/table_googlesheets_cell.go:215-217 | the cell address reads back as the 1-based (column, row) of the cell |
| Cell.PlanRanges | googlesheets/table_googlesheets_cell.go:133-144 | a range is set iff a sheet name is given, and it starts with that sheet name |
| Cell.RangesTakePrecedence | googlesheets/table_googlesheets_cell.go:135-137 | sheet+ranges gives "sheet!ranges" whatever the row and column quals are |
| Cell.NoSheetNoRange | googlesheets/table_googlesheets_cell.go:134 | without sheet_name no range is set, whatever else is given |
| Cell.SheetOnlyPlansSheet | googlesheets/table_googlesheets_cell.go:141-143 | a sheet without ranges and without both row and column asks for the sheet name alone |
| Cell.CellQualsPlanCellAddress | googlesheets/table_googlesheets_cell.go:138-140 | quals naming a cell's column letters and row number plan "sheet!" followed by that cell's address |
| Cell.EmitCellRule | googlesheets/table_googlesheets_cell.go:158-169 | a merged cell is emitted with its anchor's value; an unmerged one is emitted iff it has a formula or a non-empty formatted value; coordinates are offset by the block's start |
| Cell.StreamRow | googlesheets/table_googlesheets_cell.go:156-170 | the column loop emits exactly the row's cells by the emission rule, in column order |
| Cell.StreamCell | googlesheets/table_googlesheets_cell.go:157-169 | one pass of the column loop streams the merge anchor's record, the cell's own record when it has a formula or a formatted value, or nothing, as the emission rule says |
| Cell.StreamBlock | googlesheets/table_googlesheets_cell.go:154-171 | the row loop emits the block's rows in order |
| Cell.StreamSheet | googlesheets/table_googlesheets_cell.go:152-173 | the block loop emits the sheet's blocks in order |
| Cell.StreamCells | googlesheets/table_googlesheets_cell.go:150-175 | the sheet loop emits every sheet in response order, row-major within each block |
| Cell.ListGooglesheetCells | googlesheets/table_googlesheets_cell.go:130-178 | a fetch error is returned with nothing streamed; otherwise the planned range's cells are streamed |
| Service.BangPrefix | googlesheets/service.go:56 | the text before the first '!' holds no '!' and is followed by '!' unless it is the whole range |
| Service.BangPrefixIsPrefix | googlesheets/service.go:56 | that text is a prefix of the range |
| Service.SheetKeyUnquotes | googlesheets/service.go:56-62 | the key is the prefix, with its first and last characters dropped when it starts with a quote; it holds no '!' and is shorter than the range unless the range is a bare name |
| Service.SheetKeyCutAtBang | googlesheets/service.go:56-62 | a quoted sheet name holding a '!' is cut at it, so its key differs from the name |
| Service.SheetKeyOfQuotedRange | googlesheets/service.go:56-62 | a quoted sheet name such as "'Sheet 1'" before the '!' comes back without its quotes |
| Service.SheetKeyOfHeaderRange | googlesheets/service.go:38-62 | a sheet name without '!' and not starting with a quote is the key of its own "name!1:1" range |
| Service.SheetRanges | googlesheets/service.go:38-41 | exactly one "<name>!1:1" per sheet name, in input order |
| Service.HeadersMapKeys | googlesheets/service.go:51-67 | a sheet name is a key iff some value range with rows has that key |
| Service.HeadersMapLastWins | googlesheets/service.go:64-67 | the entry for a key is the first-row strings of the last value range with rows carrying that key |
| Service.GetSpreadsheetHeaders | googlesheets/service.go:37-70 | the batch error is returned as is; otherwise the result is the map built from the response in order |
| Service.GetSpreadsheets | googlesheets/service.go:116-127 | one title per sheet, in response order; an error is returned as is |
| Plugin.ValidSheetsMembers | googlesheets/plugin.go:43-48 | a name is valid iff it is configured and available |
| Plugin.ValidSheetsOrder | googlesheets/plugin.go:43-48 | the valid names of each configuration prefix come first, so configuration order is kept |
| Plugin.FilterValidSheets | googlesheets/plugin.go:43-48 | the filter loop computes the valid sheets |
| Plugin.HeaderAt | googlesheets/plugin.go:84-91 | a header is never empty: a non-blank cell's text, or for a blank cell letters that decode to idx+1 |
| Plugin.SheetTableColumns | googlesheets/plugin.go:84-101 | one column per first-row cell, named by its header and described "Field idx."; the "?column?" branch never applies |
| Plugin.BuildSheetTable | googlesheets/plugin.go:84-111 | the header and column loops build the sheet's table |
| Plugin.AddSheetTables | googlesheets/plugin.go:58-113 | the range loop for one configured sheet applies the skip rules and key match to every range in order |
| Plugin.AddSheetOthers | googlesheets/plugin.go:58-113 | the loop for one sheet leaves every other key unchanged |
| Plugin.AddSheetWrites | googlesheets/plugin.go:59-104 | the loop for one sheet writes it iff some range that is not skipped (rows, first row, A1 present) has that key |
| Plugin.AddSheetLastWins | googlesheets/plugin.go:83-111 | the table comes from the last defining range |
| Plugin.BuildTablesKeys | googlesheets/plugin.go:57-114 | a name gets a table iff it is configured and some range that is not skipped has it as key |
| Plugin.BuildTablesLastWins | googlesheets/plugin.go:57-114 | a configured sheet's table is built from the last range defining it |
| Plugin.PluginTables | googlesheets/plugin.go:29-120 | the method computes the specified table map |
| Plugin.TablesOutcome | googlesheets/plugin.go:29-120 | either fetch failing gives the empty map; on success "googlesheets_sheet" is present and any other name has a table iff configured and defined |
| Projection.RecordKeys | googlesheets/table_code_googlesheet.go:75-78 | a record's keys are exactly the headers of the row's positions |
| Projection.RecordLastWins | googlesheets/table_code_googlesheet.go:76-78 | a header's value comes from its last position in the row |
| Projection.DistinctHeadersKeepEveryValue | googlesheets/table_code_googlesheet.go:76-78 | with distinct headers every cell of the row is in the record under its header |
| Projection.BuildRecord | googlesheets/table_code_googlesheet.go:75-78 | the cell loop builds the row's record |
| Projection.HeaderTexts | googlesheets/table_code_googlesheet.go:66-68 | the header loop reads the first row's strings, in order |
| Projection.ShiftOutHeader | googlesheets/table_code_googlesheet.go:71 | the slice shrinks by one; the array keeps its length, holds old[k+1] at every k < n-1, and keeps its last row |
| Projection.StreamedIsFirstExhaustion | googlesheets/table_code_googlesheet.go:79-84 | streaming stops at the first emit that leaves no rows remaining; a budget N >= 1 yields min(N, rows) records |
| Projection.StreamBudgeted | googlesheets/table_code_googlesheet.go:74-85 | the budgeted loop streams, in order, the records of the rows within the budget; only those rows are read, so only they must fit the headers |
| Projection.StreamAll | googlesheets/table_code_csv.go:58-64 | the unbudgeted loop streams every row's record, in order |
| Projection.BuildColumns | googlesheets/table_code_googlesheet.go:35-38 | one string column per header, in order, described "Field idx." |
| CodeGooglesheet.TableSpreadsheets | googlesheets/table_code_googlesheet.go:12-49 | no rows gives no table; otherwise the sheet's table has one column per first-row cell, named by it |
| CodeGooglesheet.ListedCell | googlesheets/table_code_googlesheet.go:74-78 | listed record k maps each header to data row k's cell, unless a later column shares that header |
| CodeGooglesheet.BudgetSkipsWideRow | googlesheets/table_code_googlesheet.go:74-84 | rows h / a / x,y under LIMIT 1 are readable although x,y is wider than the headers, and stream {h: a} alone |
| CodeGooglesheet.ListSpreadsheetWithPath | googlesheets/table_code_googlesheet.go:51-89 | a fetch error is returned; no rows streams nothing; otherwise it streams one record per data row, header excluded, in order, cut off by the budget; rows past the budget may be of any shape |
| CodeGooglesheets.HeaderOf | googlesheets/table_code_googlesheets.go:25-29 | a blank header becomes "?column?", any other is kept |
| CodeGooglesheets.ReadHeaders | googlesheets/table_code_googlesheets.go:23-31 | one header per first-row cell, in order |
| CodeGooglesheets.RightmostBlankWins | googlesheets/table_code_googlesheets.go:27-28 | under "?column?" a record holds the cell of the rightmost blank-headed column of the row |
| CodeGooglesheets.ListedKeysNonEmpty | googlesheets/table_code_googlesheets.go:23-41 | no record has an empty key; every key is "?column?" or a first-row string |
| CodeGooglesheets.ListSpreadsheetWithPath | googlesheets/table_code_googlesheets.go:9-52 | as in the googlesheet variant, with "?column?" headers; rows past the budget may be of any shape |
| CodeCsv.TableCsv | googlesheets/table_code_csv.go:14-44 | the table is named by the range, with one column per first-row cell; the lister captures the fetched rows |
| CodeCsv.CsvLister.List | googlesheets/table_code_csv.go:46-68 | it streams a record per row after the first, keyed by the first row, and leaves the captured array shifted one slot left |
| CodeCsv.SecondListing | googlesheets/table_code_csv.go:50-55 | a second listing keys by the old first data row and lists the last row twice |
| CodeCsv.SecondListingExample | googlesheets/table_code_csv.go:50-55 | rows h / a / b list {h:a},{h:b} first and {a:b},{a:b} on the second query |
| CodeCsv.ListTwice | googlesheets/table_code_csv.go:46-68 | querying the same table twice streams the first listing, then the listing of the shifted rows |
| CodeCsv.CsvLister.ListFromCopy | googlesheets/table_code_csv.go:55 | the corrected listing streams the first listing and leaves the captured rows alone |
| CodeCsv.ListTwiceFromCopy | googlesheets/table_code_csv.go:46-68 | with the corrected listing both queries stream the same records |
| GooglesheetsCsv.CellTextRule | googlesheets/table_googlesheets_csv.go:31-38 | an unclaimed cell keeps its own value; a claimed one shows the value at the top-left corner of the first claiming range, at or above and left of it |
| GooglesheetsCsv.BlockRecordsSkipFirstRow | googlesheets/table_googlesheets_csv.go:25-29 | a block of n rows streams n-1 records, record j coming from in-block row j+1 |
| GooglesheetsCsv.BuildRowRecord | googlesheets/table_googlesheets_csv.go:30-39 | the cell loop builds the record of the resolved row values under the cached headers |
| GooglesheetsCsv.StreamBlock | googlesheets/table_googlesheets_csv.go:25-41 | the row loop skips row 0 and streams the rest in order |
| GooglesheetsCsv.StreamSheet | googlesheets/table_googlesheets_csv.go:24-42 | the block loop streams the sheet's blocks in order |
| GooglesheetsCsv.ListSpreadsheetWithPath | googlesheets/table_googlesheets_csv.go:14-46 | a fetch error is returned; otherwise every sheet's records are streamed in order, keyed by the cached headers |

## Findings

| source | as written | input that shows it | evidently intended | confidence | as-written member | corrected member |
|---|---|---|---|---|---|---|
| googlesheets/table_code_csv.go:55 | the listing closure shifts the captured `Values` array left in place, so the array keeps its length and the next invocation sees the shifted rows | rows `h` / `a` / `b` queried twice: the second query streams `{a:b}` twice instead of `{h:a}`, `{h:b}` | every query of the table streams the same records | high (not executed) | CodeCsv.SecondListingExample | CodeCsv.CsvLister.ListFromCopy |

## Left out

- Credentials, OAuth and JWT token sources, `getSessionConfig` and `pathOrContents`: these are file and network I/O.
- `getSpreadsheetID` and the connection config: a cache lookup and configuration parsing.
- Every `svc...Do()` call and `getSpreadsheetData`, whose body is only the API call: they are parameters returning `Ok` or `Err`.
- The `googlesheets_spreadsheet` and `googlesheets_sheet` static tables, and the `Plugin` constructor in plugin.go:15-27: they declare columns or stream one API response. main.go is not part of this model.
- Host cancellation of a query: it is not modelled. `RowsRemaining` is the countdown limit − streamed, and with no limit it never reaches 0.
- Utils.IntToLetters: no model for n <= 0, because that input yields a non-letter character; callers always pass a 1-based index.
- The `googleSpreadsheetHeadersMap` global used by table_googlesheets_csv.go is not part of this model; it is the `headersMap` parameter.
- Service.SheetKey: the Go code measures and slices the key by bytes, the model by characters; the two agree whenever the key starts and ends with the ASCII quote, which is how the API quotes sheet names.
