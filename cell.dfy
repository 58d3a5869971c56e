/**
 * The cell-granularity table (googlesheets/table_googlesheets_cell.go):
 * merged-cell resolution, the per-cell record, the range expression planned
 * from the query's key columns, and the cell emission loop.
 */
module Cell {
  import opened SheetsApi
  import Utils
  import Decimal

  // ---------------------------------------------------------------- merges

  /** More than one row, exactly one column. */
  predicate Vertical(g: GridRange) {
    g.endRow - g.startRow > 1 && g.endColumn - g.startColumn == 1
  }

  /** More than one column, exactly one row. */
  predicate Horizontal(g: GridRange) {
    g.endColumn - g.startColumn > 1 && g.endRow - g.startRow == 1
  }

  /**
   * Whether the 1-based cell (row, col) is resolved to the anchor of merge g.
   * A vertical merge claims the rows below the anchor in its column, a
   * horizontal one the columns right of the anchor in its row; any other
   * shape (blocks, and 1x1 or empty ranges) claims every cell of the
   * rectangle, the anchor included.
   */
  predicate Matches(g: GridRange, row: int, col: int) {
    if Vertical(g) then
      g.startRow + 2 <= row <= g.endRow && col == g.startColumn + 1
    else if Horizontal(g) then
      g.startColumn + 2 <= col <= g.endColumn && row == g.startRow + 1
    else
      g.startRow + 1 <= row <= g.endRow && g.startColumn + 1 <= col <= g.endColumn
  }

  /** merges[k] is the first range in list order that claims (row, col). */
  predicate FirstMatch(merges: seq<GridRange>, row: int, col: int, k: int) {
    0 <= k < |merges| && Matches(merges[k], row, col)
    && forall j :: 0 <= j < k ==> !Matches(merges[j], row, col)
  }

  /** findMergeCells' four results: all nil, or the cell and its anchor (1-based). */
  datatype MergeResult =
    | NotMerged
    | Merged(row: int, column: int, parentRow: int, parentColumn: int)

  /**
   * findMergeCells: scan the merge list in order and return at the first
   * range that claims (row, col), with that range's anchor.
   */
  function FindMergeCells(merges: seq<GridRange>, row: int, col: int): (r: MergeResult)
    ensures r.Merged? ==> r.row == row && r.column == col
    ensures r.Merged? ==> r.parentRow <= row && r.parentColumn <= col
  {
    if merges == [] then NotMerged
    else if Matches(merges[0], row, col) then
      Merged(row, col, merges[0].startRow + 1, merges[0].startColumn + 1)
    else
      FindMergeCells(merges[1..], row, col)
  }

  /**
   * The cell is merged exactly when some range claims it, and then the
   * anchor is that of the first such range in list order.
   */
  lemma {:induction false} FindMergeCellsFirstMatch(merges: seq<GridRange>, row: int, col: int)
    ensures var r := FindMergeCells(merges, row, col);
      && (r.NotMerged? <==> forall k :: 0 <= k < |merges| ==> !Matches(merges[k], row, col))
      && (r.Merged? ==>
            exists k :: FirstMatch(merges, row, col, k) && r.parentRow == merges[k].startRow + 1
              && r.parentColumn == merges[k].startColumn + 1)
  {
    if merges != [] && !Matches(merges[0], row, col) {
      var rest := merges[1..];
      FindMergeCellsFirstMatch(rest, row, col);
      assert forall k :: 1 <= k < |merges| ==> merges[k] == rest[k - 1];
      var r := FindMergeCells(rest, row, col);
      if r.Merged? {
        var k :| FirstMatch(rest, row, col, k) && r.parentRow == rest[k].startRow + 1
          && r.parentColumn == rest[k].startColumn + 1;
        assert FirstMatch(merges, row, col, k + 1);
      }
    } else if merges != [] {
      assert FirstMatch(merges, row, col, 0);
    }
  }

  /** With no merges, no cell is merged. */
  lemma NoMergesNotMerged(row: int, col: int)
    ensures FindMergeCells([], row, col) == NotMerged
  {
  }

  /** A vertical merge claims the rows under its anchor, never the anchor. */
  lemma VerticalRule(g: GridRange, row: int, col: int)
    requires Vertical(g)
    ensures FindMergeCells([g], row, col).Merged?
      <==> g.startRow + 2 <= row <= g.endRow && col == g.startColumn + 1
    ensures FindMergeCells([g], g.startRow + 1, g.startColumn + 1).NotMerged?
  {
  }

  /** A horizontal merge claims the columns right of its anchor, never the anchor. */
  lemma HorizontalRule(g: GridRange, row: int, col: int)
    requires Horizontal(g)
    ensures FindMergeCells([g], row, col).Merged?
      <==> g.startColumn + 2 <= col <= g.endColumn && row == g.startRow + 1
    ensures FindMergeCells([g], g.startRow + 1, g.startColumn + 1).NotMerged?
  {
  }

  /**
   * Any other shape claims its whole rectangle; a non-empty one claims its
   * own anchor too, resolving it to itself.
   */
  lemma OtherShapeRule(g: GridRange, row: int, col: int)
    requires !Vertical(g) && !Horizontal(g)
    ensures FindMergeCells([g], row, col).Merged?
      <==> g.startRow + 1 <= row <= g.endRow && g.startColumn + 1 <= col <= g.endColumn
    ensures g.startRow < g.endRow && g.startColumn < g.endColumn ==>
      FindMergeCells([g], g.startRow + 1, g.startColumn + 1)
        == Merged(g.startRow + 1, g.startColumn + 1, g.startRow + 1, g.startColumn + 1)
  {
  }

  /**
   * A vertical merge of 0-based rows 0..2 in column 0: sheet rows 2 and 3
   * resolve to the anchor (1, 1); the anchor itself and row 4 are not merged.
   */
  lemma VerticalExample(row: int)
    requires 1 <= row <= 4
    ensures FindMergeCells([GridRange(0, 3, 0, 1)], row, 1)
      == if row == 2 || row == 3 then Merged(row, 1, 1, 1) else NotMerged
  {
    assert [GridRange(0, 3, 0, 1)][1..] == [];
  }

  // ----------------------------------------------------------- cell record

  /** cellInfo: one row of the googlesheets_cell table. */
  datatype CellInfo = CellInfo(
    columnName: string,
    rowName: int,
    cellAddress: string,
    value: string,
    formula: string,
    note: string,
    hyperlink: string,
    sheetName: string)

  predicate HasFormula(v: CellData) {
    v.userEnteredValue.Some? && v.userEnteredValue.value.formulaValue.Some?
  }

  /**
   * getCellInfo for 0-based (rowCount, colCount).  It dereferences
   * UserEnteredValue, which panics when that is nil.
   */
  function GetCellInfo(sheetName: string, rowCount: nat, colCount: nat, data: CellData): (r: CellInfo)
    requires data.userEnteredValue.Some?
    ensures Utils.AllUpper(r.columnName) && Utils.LettersToInt(r.columnName) == colCount + 1
    ensures r.rowName == rowCount + 1
    ensures r.cellAddress == r.columnName + Decimal.NatToString(r.rowName)
    ensures r.formula == if HasFormula(data) then data.userEnteredValue.value.formulaValue.value else ""
    ensures r.value == data.formattedValue && r.note == data.note
    ensures r.hyperlink == data.hyperlink && r.sheetName == sheetName
  {
    Utils.DecodeEncode(colCount + 1);
    var formulaValue := match data.userEnteredValue.value.formulaValue
      case Some(f) => f
      case None => "";
    CellInfo(
      columnName := Utils.IntToLetters(colCount + 1),
      rowName := rowCount + 1,
      cellAddress := Utils.IntToLetters(colCount + 1) + Decimal.NatToString(rowCount + 1),
      value := data.formattedValue,
      formula := formulaValue,
      note := data.note,
      hyperlink := data.hyperlink,
      sheetName := sheetName)
  }

  /** The number of leading capitals of s. */
  function LeadingLetters(s: string): (k: nat)
    ensures k <= |s| && Utils.AllUpper(s[..k])
    ensures k < |s| ==> !Utils.IsUpper(s[k])
  {
    if s == [] || !Utils.IsUpper(s[0]) then 0
    else
      var k := 1 + LeadingLetters(s[1..]);
      assert s[..k] == [s[0]] + s[1..][..k - 1];
      k
  }

  /** Reads an A1 cell address ("B3") back into 1-based (column, row). */
  function DecodeAddress(address: string): Option<(int, int)> {
    var k := LeadingLetters(address);
    var digits := address[k..];
    if k > 0 && |digits| > 0 && Decimal.AllDigits(digits) then
      Some((Utils.LettersToInt(address[..k]), Decimal.ParseNat(digits)))
    else
      None
  }

  lemma {:induction false} LeadingLettersOfAddress(letters: string, digits: string)
    requires Utils.AllUpper(letters)
    requires |digits| > 0 && Decimal.AllDigits(digits)
    ensures LeadingLetters(letters + digits) == |letters|
  {
    if letters != [] {
      assert (letters + digits)[1..] == letters[1..] + digits;
      LeadingLettersOfAddress(letters[1..], digits);
    }
  }

  /** The address getCellInfo writes decodes to the cell's 1-based coordinates. */
  lemma CellAddressDecodes(sheetName: string, rowCount: nat, colCount: nat, data: CellData)
    requires data.userEnteredValue.Some?
    ensures DecodeAddress(GetCellInfo(sheetName, rowCount, colCount, data).cellAddress)
      == Some((colCount + 1, rowCount + 1))
  {
    var r := GetCellInfo(sheetName, rowCount, colCount, data);
    var digits := Decimal.NatToString(r.rowName);
    LeadingLettersOfAddress(r.columnName, digits);
    assert r.cellAddress[..|r.columnName|] == r.columnName;
    assert r.cellAddress[|r.columnName|..] == digits;
    Decimal.ParseNatToString(r.rowName);
  }

  // ---------------------------------------------------------- range planning

  /** The optional key-column quals of a googlesheets_cell query. */
  datatype Quals = Quals(
    sheetName: Option<string>,
    ranges: Option<string>,
    rowName: Option<int>,
    columnName: Option<string>)

  /**
   * The range set on the request, if any.  Without a sheet name nothing is
   * set and the whole spreadsheet is fetched.
   */
  function PlanRanges(q: Quals): (r: Option<string>)
    ensures r.Some? <==> q.sheetName.Some?
    ensures r.Some? ==> q.sheetName.value <= r.value
  {
    match q.sheetName
    case None => None
    case Some(sheet) =>
      if q.ranges.Some? then
        Some(sheet + "!" + q.ranges.value)
      else if q.rowName.Some? && q.columnName.Some? then
        Some(sheet + "!" + q.columnName.value + Decimal.IntToString(q.rowName.value))
      else
        Some(sheet)
  }

  /** An explicit range wins over row and column quals, whatever they are. */
  lemma RangesTakePrecedence(q: Quals, rowName: Option<int>, columnName: Option<string>)
    requires q.sheetName.Some? && q.ranges.Some?
    ensures PlanRanges(q) == PlanRanges(q.(rowName := rowName, columnName := columnName))
    ensures PlanRanges(q) == Some(q.sheetName.value + "!" + q.ranges.value)
  {
  }

  /** Without a sheet name the other quals are ignored. */
  lemma NoSheetNoRange(q: Quals)
    requires q.sheetName.None?
    ensures PlanRanges(q).None?
  {
  }

  /** A sheet with neither a range nor both row and column asks for the whole sheet. */
  lemma SheetOnlyPlansSheet(q: Quals)
    requires q.sheetName.Some? && q.ranges.None?
    requires q.rowName.None? || q.columnName.None?
    ensures PlanRanges(q) == Some(q.sheetName.value)
  {
  }

  /**
   * Asking for a cell by the column letters and row number the table reports
   * requests exactly that cell's address on that sheet.
   */
  lemma CellQualsPlanCellAddress(sheet: string, rowCount: nat, colCount: nat, data: CellData)
    requires data.userEnteredValue.Some?
    ensures var info := GetCellInfo(sheet, rowCount, colCount, data);
      PlanRanges(Quals(Some(sheet), None, Some(info.rowName), Some(info.columnName)))
        == Some(sheet + "!" + info.cellAddress)
  {
    var info := GetCellInfo(sheet, rowCount, colCount, data);
    assert sheet + "!" + info.columnName + Decimal.NatToString(info.rowName)
      == sheet + "!" + info.cellAddress;
  }

  // ------------------------------------------------------------ emission

  /** The merge resolution of in-block cell (r, c), in 1-based sheet coordinates. */
  function Resolve(sh: Sheet, g: GridData, r: nat, c: nat): MergeResult {
    FindMergeCells(sh.merges, r + g.startRow + 1, c + g.startColumn + 1)
  }

  /**
   * The anchor of a merged cell is read at RowData[anchorRow-1].Values[anchorCol-1]
   * of the block being scanned, with the anchor's sheet coordinates; the
   * source indexes there unchecked, so the index must be in range.
   */
  predicate AnchorReadable(sh: Sheet, g: GridData, r: nat, c: nat) {
    var m := Resolve(sh, g, r, c);
    m.Merged? ==>
      1 <= m.parentRow <= |g.rowData| && 1 <= m.parentColumn <= |g.rowData[m.parentRow - 1]|
  }

  /** The cell data the loop hands to getCellInfo for (r, c), or None if it emits nothing. */
  function CellSource(sh: Sheet, g: GridData, r: nat, c: nat): Option<CellData>
    requires r < |g.rowData| && c < |g.rowData[r]|
    requires AnchorReadable(sh, g, r, c)
  {
    var m := Resolve(sh, g, r, c);
    var v := g.rowData[r][c];
    if m.Merged? then Some(g.rowData[m.parentRow - 1][m.parentColumn - 1])
    else if HasFormula(v) then Some(v)
    else if v.formattedValue != "" then Some(v)
    else None
  }

  /** The loop does not panic at in-block cell (r, c). */
  predicate CellReadable(sh: Sheet, g: GridData, r: nat, c: nat)
    requires r < |g.rowData| && c < |g.rowData[r]|
  {
    AnchorReadable(sh, g, r, c)
    && (CellSource(sh, g, r, c).Some? ==> CellSource(sh, g, r, c).value.userEnteredValue.Some?)
  }

  predicate BlockReadable(sh: Sheet, g: GridData) {
    forall r, c :: 0 <= r < |g.rowData| && 0 <= c < |g.rowData[r]| ==> CellReadable(sh, g, r, c)
  }

  predicate SheetReadable(sh: Sheet) {
    forall b :: 0 <= b < |sh.data| ==> BlockReadable(sh, sh.data[b])
  }

  predicate SheetsReadable(sheets: seq<Sheet>) {
    forall i :: 0 <= i < |sheets| ==> SheetReadable(sheets[i])
  }

  /**
   * What the loop streams for in-block cell (r, c): merged cells carry their
   * anchor's data, other cells are streamed only when they hold a formula or
   * a non-empty formatted value.
   */
  function EmitCell(sh: Sheet, g: GridData, r: nat, c: nat): (out: Option<CellInfo>)
    requires r < |g.rowData| && c < |g.rowData[r]|
    requires CellReadable(sh, g, r, c)
  {
    match CellSource(sh, g, r, c)
    case None => None
    case Some(d) => Some(GetCellInfo(sh.title, r + g.startRow, c + g.startColumn, d))
  }

  /** The emission rule, stated per case. */
  lemma EmitCellRule(sh: Sheet, g: GridData, r: nat, c: nat)
    requires r < |g.rowData| && c < |g.rowData[r]|
    requires CellReadable(sh, g, r, c)
    ensures var m, v, out := Resolve(sh, g, r, c), g.rowData[r][c], EmitCell(sh, g, r, c);
      && (m.Merged? ==>
            out.Some? && out.value.value == g.rowData[m.parentRow - 1][m.parentColumn - 1].formattedValue)
      && (m.NotMerged? ==> (out.Some? <==> HasFormula(v) || v.formattedValue != ""))
      && (m.NotMerged? && out.Some? ==> out.value.value == v.formattedValue && out.value.note == v.note)
      && (out.Some? ==>
            && out.value.rowName == r + g.startRow + 1
            && Utils.AllUpper(out.value.columnName)
            && Utils.LettersToInt(out.value.columnName) == c + g.startColumn + 1
            && out.value.sheetName == sh.title)
  {
  }

  function OptionToSeq<T>(o: Option<T>): seq<T> {
    if o.Some? then [o.value] else []
  }

  /** Records streamed for the first n cells of row r of block g. */
  function RowCells(sh: Sheet, g: GridData, r: nat, n: nat): (out: seq<CellInfo>)
    requires BlockReadable(sh, g) && r < |g.rowData| && n <= |g.rowData[r]|
    ensures |out| <= n
  {
    if n == 0 then [] else RowCells(sh, g, r, n - 1) + OptionToSeq(EmitCell(sh, g, r, n - 1))
  }

  /** Records streamed for the first n rows of block g, row-major. */
  function BlockCells(sh: Sheet, g: GridData, n: nat): seq<CellInfo>
    requires BlockReadable(sh, g) && n <= |g.rowData|
  {
    if n == 0 then [] else BlockCells(sh, g, n - 1) + RowCells(sh, g, n - 1, |g.rowData[n - 1]|)
  }

  lemma BlockCellsStep(sh: Sheet, g: GridData, r: nat)
    requires BlockReadable(sh, g) && r < |g.rowData|
    ensures BlockCells(sh, g, r + 1) == BlockCells(sh, g, r) + RowCells(sh, g, r, |g.rowData[r]|)
  {
  }

  /** Records streamed for the first n data blocks of sheet sh. */
  function SheetCells(sh: Sheet, n: nat): seq<CellInfo>
    requires SheetReadable(sh) && n <= |sh.data|
  {
    if n == 0 then [] else SheetCells(sh, n - 1) + BlockCells(sh, sh.data[n - 1], |sh.data[n - 1].rowData|)
  }

  lemma SheetCellsStep(sh: Sheet, b: nat)
    requires SheetReadable(sh) && b < |sh.data|
    ensures SheetCells(sh, b + 1) == SheetCells(sh, b) + BlockCells(sh, sh.data[b], |sh.data[b].rowData|)
  {
  }

  /** Records streamed for the first n sheets of the response. */
  function AllCells(sheets: seq<Sheet>, n: nat): seq<CellInfo>
    requires SheetsReadable(sheets) && n <= |sheets|
  {
    if n == 0 then [] else AllCells(sheets, n - 1) + SheetCells(sheets[n - 1], |sheets[n - 1].data|)
  }

  lemma AllCellsStep(sheets: seq<Sheet>, i: nat)
    requires SheetsReadable(sheets) && i < |sheets|
    ensures AllCells(sheets, i + 1) == AllCells(sheets, i) + SheetCells(sheets[i], |sheets[i].data|)
  {
  }

  /**
   * The column loop of listGooglesheetCells for row r of a block: each
   * cell's coordinates are offset by the block's start, and the cell is
   * streamed by the merge / formula / formatted-value rule.
   */
  method StreamRow(sheet: Sheet, block: GridData, r: nat) returns (cells: seq<CellInfo>)
    requires BlockReadable(sheet, block) && r < |block.rowData|
    ensures cells == RowCells(sheet, block, r, |block.rowData[r]|)
  {
    var row := block.rowData[r];
    cells := [];
    var c := 0;
    while c < |row|
      invariant 0 <= c <= |row|
      invariant cells == RowCells(sheet, block, r, c)
    {
      var emitted := StreamCell(sheet, block, r, c);
      cells := cells + emitted;
      c := c + 1;
    }
  }

  /** The body of the column loop for in-block cell (r, c). */
  method StreamCell(sheet: Sheet, block: GridData, r: nat, c: nat) returns (emitted: seq<CellInfo>)
    requires r < |block.rowData| && c < |block.rowData[r]| && CellReadable(sheet, block, r, c)
    ensures emitted == OptionToSeq(EmitCell(sheet, block, r, c))
  {
    var value := block.rowData[r][c];
    var rowCount := r + block.startRow;
    var colCount := c + block.startColumn;
    var m := FindMergeCells(sheet.merges, rowCount + 1, colCount + 1);
    if m.Merged? {
      var parentData := block.rowData[m.parentRow - 1][m.parentColumn - 1];
      emitted := [GetCellInfo(sheet.title, rowCount, colCount, parentData)];
    } else if value.userEnteredValue.Some? && value.userEnteredValue.value.formulaValue.Some? {
      emitted := [GetCellInfo(sheet.title, rowCount, colCount, value)];
    } else if value.formattedValue != "" {
      emitted := [GetCellInfo(sheet.title, rowCount, colCount, value)];
    } else {
      emitted := [];
    }
  }

  /** The row loop of listGooglesheetCells over one block of grid data. */
  method StreamBlock(sheet: Sheet, block: GridData) returns (cells: seq<CellInfo>)
    requires BlockReadable(sheet, block)
    ensures cells == BlockCells(sheet, block, |block.rowData|)
  {
    cells := [];
    var r := 0;
    while r < |block.rowData|
      invariant 0 <= r <= |block.rowData|
      invariant cells == BlockCells(sheet, block, r)
    {
      var rowCells := StreamRow(sheet, block, r);
      BlockCellsStep(sheet, block, r);
      cells := cells + rowCells;
      r := r + 1;
    }
  }

  /** The data-block loop of listGooglesheetCells over one sheet. */
  method StreamSheet(sheet: Sheet) returns (cells: seq<CellInfo>)
    requires SheetReadable(sheet)
    ensures cells == SheetCells(sheet, |sheet.data|)
  {
    cells := [];
    var b := 0;
    while b < |sheet.data|
      invariant 0 <= b <= |sheet.data|
      invariant cells == SheetCells(sheet, b)
    {
      var blockCells := StreamBlock(sheet, sheet.data[b]);
      SheetCellsStep(sheet, b);
      cells := cells + blockCells;
      b := b + 1;
    }
  }

  /**
   * The sheet loop of listGooglesheetCells: the cells of every sheet of the
   * response, in order.
   */
  method StreamCells(sheets: seq<Sheet>) returns (out: seq<CellInfo>)
    requires SheetsReadable(sheets)
    ensures out == AllCells(sheets, |sheets|)
  {
    out := [];
    var i := 0;
    while i < |sheets|
      invariant 0 <= i <= |sheets|
      invariant out == AllCells(sheets, i)
    {
      var cells := StreamSheet(sheets[i]);
      AllCellsStep(sheets, i);
      out := out + cells;
      i := i + 1;
    }
  }

  /**
   * listGooglesheetCells after the client is built: plan the range from the
   * quals, fetch (`fetch` stands for the API call on that range), and stream
   * the cells of the response.
   */
  method ListGooglesheetCells(quals: Quals, fetch: Option<string> -> Fetch<seq<Sheet>>)
    returns (out: seq<CellInfo>, err: Option<string>)
    requires fetch(PlanRanges(quals)).Ok? ==> SheetsReadable(fetch(PlanRanges(quals)).value)
    ensures fetch(PlanRanges(quals)).Err? ==> out == [] && err == Some(fetch(PlanRanges(quals)).message)
    ensures fetch(PlanRanges(quals)).Ok? ==>
      err == None && out == AllCells(fetch(PlanRanges(quals)).value, |fetch(PlanRanges(quals)).value|)
  {
    var data := fetch(PlanRanges(quals));
    if data.Err? {
      return [], Some(data.message);
    }
    out := StreamCells(data.value);
    err := None;
  }
}
