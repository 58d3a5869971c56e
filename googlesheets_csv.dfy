/**
 * googlesheets/table_googlesheets_csv.go: the merge-aware sheet lister.  It
 * reads the sheet's grid data, skips the first row of every data block, and
 * streams one header-keyed record per remaining row in which a merged cell
 * carries its anchor's formatted value.  The headers come from the
 * package-level sheet-name-to-headers map, here the parameter `headersMap`;
 * the grid-data call is the parameter `fetch`.
 */
module GooglesheetsCsv {
  import opened SheetsApi
  import Cell
  import Projection

  /**
   * The merge lookup of this lister: coordinates are the 1-based position
   * inside the data block (row_count+1, col_count+1), without the block's
   * start offset.
   */
  function Resolve(sh: Sheet, r: nat, c: nat): Cell.MergeResult {
    Cell.FindMergeCells(sh.merges, r + 1, c + 1)
  }

  /** The anchor of a merged cell is read at RowData[anchorRow-1].Values[anchorCol-1]; that must exist. */
  predicate AnchorReadable(sh: Sheet, g: GridData, r: nat, c: nat) {
    var m := Resolve(sh, r, c);
    m.Merged? ==> 1 <= m.parentRow <= |g.rowData| && 1 <= m.parentColumn <= |g.rowData[m.parentRow - 1]|
  }

  /** The value streamed for cell (r, c): its anchor's formatted value when merged, else its own. */
  function CellText(sh: Sheet, g: GridData, r: nat, c: nat): string
    requires r < |g.rowData| && c < |g.rowData[r]| && AnchorReadable(sh, g, r, c)
  {
    var m := Resolve(sh, r, c);
    if m.Merged? then g.rowData[m.parentRow - 1][m.parentColumn - 1].formattedValue
    else g.rowData[r][c].formattedValue
  }

  /**
   * A cell claimed by some merge range shows the value at the top-left
   * corner of the first such range in list order, which lies in the same
   * or an earlier row and column; an unclaimed cell shows its own value.
   */
  lemma CellTextRule(sh: Sheet, g: GridData, r: nat, c: nat)
    requires r < |g.rowData| && c < |g.rowData[r]| && AnchorReadable(sh, g, r, c)
    ensures (forall k :: 0 <= k < |sh.merges| ==> !Cell.Matches(sh.merges[k], r + 1, c + 1)) ==>
      CellText(sh, g, r, c) == g.rowData[r][c].formattedValue
    ensures forall k :: Cell.FirstMatch(sh.merges, r + 1, c + 1, k) ==>
      && 0 <= sh.merges[k].startRow <= r && 0 <= sh.merges[k].startColumn <= c
      && sh.merges[k].startColumn < |g.rowData[sh.merges[k].startRow]|
      && CellText(sh, g, r, c) == g.rowData[sh.merges[k].startRow][sh.merges[k].startColumn].formattedValue
  {
    Cell.FindMergeCellsFirstMatch(sh.merges, r + 1, c + 1);
    forall k | Cell.FirstMatch(sh.merges, r + 1, c + 1, k)
      ensures && 0 <= sh.merges[k].startRow <= r && 0 <= sh.merges[k].startColumn <= c
              && sh.merges[k].startColumn < |g.rowData[sh.merges[k].startRow]|
              && CellText(sh, g, r, c) == g.rowData[sh.merges[k].startRow][sh.merges[k].startColumn].formattedValue
    {
      var m := Resolve(sh, r, c);
      var k' :| Cell.FirstMatch(sh.merges, r + 1, c + 1, k') && m.parentRow == sh.merges[k'].startRow + 1
        && m.parentColumn == sh.merges[k'].startColumn + 1;
      assert k == k';
    }
  }

  /** The values of in-block row r as streamed, one per cell. */
  function ResolvedRow(sh: Sheet, g: GridData, r: nat): (vals: seq<string>)
    requires r < |g.rowData| && forall c :: 0 <= c < |g.rowData[r]| ==> AnchorReadable(sh, g, r, c)
    ensures |vals| == |g.rowData[r]|
  {
    seq(|g.rowData[r]|, c requires 0 <= c < |g.rowData[r]| && AnchorReadable(sh, g, r, c) =>
      CellText(sh, g, r, c))
  }

  /**
   * The row loop reads block g without panicking: every anchor exists and
   * no streamed row (every row after the first) is wider than the headers.
   */
  predicate BlockReadable(headers: seq<string>, sh: Sheet, g: GridData) {
    && (forall r, c :: 0 <= r < |g.rowData| && 0 <= c < |g.rowData[r]| ==> AnchorReadable(sh, g, r, c))
    && (forall r :: 1 <= r < |g.rowData| ==> |g.rowData[r]| <= |headers|)
  }

  predicate SheetReadable(headers: seq<string>, sh: Sheet) {
    forall b :: 0 <= b < |sh.data| ==> BlockReadable(headers, sh, sh.data[b])
  }

  predicate SheetsReadable(headers: seq<string>, sheets: seq<Sheet>) {
    forall i :: 0 <= i < |sheets| ==> SheetReadable(headers, sheets[i])
  }

  /** The record streamed for in-block row r >= 1. */
  function RowRecord(headers: seq<string>, sh: Sheet, g: GridData, r: nat): map<string, string>
    requires BlockReadable(headers, sh, g) && 1 <= r < |g.rowData|
  {
    Projection.Record(headers, ResolvedRow(sh, g, r))
  }

  /** Records streamed for the first n rows of block g: the first row is skipped. */
  function BlockRecords(headers: seq<string>, sh: Sheet, g: GridData, n: nat): seq<map<string, string>>
    requires BlockReadable(headers, sh, g) && n <= |g.rowData|
  {
    if n <= 1 then [] else BlockRecords(headers, sh, g, n - 1) + [RowRecord(headers, sh, g, n - 1)]
  }

  /** Records streamed for the first n data blocks of sheet sh. */
  function SheetRecords(headers: seq<string>, sh: Sheet, n: nat): seq<map<string, string>>
    requires SheetReadable(headers, sh) && n <= |sh.data|
  {
    if n == 0 then []
    else SheetRecords(headers, sh, n - 1) + BlockRecords(headers, sh, sh.data[n - 1], |sh.data[n - 1].rowData|)
  }

  /** Records streamed for the first n sheets of the response. */
  function AllRecords(headers: seq<string>, sheets: seq<Sheet>, n: nat): seq<map<string, string>>
    requires SheetsReadable(headers, sheets) && n <= |sheets|
  {
    if n == 0 then [] else AllRecords(headers, sheets, n - 1) + SheetRecords(headers, sheets[n - 1], |sheets[n - 1].data|)
  }

  lemma BlockRecordsStep(headers: seq<string>, sh: Sheet, g: GridData, r: nat)
    requires BlockReadable(headers, sh, g) && 1 <= r < |g.rowData|
    ensures BlockRecords(headers, sh, g, r + 1) == BlockRecords(headers, sh, g, r) + [RowRecord(headers, sh, g, r)]
  {
  }

  lemma SheetRecordsStep(headers: seq<string>, sh: Sheet, b: nat)
    requires SheetReadable(headers, sh) && b < |sh.data|
    ensures SheetRecords(headers, sh, b + 1)
      == SheetRecords(headers, sh, b) + BlockRecords(headers, sh, sh.data[b], |sh.data[b].rowData|)
  {
  }

  lemma AllRecordsStep(headers: seq<string>, sheets: seq<Sheet>, i: nat)
    requires SheetsReadable(headers, sheets) && i < |sheets|
    ensures AllRecords(headers, sheets, i + 1)
      == AllRecords(headers, sheets, i) + SheetRecords(headers, sheets[i], |sheets[i].data|)
  {
  }

  /**
   * A block streams one record per row but its first: record j comes from
   * in-block row j + 1.
   */
  lemma {:induction false} BlockRecordsSkipFirstRow(headers: seq<string>, sh: Sheet, g: GridData, n: nat)
    requires BlockReadable(headers, sh, g) && n <= |g.rowData|
    ensures |BlockRecords(headers, sh, g, n)| == if n == 0 then 0 else n - 1
    ensures forall j :: 0 <= j < |BlockRecords(headers, sh, g, n)| ==>
      BlockRecords(headers, sh, g, n)[j] == RowRecord(headers, sh, g, j + 1)
  {
    if n > 1 {
      BlockRecordsSkipFirstRow(headers, sh, g, n - 1);
    }
  }

  /**
   * The headers of a sheet: its entry in the headers map; a sheet missing
   * from the map reads as no headers, and then only empty rows can be
   * streamed.
   */
  function SheetHeaders(headersMap: map<string, seq<string>>, sheetName: string): seq<string> {
    if sheetName in headersMap then headersMap[sheetName] else []
  }

  // ------------------------------------------------------------ the loops

  /** The column loop for in-block row r. */
  method BuildRowRecord(headers: seq<string>, sh: Sheet, g: GridData, r: nat) returns (rec: map<string, string>)
    requires BlockReadable(headers, sh, g) && 1 <= r < |g.rowData|
    ensures rec == RowRecord(headers, sh, g, r)
  {
    var row := g.rowData[r];
    ghost var vals := ResolvedRow(sh, g, r);
    rec := map[];
    var c := 0;
    while c < |row|
      invariant 0 <= c <= |row|
      invariant rec == Projection.Record(headers, vals[..c])
    {
      assert AnchorReadable(sh, g, r, c);
      assert vals[..c + 1][..c] == vals[..c];
      var m := Cell.FindMergeCells(sh.merges, r + 1, c + 1);
      if m.Merged? {
        var parentData := g.rowData[m.parentRow - 1][m.parentColumn - 1];
        rec := rec[headers[c] := parentData.formattedValue];
      } else {
        rec := rec[headers[c] := row[c].formattedValue];
      }
      c := c + 1;
    }
    assert vals[..|row|] == vals;
  }

  /** The row loop over one data block, skipping its first row. */
  method StreamBlock(headers: seq<string>, sh: Sheet, g: GridData) returns (out: seq<map<string, string>>)
    requires BlockReadable(headers, sh, g)
    ensures out == BlockRecords(headers, sh, g, |g.rowData|)
  {
    out := [];
    var r := 0;
    while r < |g.rowData|
      invariant 0 <= r <= |g.rowData|
      invariant out == BlockRecords(headers, sh, g, r)
    {
      if r == 0 {
        r := r + 1;
        continue;
      }
      var rec := BuildRowRecord(headers, sh, g, r);
      BlockRecordsStep(headers, sh, g, r);
      out := out + [rec];
      r := r + 1;
    }
  }

  /** The data-block loop over one sheet. */
  method StreamSheet(headers: seq<string>, sh: Sheet) returns (out: seq<map<string, string>>)
    requires SheetReadable(headers, sh)
    ensures out == SheetRecords(headers, sh, |sh.data|)
  {
    out := [];
    var b := 0;
    while b < |sh.data|
      invariant 0 <= b <= |sh.data|
      invariant out == SheetRecords(headers, sh, b)
    {
      var recs := StreamBlock(headers, sh, sh.data[b]);
      SheetRecordsStep(headers, sh, b);
      out := out + recs;
      b := b + 1;
    }
  }

  /**
   * listSpreadsheetWithPath's hydrate function: fetch the grid data of
   * [sheetName], look its headers up, and stream the records of every
   * sheet of the response.  A fetch error is returned as is.
   */
  method ListSpreadsheetWithPath(sheetName: string, fetch: seq<string> -> Fetch<seq<Sheet>>,
                                 headersMap: map<string, seq<string>>)
    returns (out: seq<map<string, string>>, err: Option<string>)
    requires fetch([sheetName]).Ok? ==>
      SheetsReadable(SheetHeaders(headersMap, sheetName), fetch([sheetName]).value)
    ensures fetch([sheetName]).Err? ==> out == [] && err == Some(fetch([sheetName]).message)
    ensures fetch([sheetName]).Ok? ==>
      var sheets := fetch([sheetName]).value;
      err == None && out == AllRecords(SheetHeaders(headersMap, sheetName), sheets, |sheets|)
  {
    var spreadsheetData := fetch([sheetName]);
    if spreadsheetData.Err? {
      return [], Some(spreadsheetData.message);
    }
    var spreadsheetHeaders: seq<string> := [];
    if sheetName in headersMap {
      spreadsheetHeaders := headersMap[sheetName];
    }
    var sheets := spreadsheetData.value;
    out := [];
    var i := 0;
    while i < |sheets|
      invariant 0 <= i <= |sheets|
      invariant out == AllRecords(spreadsheetHeaders, sheets, i)
    {
      var recs := StreamSheet(spreadsheetHeaders, sheets[i]);
      AllRecordsStep(spreadsheetHeaders, sheets, i);
      out := out + recs;
      i := i + 1;
    }
    err := None;
  }
}
