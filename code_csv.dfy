/**
 * googlesheets/table_code_csv.go: a table over a range fetched once, when
 * the table is built.  The listing closure keeps a reference to the fetched
 * rows and removes the header row from them IN PLACE each time it runs, so
 * the rows are state of the lister: a class with an array field.
 */
module CodeCsv {
  import opened SheetsApi
  import Projection

  /** The rows a listing can read: a first row of strings, data rows of strings no wider than it. */
  predicate CsvListable(values: seq<seq<CellValue>>) {
    |values| >= 1 && AllText(values[0]) && Projection.RowsFit(Texts(values[0]), values[1..])
  }

  /** What one listing streams: a record per row after the first, keyed by the first. */
  function CsvListed(values: seq<seq<CellValue>>): (out: seq<map<string, string>>)
    requires CsvListable(values)
    ensures |out| == |values| - 1
  {
    Projection.Records(Texts(values[0]), values[1..])
  }

  /** The closure listCSVWithPath returns, with the rows it captured. */
  class CsvLister {
    const data: array<seq<CellValue>>

    constructor(values: seq<seq<CellValue>>)
      ensures fresh(data) && data[..] == values
    {
      data := new seq<CellValue>[|values|](k requires 0 <= k < |values| => values[k]);
    }

    /**
     * One invocation: read the headers from the first row, shift the rows
     * one slot to the left in place (the array keeps its length and last
     * row), and stream one record per row of the shortened slice.  There is
     * no row budget check in this loop.
     */
    method List() returns (out: seq<map<string, string>>)
      requires CsvListable(data[..])
      modifies data
      ensures data[..] == Projection.Shifted(old(data[..]))
      ensures out == CsvListed(old(data[..]))
    {
      var csvHeaders := Projection.HeaderTexts(data[0]);
      ghost var rows := data[..];
      var n := Projection.ShiftOutHeader(data);
      assert data[..n] == rows[1..];
      out := Projection.StreamAll(csvHeaders, data, n);
    }

    /**
     * The listing as evidently intended: the header row is removed from a
     * copy, so the captured rows are left as they are and every invocation
     * streams the same records.
     */
    method ListFromCopy() returns (out: seq<map<string, string>>)
      requires CsvListable(data[..])
      ensures out == CsvListed(data[..])
    {
      var csvHeaders := Projection.HeaderTexts(data[0]);
      var rows := new seq<CellValue>[data.Length](k requires 0 <= k < data.Length reads data => data[k]);
      assert rows[..] == data[..];
      var n := Projection.ShiftOutHeader(rows);
      assert rows[..n] == data[..][1..];
      out := Projection.StreamAll(csvHeaders, rows, n);
    }
  }

  /**
   * tableCSV: fetch the range once (an error panics, and so does a range
   * with no rows), declare a string column per first-row cell, and hand
   * the fetched rows to a new lister.
   */
  method TableCsv(sheetRange: string, fetch: string -> Fetch<ValueRange>)
    returns (table: Table, lister: CsvLister)
    requires fetch(sheetRange).Ok?
    requires |fetch(sheetRange).value.values| >= 1 && AllText(fetch(sheetRange).value.values[0])
    ensures var values := fetch(sheetRange).value.values;
      && table == Csv(sheetRange, "CSV file at " + sheetRange, Projection.FieldColumns(Texts(values[0])))
      && fresh(lister.data) && lister.data[..] == values
  {
    var spreadsheetData := fetch(sheetRange);
    var values := spreadsheetData.value.values;
    var csvHeaders := Projection.HeaderTexts(values[0]);
    var cols := Projection.BuildColumns(csvHeaders);
    table := Csv(sheetRange, "CSV file at " + sheetRange, cols);
    lister := new CsvLister(values);
  }

  /**
   * What a second invocation of the same lister streams: the first data
   * row of the first listing now serves as the headers, the remaining data
   * rows follow, and the last row is listed once more at the end.
   */
  lemma SecondListing(values: seq<seq<CellValue>>)
    requires |values| >= 2 && CsvListable(values)
    requires CsvListable(Projection.Shifted(values))
    ensures var second := CsvListed(Projection.Shifted(values));
      && |second| == |CsvListed(values)|
      && (forall k :: 0 <= k < |values| - 2 ==>
            second[k] == Projection.Record(Texts(values[1]), Texts(values[k + 2])))
      && second[|values| - 2] == Projection.Record(Texts(values[1]), Texts(values[|values| - 1]))
  {
    var s := Projection.Shifted(values);
    assert s[0] == values[1];
    forall k | 0 <= k < |values| - 2
      ensures s[1..][k] == values[k + 2]
    {
      assert s[..|values| - 1][k + 1] == values[1..][k + 1];
    }
  }

  /**
   * A two-row CSV under header "h": the first query streams {h: a} and
   * {h: b}, the second streams {a: b} twice.
   */
  lemma SecondListingExample()
    ensures var values := [[Text("h")], [Text("a")], [Text("b")]];
      && CsvListable(values) && CsvListable(Projection.Shifted(values))
      && CsvListed(values) == [map["h" := "a"], map["h" := "b"]]
      && CsvListed(Projection.Shifted(values)) == [map["a" := "b"], map["a" := "b"]]
  {
    var values := [[Text("h")], [Text("a")], [Text("b")]];
    var shifted := Projection.Shifted(values);
    assert shifted == [[Text("a")], [Text("b")], [Text("b")]];
    assert Texts([Text("a")]) == ["a"] && Texts([Text("b")]) == ["b"] && Texts([Text("h")]) == ["h"];
    assert Projection.Record(["h"], ["a"]) == map["h" := "a"] by {
      assert ["a"][..0] == [];
    }
    assert Projection.Record(["h"], ["b"]) == map["h" := "b"] by {
      assert ["b"][..0] == [];
    }
    assert Projection.Record(["a"], ["b"]) == map["a" := "b"] by {
      assert ["b"][..0] == [];
    }
  }

  /** A CSV table queried twice: the lister's two invocations. */
  method ListTwice(lister: CsvLister) returns (first: seq<map<string, string>>, second: seq<map<string, string>>)
    requires CsvListable(lister.data[..]) && CsvListable(Projection.Shifted(lister.data[..]))
    modifies lister.data
    ensures first == CsvListed(old(lister.data[..]))
    ensures second == CsvListed(Projection.Shifted(old(lister.data[..])))
  {
    first := lister.List();
    second := lister.List();
  }

  /** With the corrected listing, querying the table twice streams the same records twice. */
  method ListTwiceFromCopy(lister: CsvLister) returns (first: seq<map<string, string>>, second: seq<map<string, string>>)
    requires CsvListable(lister.data[..])
    ensures first == second == CsvListed(lister.data[..])
  {
    first := lister.ListFromCopy();
    second := lister.ListFromCopy();
  }
}
