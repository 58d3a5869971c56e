/**
 * Pieces shared by the row projectors (table_code_googlesheet.go,
 * table_code_googlesheets.go, table_code_csv.go, table_googlesheets_csv.go):
 * the record a row loop builds, the header-row removal the projectors do in
 * place, the number of rows a budgeted loop streams, and the string columns
 * the table builders declare.
 */
module Projection {
  import opened SheetsApi
  import Decimal

  // --------------------------------------------------------------- records

  /**
   * The map `row[headers[idx]] = value` built left to right over a row;
   * a later position overwrites an earlier one with the same header.  The
   * row may not be longer than the headers (that index panics).
   */
  function Record(headers: seq<string>, row: seq<string>): map<string, string>
    requires |row| <= |headers|
  {
    if row == [] then map[]
    else Record(headers, row[..|row| - 1])[headers[|row| - 1] := row[|row| - 1]]
  }

  /** The record's keys are exactly the headers of the row's positions. */
  lemma {:induction false} RecordKeys(headers: seq<string>, row: seq<string>)
    requires |row| <= |headers|
    ensures Record(headers, row).Keys == set idx | 0 <= idx < |row| :: headers[idx]
  {
    if row != [] {
      var n := |row| - 1;
      RecordKeys(headers, row[..n]);
      assert (set idx | 0 <= idx < |row| :: headers[idx])
        == (set idx | 0 <= idx < n :: headers[idx]) + {headers[n]};
    }
  }

  /** A header holds the value of the last position that carries it. */
  lemma {:induction false} RecordLastWins(headers: seq<string>, row: seq<string>, idx: int)
    requires |row| <= |headers| && 0 <= idx < |row|
    requires forall j :: idx < j < |row| ==> headers[j] != headers[idx]
    ensures headers[idx] in Record(headers, row)
    ensures Record(headers, row)[headers[idx]] == row[idx]
  {
    var n := |row| - 1;
    if idx < n {
      RecordLastWins(headers, row[..n], idx);
    }
  }

  /** With pairwise distinct headers, every position keeps its own value. */
  lemma DistinctHeadersKeepEveryValue(headers: seq<string>, row: seq<string>)
    requires |row| <= |headers|
    requires forall i, j :: 0 <= i < j < |headers| ==> headers[i] != headers[j]
    ensures forall idx :: 0 <= idx < |row| ==>
      headers[idx] in Record(headers, row) && Record(headers, row)[headers[idx]] == row[idx]
  {
    forall idx | 0 <= idx < |row|
      ensures headers[idx] in Record(headers, row) && Record(headers, row)[headers[idx]] == row[idx]
    {
      RecordLastWins(headers, row, idx);
    }
  }

  /** A data row the loop can read: all strings, no wider than the headers. */
  predicate RowFits(headers: seq<string>, row: seq<CellValue>) {
    |row| <= |headers| && AllText(row)
  }

  predicate RowsFit(headers: seq<string>, rows: seq<seq<CellValue>>) {
    forall k :: 0 <= k < |rows| ==> RowFits(headers, rows[k])
  }

  /** One record per data row, in row order. */
  function Records(headers: seq<string>, rows: seq<seq<CellValue>>): (out: seq<map<string, string>>)
    requires RowsFit(headers, rows)
    ensures |out| == |rows|
    ensures forall k :: 0 <= k < |rows| ==> out[k] == Record(headers, Texts(rows[k]))
  {
    seq(|rows|, k requires 0 <= k < |rows| && RowsFit(headers, rows) => Record(headers, Texts(rows[k])))
  }

  /**
   * The row loop body shared by the projectors: `row := map{}; for idx, j
   * := range i { row[headers[idx]] = j.(string) }`.
   */
  method BuildRecord(headers: seq<string>, row: seq<CellValue>) returns (rec: map<string, string>)
    requires RowFits(headers, row)
    ensures rec == Record(headers, Texts(row))
  {
    rec := map[];
    var idx := 0;
    while idx < |row|
      invariant 0 <= idx <= |row|
      invariant rec == Record(headers, Texts(row)[..idx])
    {
      assert Texts(row)[..idx + 1][..idx] == Texts(row)[..idx];
      rec := rec[headers[idx] := row[idx].s];
      idx := idx + 1;
    }
    assert Texts(row)[..|row|] == Texts(row);
  }

  /** The header loop of the plain projectors: the string of every first-row cell. */
  method HeaderTexts(row: seq<CellValue>) returns (headers: seq<string>)
    requires AllText(row)
    ensures headers == Texts(row)
  {
    headers := [];
    var idx := 0;
    while idx < |row|
      invariant 0 <= idx <= |row|
      invariant headers == Texts(row)[..idx]
    {
      headers := headers + [row[idx].s];
      idx := idx + 1;
    }
  }

  // ------------------------------------------------------- header removal

  /** The backing array after `append(values[:0], values[1:]...)`. */
  function Shifted<T>(s: seq<T>): (r: seq<T>)
    requires |s| >= 1
    ensures |r| == |s|
    ensures r[..|s| - 1] == s[1..] && r[|s| - 1] == s[|s| - 1]
  {
    s[1..] + [s[|s| - 1]]
  }

  /**
   * `append(values[:0], values[1:]...)`: copies every element one slot to
   * the left inside the same backing array.  The array keeps its length and
   * its last slot; the resulting slice is the first Length-1 slots.
   * Slicing past the end panics, so the array holds at least one row.
   */
  method ShiftOutHeader<T>(a: array<T>) returns (n: nat)
    requires a.Length >= 1
    modifies a
    ensures n == a.Length - 1
    ensures a[..] == Shifted(old(a[..]))
  {
    n := a.Length - 1;
    var k := 0;
    while k < n
      invariant 0 <= k <= n
      invariant forall j :: 0 <= j < k ==> a[j] == old(a[j + 1])
      invariant forall j :: k <= j < a.Length ==> a[j] == old(a[j])
    {
      a[k] := a[k + 1];
      k := k + 1;
    }
    assert a[..] == old(a[..])[1..] + [old(a[..])[n]];
  }

  // ------------------------------------------------------------ row budget

  /**
   * How many of `total` data rows a budgeted row loop streams: it returns
   * right after the emit that leaves RowsRemaining at 0.
   */
  function Streamed(limit: Limit, total: nat): (n: nat)
    ensures n <= total
  {
    if limit.Limit? && 1 <= limit.n <= total then limit.n else total
  }

  /**
   * Streamed is the first count at which the budget reads 0, or all rows
   * when it never does; with a limit of N >= 1 that is min(N, total).
   */
  lemma StreamedIsFirstExhaustion(limit: Limit, total: nat)
    ensures forall k :: 1 <= k < Streamed(limit, total) ==> !NoRowsRemaining(limit, k)
    ensures Streamed(limit, total) < total ==> NoRowsRemaining(limit, Streamed(limit, total))
    ensures limit.Limit? && limit.n >= 1 ==>
      Streamed(limit, total) == if limit.n < total then limit.n else total
  {
  }

  /** The unbudgeted row loop of the CSV lister: one record per row of data[..n]. */
  method StreamAll(headers: seq<string>, data: array<seq<CellValue>>, n: nat)
    returns (out: seq<map<string, string>>)
    requires n <= data.Length && RowsFit(headers, data[..n])
    ensures out == Records(headers, data[..n])
  {
    out := [];
    var i := 0;
    while i < n
      invariant 0 <= i <= n
      invariant out == Records(headers, data[..n][..i])
    {
      assert RowFits(headers, data[..n][i]);
      var row := BuildRecord(headers, data[i]);
      out := out + [row];
      i := i + 1;
    }
    assert data[..n][..n] == data[..n];
  }

  /**
   * The budgeted row loop of the sheet listers: stream one record per row
   * of data[..n] and return right after the emit that leaves RowsRemaining
   * at 0.  Rows past that point are never read, so only the streamed ones
   * need to fit the headers.
   */
  method StreamBudgeted(headers: seq<string>, data: array<seq<CellValue>>, n: nat, limit: Limit)
    returns (out: seq<map<string, string>>)
    requires n <= data.Length && RowsFit(headers, data[..n][..Streamed(limit, n)])
    ensures out == Records(headers, data[..n][..Streamed(limit, n)])
  {
    out := [];
    var i := 0;
    while i < n
      invariant 0 <= i <= n
      invariant limit.Limit? && limit.n >= 1 ==> i < limit.n
      invariant out == Records(headers, data[..n][..Streamed(limit, n)][..i])
    {
      assert i < Streamed(limit, n);
      assert RowFits(headers, data[..n][..Streamed(limit, n)][i]);
      var row := BuildRecord(headers, data[i]);
      out := out + [row];
      i := i + 1;
      if NoRowsRemaining(limit, i) {
        return;
      }
    }
    assert data[..n][..n] == data[..n];
  }

  // --------------------------------------------------------------- columns

  /** The column declared for header `name` at 0-based position idx. */
  function FieldColumn(name: string, idx: nat): Column {
    Column(name, "Field " + Decimal.NatToString(idx) + ".")
  }

  /** One string column per header, in order, described "Field <idx>.". */
  function FieldColumns(names: seq<string>): (cols: seq<Column>)
    ensures |cols| == |names|
    ensures forall idx :: 0 <= idx < |names| ==> cols[idx] == FieldColumn(names[idx], idx)
  {
    seq(|names|, idx requires 0 <= idx < |names| => FieldColumn(names[idx], idx))
  }

  /** The column loop of the table builders: append one column per header. */
  method BuildColumns(names: seq<string>) returns (cols: seq<Column>)
    ensures cols == FieldColumns(names)
  {
    cols := [];
    var idx := 0;
    while idx < |names|
      invariant 0 <= idx <= |names|
      invariant cols == FieldColumns(names[..idx])
    {
      cols := cols + [FieldColumn(names[idx], idx)];
      idx := idx + 1;
    }
    assert names[..|names|] == names;
  }
}
