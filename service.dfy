/**
 * The post-fetch part of googlesheets/service.go: the header ranges
 * requested per sheet, the sheet-name-to-headers map built from the batch
 * response, and the list of sheet titles.  Client construction and the API
 * calls themselves are parameters.
 */
module Service {
  import opened SheetsApi

  // ------------------------------------------------------------ sheet key

  /** `strings.Split(r, "!")[0]`: the text before the first '!', or all of r. */
  function BangPrefix(r: string): (p: string)
    ensures '!' !in p
    ensures |p| < |r| ==> r[|p|] == '!'
  {
    if r == [] || r[0] == '!' then []
    else [r[0]] + BangPrefix(r[1..])
  }

  /** The part before the first '!' is a prefix of the range. */
  lemma {:induction false} BangPrefixIsPrefix(r: string)
    ensures BangPrefix(r) <= r
  {
    if r != [] && r[0] != '!' {
      BangPrefixIsPrefix(r[1..]);
    }
  }

  /**
   * The API quotes a sheet name with spaces ("'Sheet 1'!A1:Z1").  Stripping
   * the first and last characters of a key that starts with a quote slices
   * `str[1:len(str)-1]`, which panics on the one-character key "'".
   */
  predicate Unquotable(r: string) {
    var p := BangPrefix(r);
    |p| > 0 && p[0] == '\'' ==> |p| >= 2
  }

  /** The sheet name a value range belongs to. */
  function SheetKey(r: string): string
    requires Unquotable(r)
  {
    var p := BangPrefix(r);
    if |p| > 0 && p[0] == '\'' then p[1..|p| - 1] else p
  }

  /**
   * The key is the text before the first '!', with the enclosing quotes
   * removed when it starts with one; so it never holds a '!', and a key
   * read from an unquoted range is never longer than the text before the
   * '!' and a quoted one is two characters shorter.
   */
  lemma SheetKeyUnquotes(r: string)
    requires Unquotable(r)
    ensures var p := BangPrefix(r);
      p == if |p| > 0 && p[0] == '\'' then ['\''] + SheetKey(r) + [p[|p| - 1]] else SheetKey(r)
    ensures '!' !in SheetKey(r)
    ensures |SheetKey(r)| < |r| || (SheetKey(r) == r && '!' !in r)
  {
    var p := BangPrefix(r);
    BangPrefixIsPrefix(r);
    if |p| > 0 && p[0] == '\'' {
      assert p == [p[0]] + p[1..|p| - 1] + [p[|p| - 1]];
      assert forall k :: 0 <= k < |SheetKey(r)| ==> SheetKey(r)[k] == p[k + 1];
    } else if |p| == |r| {
      assert p == r;
    }
  }

  /** A quoted sheet name ("'Sheet 1'!A1:Z1") comes back without its quotes. */
  lemma SheetKeyOfQuotedRange(name: string, rest: string)
    requires '!' !in name && |rest| > 0 && rest[0] == '!'
    ensures var r := "'" + name + "'" + rest;
      Unquotable(r) && SheetKey(r) == name
  {
    var q := "'" + name + "'";
    assert forall i :: 0 <= i < |q| ==> q[i] == '\'' || q[i] == name[i - 1];
    BangPrefixOfJoin(q, rest);
    assert q[1..|q| - 1] == name;
  }

  /**
   * A quoted sheet name holding a '!' is cut at that '!': "'Sheet!1'!A1:Z1"
   * reads as "Shee", so the sheet never matches its own value range.
   */
  lemma SheetKeyCutAtBang(a: string, b: string, rest: string)
    requires '!' !in a && |a| >= 1
    ensures var r := "'" + a + "!" + b + "'" + rest;
      Unquotable(r) && SheetKey(r) == a[..|a| - 1] && SheetKey(r) != a + "!" + b
  {
    var q := "'" + a;
    assert forall i :: 0 <= i < |q| ==> q[i] == '\'' || q[i] == a[i - 1];
    assert "'" + a + "!" + b + "'" + rest == q + ("!" + b + "'" + rest);
    BangPrefixOfJoin(q, "!" + b + "'" + rest);
    assert q[1..|q| - 1] == a[..|a| - 1];
  }

  /** A quote-free sheet name comes back from its header range unchanged. */
  lemma {:induction false} SheetKeyOfHeaderRange(name: string)
    requires '!' !in name
    requires |name| > 0 ==> name[0] != '\''
    ensures Unquotable(name + "!1:1") && SheetKey(name + "!1:1") == name
  {
    BangPrefixOfJoin(name, "!1:1");
  }

  lemma {:induction false} BangPrefixOfJoin(name: string, rest: string)
    requires '!' !in name && |rest| > 0 && rest[0] == '!'
    ensures BangPrefix(name + rest) == name
  {
    if name != [] {
      assert (name + rest)[1..] == name[1..] + rest;
      BangPrefixOfJoin(name[1..], rest);
    }
  }

  // -------------------------------------------------------- header ranges

  /** The range asking for the first row of a sheet. */
  function HeaderRange(name: string): string {
    name + "!1:1"
  }

  /** The header ranges of the given sheets, in order. */
  function HeaderRanges(sheetNames: seq<string>): (ranges: seq<string>)
    ensures |ranges| == |sheetNames|
  {
    seq(|sheetNames|, k requires 0 <= k < |sheetNames| => HeaderRange(sheetNames[k]))
  }

  /** getSpreadsheetHeaders' range loop: one "<name>!1:1" per sheet, in order. */
  method SheetRanges(sheetNames: seq<string>) returns (sheetRanges: seq<string>)
    ensures |sheetRanges| == |sheetNames|
    ensures forall k :: 0 <= k < |sheetNames| ==> sheetRanges[k] == HeaderRange(sheetNames[k])
  {
    sheetRanges := [];
    var k := 0;
    while k < |sheetNames|
      invariant 0 <= k <= |sheetNames|
      invariant |sheetRanges| == k
      invariant forall j :: 0 <= j < k ==> sheetRanges[j] == HeaderRange(sheetNames[j])
    {
      sheetRanges := sheetRanges + [HeaderRange(sheetNames[k])];
      k := k + 1;
    }
  }

  // ----------------------------------------------------------- header map

  /** A value range with rows adds an entry; its key and first row are read. */
  predicate Contributes(vr: ValueRange) {
    |vr.values| > 0
  }

  /** The map loop does not panic on vr. */
  predicate HeaderRangeReadable(vr: ValueRange) {
    Contributes(vr) ==> Unquotable(vr.range) && AllText(vr.values[0])
  }

  predicate AllHeaderRangesReadable(vrs: seq<ValueRange>) {
    forall k :: 0 <= k < |vrs| ==> HeaderRangeReadable(vrs[k])
  }

  /** The map after the loop has seen the first n value ranges. */
  function HeadersMap(vrs: seq<ValueRange>, n: nat): map<string, seq<string>>
    requires n <= |vrs| && AllHeaderRangesReadable(vrs)
  {
    if n == 0 then map[]
    else if !Contributes(vrs[n - 1]) then HeadersMap(vrs, n - 1)
    else HeadersMap(vrs, n - 1)[SheetKey(vrs[n - 1].range) := Texts(vrs[n - 1].values[0])]
  }

  /** vrs[k], one of the first n ranges, adds an entry under `key`. */
  predicate Carries(vrs: seq<ValueRange>, n: nat, key: string, k: int)
    requires n <= |vrs| && AllHeaderRangesReadable(vrs)
  {
    0 <= k < n && Contributes(vrs[k]) && SheetKey(vrs[k].range) == key
  }

  /** vrs[k] is the last of the first n ranges that contributes under `key`. */
  predicate LastFor(vrs: seq<ValueRange>, n: nat, key: string, k: int)
    requires n <= |vrs| && AllHeaderRangesReadable(vrs)
  {
    0 <= k < n && Contributes(vrs[k]) && SheetKey(vrs[k].range) == key
    && forall j :: k < j < n && Contributes(vrs[j]) ==> SheetKey(vrs[j].range) != key
  }

  /** A sheet name is in the map exactly when some value range with rows carries it. */
  lemma {:induction false} HeadersMapKeys(vrs: seq<ValueRange>, n: nat, key: string)
    requires n <= |vrs| && AllHeaderRangesReadable(vrs)
    ensures key in HeadersMap(vrs, n) <==> exists k :: Carries(vrs, n, key, k)
  {
    if n > 0 {
      HeadersMapKeys(vrs, n - 1, key);
      var last := vrs[n - 1];
      if Contributes(last) && SheetKey(last.range) == key {
        assert Carries(vrs, n, key, n - 1);
      } else {
        assert HeadersMap(vrs, n) == HeadersMap(vrs, n - 1) || HeadersMap(vrs, n).Keys == HeadersMap(vrs, n - 1).Keys + {SheetKey(last.range)};
        if key in HeadersMap(vrs, n) {
          var k :| Carries(vrs, n - 1, key, k);
          assert Carries(vrs, n, key, k);
        }
        if exists k :: Carries(vrs, n, key, k) {
          var k :| Carries(vrs, n, key, k);
          assert Carries(vrs, n - 1, key, k);
        }
      }
    }
  }

  /** A later value range with the same sheet name overwrites the earlier entry. */
  lemma {:induction false} HeadersMapLastWins(vrs: seq<ValueRange>, n: nat, key: string, k: int)
    requires n <= |vrs| && AllHeaderRangesReadable(vrs)
    requires LastFor(vrs, n, key, k)
    ensures key in HeadersMap(vrs, n) && HeadersMap(vrs, n)[key] == Texts(vrs[k].values[0])
  {
    if k < n - 1 {
      assert LastFor(vrs, n - 1, key, k);
      HeadersMapLastWins(vrs, n - 1, key, k);
    }
  }

  /**
   * getSpreadsheetHeaders after the client is built: request the first row
   * of every sheet (`batchGet` stands for the BatchGet call on those ranges)
   * and map each sheet name to its header strings.
   */
  method GetSpreadsheetHeaders(sheetNames: seq<string>, batchGet: seq<string> -> Fetch<seq<ValueRange>>)
    returns (headers: Fetch<map<string, seq<string>>>)
    requires batchGet(HeaderRanges(sheetNames)).Ok? ==>
      AllHeaderRangesReadable(batchGet(HeaderRanges(sheetNames)).value)
    ensures var resp := batchGet(HeaderRanges(sheetNames));
      && (resp.Err? ==> headers == Err(resp.message))
      && (resp.Ok? ==> headers == Ok(HeadersMap(resp.value, |resp.value|)))
  {
    var sheetRanges := SheetRanges(sheetNames);
    assert sheetRanges == HeaderRanges(sheetNames);
    var resp := batchGet(sheetRanges);
    if resp.Err? {
      return Err(resp.message);
    }
    var vrs := resp.value;
    var m: map<string, seq<string>> := map[];
    var k := 0;
    while k < |vrs|
      invariant 0 <= k <= |vrs|
      invariant m == HeadersMap(vrs, k)
    {
      var vr := vrs[k];
      if |vr.values| != 0 {
        var str := BangPrefix(vr.range);
        if |str| > 0 && str[0] == '\'' {
          str := str[1..|str| - 1];
        }
        var row := vr.values[0];
        var spreadsheetHeaders: seq<string> := [];
        var j := 0;
        while j < |row|
          invariant 0 <= j <= |row|
          invariant spreadsheetHeaders == Texts(row)[..j]
        {
          spreadsheetHeaders := spreadsheetHeaders + [row[j].s];
          j := j + 1;
        }
        assert str == SheetKey(vr.range);
        assert spreadsheetHeaders == Texts(row);
        m := m[str := spreadsheetHeaders];
      }
      k := k + 1;
    }
    return Ok(m);
  }

  // ---------------------------------------------------------------- titles

  /** getSpreadsheets after the call: the title of every sheet, in response order. */
  method GetSpreadsheets(resp: Fetch<seq<Sheet>>) returns (titles: Fetch<seq<string>>)
    ensures resp.Err? ==> titles == Err(resp.message)
    ensures resp.Ok? ==> titles.Ok? && |titles.value| == |resp.value|
    ensures resp.Ok? ==> forall k :: 0 <= k < |resp.value| ==> titles.value[k] == resp.value[k].title
  {
    if resp.Err? {
      return Err(resp.message);
    }
    var sheets := resp.value;
    var spreadsheetList: seq<string> := [];
    var k := 0;
    while k < |sheets|
      invariant 0 <= k <= |sheets|
      invariant |spreadsheetList| == k
      invariant forall j :: 0 <= j < k ==> spreadsheetList[j] == sheets[j].title
    {
      spreadsheetList := spreadsheetList + [sheets[k].title];
      k := k + 1;
    }
    return Ok(spreadsheetList);
  }
}
