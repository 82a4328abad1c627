/**
 * `toCSV` from the export script: a header line holding the union of all
 * row keys, then one line per row. String cells are quoted as section 2
 * (rules 6 and 7) of RFC 4180 describes, but lines end in LF rather than
 * CRLF, and array and object cells are written without quoting.
 *
 * `JSON.stringify` of an object, `String(x)` of a scalar and
 * `Date.prototype.toISOString` are abstract: their texts are carried in
 * the cell values.
 */
module ExportCsv {
  import opened Text

  /** An element of an array cell, as `.map(v => typeof v === "object" ? JSON.stringify(v) : v)` leaves it. */
  datatype ArrayItem =
    | JsonItem(json: string)    // an object, array or null element, already stringified
    | UndefinedItem             // `join` prints undefined as ""
    | ScalarItem(text: string)  // `String(v)` of a string, number or boolean

  datatype CellValue =
    | Missing                   // null, undefined, or a key the row lacks
    | DateValue(iso: string)
    | ArrayValue(items: seq<ArrayItem>)
    | ObjectValue(json: string)
    | ScalarValue(text: string)

  datatype Field = Field(key: string, value: CellValue)

  /** A row is an object; its fields are in `Object.keys` order. */
  type Row = seq<Field>

  function Keys(row: Row): (ks: seq<string>)
    ensures |ks| == |row|
  {
    seq(|row|, i requires 0 <= i < |row| => row[i].key)
  }

  /** `row[h]`. */
  function Lookup(row: Row, h: string): CellValue {
    if row == [] then Missing
    else if row[0].key == h then row[0].value
    else Lookup(row[1..], h)
  }

  predicate NoDuplicates(s: seq<string>) {
    forall i, j :: 0 <= i < j < |s| ==> s[i] != s[j]
  }

  predicate IsPrefix(a: seq<string>, b: seq<string>) {
    |a| <= |b| && b[..|a|] == a
  }

  // ---------------------------------------------------------------------
  // The header set
  // ---------------------------------------------------------------------

  /** `keys.forEach(k => set.add(k))` on a Set whose elements, in insertion order, are `acc`. */
  function AddKeys(acc: seq<string>, keys: seq<string>): seq<string> {
    if keys == [] then acc
    else
      var a := AddKeys(acc, keys[..|keys| - 1]);
      var k := keys[|keys| - 1];
      if k in a then a else a + [k]
  }

  /** `Array.from(rows.reduce(...))`: the insertion order of the header Set. */
  function Headers(rows: seq<Row>): seq<string> {
    if rows == [] then [] else AddKeys(Headers(rows[..|rows| - 1]), Keys(rows[|rows| - 1]))
  }

  /** Adding keys keeps what was there, adds each new key once, and adds nothing else. */
  lemma {:induction false} AddKeysFacts(acc: seq<string>, keys: seq<string>)
    ensures IsPrefix(acc, AddKeys(acc, keys))
    ensures forall x :: x in AddKeys(acc, keys) <==> x in acc || x in keys
    ensures NoDuplicates(acc) ==> NoDuplicates(AddKeys(acc, keys))
  {
    if keys != [] {
      var init := keys[..|keys| - 1];
      AddKeysFacts(acc, init);
      assert keys == init + [keys[|keys| - 1]];
    }
  }

  /**
   * The headers are exactly the keys of the rows, each once, in order of
   * first appearance: the headers of a prefix of the rows are a prefix of
   * the headers of all of them.
   */
  lemma {:induction false} HeadersFacts(rows: seq<Row>)
    ensures NoDuplicates(Headers(rows))
    ensures forall h :: h in Headers(rows) <==> exists i :: 0 <= i < |rows| && h in Keys(rows[i])
  {
    if rows != [] {
      var init := rows[..|rows| - 1];
      HeadersFacts(init);
      AddKeysFacts(Headers(init), Keys(rows[|rows| - 1]));
      forall h | h in Headers(rows)
        ensures exists i :: 0 <= i < |rows| && h in Keys(rows[i])
      {
        if h in Headers(init) {
          var i :| 0 <= i < |init| && h in Keys(init[i]);
          assert init[i] == rows[i];
        } else {
          assert h in Keys(rows[|rows| - 1]);
        }
      }
      forall h, i | 0 <= i < |rows| && h in Keys(rows[i])
        ensures h in Headers(rows)
      {
        if i < |init| {
          assert init[i] == rows[i];
        }
      }
    }
  }

  lemma {:induction false} HeadersFirstAppearance(rows: seq<Row>, k: nat)
    requires k <= |rows|
    ensures IsPrefix(Headers(rows[..k]), Headers(rows))
    decreases |rows|
  {
    if k < |rows| {
      var init := rows[..|rows| - 1];
      assert rows[..k] == init[..k];
      HeadersFirstAppearance(init, k);
      AddKeysFacts(Headers(init), Keys(rows[|rows| - 1]));
    } else {
      assert rows[..k] == rows;
    }
  }

  /** The reduce over the rows, with the Set held as its insertion-ordered contents. */
  method CollectHeaders(rows: seq<Row>) returns (headers: seq<string>)
    ensures headers == Headers(rows)
  {
    headers := [];
    var i := 0;
    while i < |rows|
      invariant 0 <= i <= |rows|
      invariant headers == Headers(rows[..i])
    {
      var keys := Keys(rows[i]);
      var j := 0;
      while j < |keys|
        invariant 0 <= j <= |keys|
        invariant headers == AddKeys(Headers(rows[..i]), keys[..j])
      {
        assert keys[..j + 1][..j] == keys[..j];
        if keys[j] !in headers {
          headers := headers + [keys[j]];
        }
        j := j + 1;
      }
      assert keys[..j] == keys;
      assert rows[..i + 1][..i] == rows[..i];
      i := i + 1;
    }
    assert rows[..i] == rows;
  }

  // ---------------------------------------------------------------------
  // escape
  // ---------------------------------------------------------------------

  /** `/[",\n]/.test(s)`. */
  predicate NeedsQuoting(s: string) {
    '"' in s || ',' in s || '\n' in s
  }

  /** `s.replace(/"/g, '""')`. */
  function DoubleQuotes(s: string): string {
    if s == [] then [] else (if s[0] == '"' then "\"\"" else [s[0]]) + DoubleQuotes(s[1..])
  }

  function ItemText(item: ArrayItem): string {
    match item
    case JsonItem(json) => json
    case UndefinedItem => ""
    case ScalarItem(text) => text
  }

  /** `escape`. */
  function Escape(v: CellValue): (r: string)
    ensures v.Missing? ==> r == ""
    ensures v.ScalarValue? && !NeedsQuoting(v.text) ==> r == v.text
    ensures v.ScalarValue? && NeedsQuoting(v.text) ==> |r| >= 2 && r[0] == '"' && r[|r| - 1] == '"'
  {
    match v
    case Missing => ""
    case DateValue(iso) => iso
    case ArrayValue(items) => Join(seq(|items|, i requires 0 <= i < |items| => ItemText(items[i])), ";")
    case ObjectValue(json) => json
    case ScalarValue(s) => if NeedsQuoting(s) then "\"" + DoubleQuotes(s) + "\"" else s
  }

  /** A reader's decoding of a quoted field body: `""` stands for one quote. */
  function CollapseQuotes(s: string): string {
    if s == [] then []
    else if |s| >= 2 && s[0] == '"' && s[1] == '"' then "\"" + CollapseQuotes(s[2..])
    else [s[0]] + CollapseQuotes(s[1..])
  }

  /** A reader's decoding of one field: strip enclosing quotes, then collapse doubled quotes. */
  function Unquote(field: string): string {
    if |field| >= 2 && field[0] == '"' && field[|field| - 1] == '"' then CollapseQuotes(field[1..|field| - 1])
    else field
  }

  lemma {:induction false} CollapseDoubled(s: string)
    ensures CollapseQuotes(DoubleQuotes(s)) == s
  {
    if s != [] {
      CollapseDoubled(s[1..]);
      var rest := DoubleQuotes(s[1..]);
      if s[0] == '"' {
        assert DoubleQuotes(s) == "\"\"" + rest;
        assert ("\"\"" + rest)[2..] == rest;
      } else {
        assert DoubleQuotes(s) == [s[0]] + rest;
        assert ([s[0]] + rest)[1..] == rest;
      }
      assert [s[0]] + s[1..] == s;
    }
  }

  /**
   * String cells round-trip: decoding what `escape` wrote gives the string
   * back, and a cell is quoted exactly when it holds a quote, comma or
   * line feed.
   */
  lemma EscapeRoundTrip(s: string)
    ensures Unquote(Escape(ScalarValue(s))) == s
    ensures NeedsQuoting(s) <==> (Escape(ScalarValue(s)) != [] && Escape(ScalarValue(s))[0] == '"')
  {
    var e := Escape(ScalarValue(s));
    if NeedsQuoting(s) {
      CollapseDoubled(s);
      assert e[1..|e| - 1] == DoubleQuotes(s);
    } else if s != [] {
      assert s[0] in s;
    }
  }

  // ---------------------------------------------------------------------
  // toCSV
  // ---------------------------------------------------------------------

  function Cells(row: Row, headers: seq<string>): (cells: seq<string>)
    ensures |cells| == |headers|
  {
    seq(|headers|, j requires 0 <= j < |headers| => Escape(Lookup(row, headers[j])))
  }

  function RowLine(row: Row, headers: seq<string>): string {
    Join(Cells(row, headers), ",")
  }

  function Lines(rows: seq<Row>, headers: seq<string>): (lines: seq<string>)
    ensures |lines| == |rows|
  {
    seq(|rows|, i requires 0 <= i < |rows| => RowLine(rows[i], headers))
  }

  /** The whole file: "" for no rows, else the header line and the row lines joined with LF. */
  function Csv(rows: seq<Row>): string {
    if rows == [] then ""
    else
      var headers := Headers(rows);
      Join([Join(headers, ",")] + Lines(rows, headers), "\n")
  }

  method ToCsv(rows: seq<Row>) returns (csv: string)
    ensures csv == Csv(rows)
    ensures rows == [] <==> csv == ""
  {
    if |rows| == 0 {
      return "";
    }
    var headers := CollectHeaders(rows);
    var lines := [];
    var i := 0;
    while i < |rows|
      invariant 0 <= i <= |rows|
      invariant lines == Lines(rows[..i], headers)
    {
      lines := lines + [RowLine(rows[i], headers)];
      i := i + 1;
    }
    assert rows[..i] == rows;
    csv := Join([Join(headers, ",")] + lines, "\n");
    JoinNonEmpty([Join(headers, ",")] + lines, "\n");
  }

  /** Joining at least two parts with a non-empty separator is never empty. */
  lemma JoinNonEmpty(parts: seq<string>, sep: string)
    requires |parts| >= 2 && sep != ""
    ensures Join(parts, sep) != ""
  {
  }

  lemma {:induction false} JoinAvoids(parts: seq<string>, sep: string, c: char)
    requires forall i :: 0 <= i < |parts| ==> c !in parts[i]
    requires c !in sep
    ensures c !in Join(parts, sep)
  {
    if |parts| > 1 {
      JoinAvoids(parts[1..], sep, c);
    }
  }

  /**
   * When no header and no written cell holds a line feed, the file splits
   * on LF into the header line followed by one line per row, in row order.
   */
  lemma CsvLines(rows: seq<Row>)
    requires rows != []
    requires forall h :: h in Headers(rows) ==> '\n' !in h
    requires forall i, j :: 0 <= i < |rows| && 0 <= j < |Headers(rows)| ==> '\n' !in Cells(rows[i], Headers(rows))[j]
    ensures Split(Csv(rows), '\n') == [Join(Headers(rows), ",")] + Lines(rows, Headers(rows))
  {
    var headers := Headers(rows);
    var parts := [Join(headers, ",")] + Lines(rows, headers);
    JoinAvoids(headers, ",", '\n');
    forall i | 0 <= i < |rows|
      ensures '\n' !in RowLine(rows[i], headers)
    {
      JoinAvoids(Cells(rows[i], headers), ",", '\n');
    }
    SplitJoin(parts, '\n');
  }

  /**
   * When no written cell holds a comma, a row line splits on commas into
   * exactly one field per header, and each field decodes to its cell.
   */
  lemma OneFieldPerHeader(row: Row, headers: seq<string>)
    requires |headers| >= 1
    requires forall j :: 0 <= j < |headers| ==> ',' !in Cells(row, headers)[j]
    ensures Split(RowLine(row, headers), ',') == Cells(row, headers)
  {
    SplitJoin(Cells(row, headers), ',');
  }

  /**
   * Object and array cells are written without quoting, so one holding a
   * comma breaks the one-field-per-header layout: this one-column row
   * reads back as two fields.
   */
  lemma ObjectCellSplitsRow()
    ensures var row := [Field("coords", ObjectValue(SampleJson))];
            |Split(RowLine(row, ["coords"]), ',')| == 2
  {
    ObjectCellIsItsText(SampleJson);
    SampleJsonSplitsInTwo();
  }

  const SampleJson := "{\"a\":1,\"b\":2}"

  lemma ObjectCellIsItsText(json: string)
    ensures RowLine([Field("coords", ObjectValue(json))], ["coords"]) == json
  {
    assert Cells([Field("coords", ObjectValue(json))], ["coords"]) == [json];
  }

  lemma SampleJsonSplitsInTwo()
    ensures |Split(SampleJson, ',')| == 2
  {
    assert SampleJson == "{\"a\":1" + [','] + "\"b\":2}";
    SplitAfterFirst("{\"a\":1", ',', "\"b\":2}");
    SplitNoSeparator("\"b\":2}", ',');
  }
}
